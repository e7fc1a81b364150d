/** The read-only figures of `ASTParser.get_summary`, over the collected records. */
module Summaries {
  import opened Records

  datatype Summary = Summary(
    totalFunctions: nat,
    totalClasses: nat,
    totalImports: nat,
    maxComplexity: int,
    functionsWithoutDocstrings: nat,
    classesWithoutDocstrings: nat)

  /** `max((f.complexity for f in fs), default=0)`. */
  function MaxComplexity(fs: seq<FunctionInfo>): (r: int)
    ensures fs == [] ==> r == 0
    ensures forall i :: 0 <= i < |fs| ==> fs[i].complexity <= r
    ensures fs != [] ==> exists i :: 0 <= i < |fs| && fs[i].complexity == r
  {
    if fs == [] then 0
    else if |fs| == 1 then fs[0].complexity
    else
      var m := MaxComplexity(fs[1..]);
      assert forall i :: 1 <= i < |fs| ==> fs[i] == fs[1..][i - 1];
      if fs[0].complexity >= m then fs[0].complexity else m
  }

  /** `sum(1 for f in fs if not f.has_docstring)`. */
  function FunctionsWithoutDocstrings(fs: seq<FunctionInfo>): (r: nat)
    ensures r <= |fs|
    ensures r == 0 <==> forall i :: 0 <= i < |fs| ==> fs[i].hasDocstring
  {
    if fs == [] then 0
    else
      assert forall i :: 1 <= i < |fs| ==> fs[i] == fs[1..][i - 1];
      (if fs[0].hasDocstring then 0 else 1) + FunctionsWithoutDocstrings(fs[1..])
  }

  /** `sum(1 for c in cs if not c.has_docstring)`. */
  function ClassesWithoutDocstrings(cs: seq<ClassInfo>): (r: nat)
    ensures r <= |cs|
    ensures r == 0 <==> forall i :: 0 <= i < |cs| ==> cs[i].hasDocstring
  {
    if cs == [] then 0
    else
      assert forall i :: 1 <= i < |cs| ==> cs[i] == cs[1..][i - 1];
      (if cs[0].hasDocstring then 0 else 1) + ClassesWithoutDocstrings(cs[1..])
  }
}
