/**
 * The records `ASTParser` collects (`FunctionInfo`, `ClassInfo`, import strings) and,
 * for a sequence of nodes visited by `ast.walk`, which records a fresh visit appends.
 */
module Records {
  import opened Wrappers
  import opened PyAst
  import opened Cyclomatic
  import opened Calls
  import opened SeqFacts

  datatype FunctionInfo = FunctionInfo(
    name: string,
    lineNumber: int,
    args: seq<string>,
    returnAnnotation: Option<string>,
    complexity: int,
    linesOfCode: int,
    hasDocstring: bool,
    docstring: Option<string>,
    calls: seq<string>)

  datatype ClassInfo = ClassInfo(
    name: string,
    lineNumber: int,
    methods: seq<FunctionInfo>,
    bases: seq<string>,
    hasDocstring: bool,
    docstring: Option<string>)

  /** `end_lineno - lineno + 1`, or 0 when the node carries no end line. */
  function LinesOfCode(k: Kind): int
    requires k.FunctionDef?
  {
    match k.endLineno
    case Some(e) => e - k.lineno + 1
    case None => 0
  }

  predicate NoDuplicates(s: seq<string>)
  {
    forall i, j :: 0 <= i < j < |s| ==> s[i] != s[j]
  }

  /** `info` is a faithful `FunctionInfo` of the function definition `n`; the order of
      `calls` is left open, as Python's `list(set(...))` leaves it. */
  predicate Describes(info: FunctionInfo, n: Node)
  {
    n.kind.FunctionDef?
    && info.name == n.kind.name
    && info.lineNumber == n.kind.lineno
    && info.args == n.kind.args
    && info.returnAnnotation == n.kind.returnAnnotation
    && info.complexity == Complexity(n)
    && info.linesOfCode == LinesOfCode(n.kind)
    && info.hasDocstring == n.kind.docstring.Some?
    && info.docstring == n.kind.docstring
    && NoDuplicates(info.calls)
    && (set x | x in info.calls) == TreeCallNames(n)
  }

  /** `infos` describe `nodes` pairwise, in order. */
  predicate DescribesAll(infos: seq<FunctionInfo>, nodes: seq<Node>)
    decreases nodes
  {
    if nodes == [] then infos == []
    else infos != [] && Describes(infos[0], nodes[0]) && DescribesAll(infos[1..], nodes[1..])
  }

  lemma {:induction false} DescribesAllAt(infos: seq<FunctionInfo>, nodes: seq<Node>, k: int)
    requires DescribesAll(infos, nodes) && 0 <= k < |nodes|
    ensures |infos| == |nodes| && Describes(infos[k], nodes[k])
    decreases nodes
  {
    DescribesAllLength(infos, nodes);
    if k > 0 {
      DescribesAllAt(infos[1..], nodes[1..], k - 1);
    }
  }

  lemma {:induction false} DescribesAllLength(infos: seq<FunctionInfo>, nodes: seq<Node>)
    requires DescribesAll(infos, nodes)
    ensures |infos| == |nodes|
    decreases nodes
  {
    if nodes != [] {
      DescribesAllLength(infos[1..], nodes[1..]);
    }
  }

  lemma {:induction false} DescribesAllAppend(a: seq<FunctionInfo>, b: seq<FunctionInfo>, m: seq<Node>, n: seq<Node>)
    requires DescribesAll(a, m) && DescribesAll(b, n)
    ensures DescribesAll(a + b, m + n)
    decreases m
  {
    if m == [] {
      assert a + b == b && m + n == n;
    } else {
      DescribesAllAppend(a[1..], b, m[1..], n);
      AppendTail(a, b);
      AppendTail(m, n);
    }
  }

  /** A class's base-class expressions, `node.bases`. */
  function ClassBases(n: Node): seq<Node>
  {
    var c := if n.kind.ClassDef? && n.kind.baseCount <= |n.children| then n.kind.baseCount
             else if n.kind.ClassDef? then |n.children| else 0;
    n.children[..c]
  }

  /** The children after the bases: keywords, the body and decorators.  Only body
      statements can be function definitions, so scanning these is scanning `node.body`. */
  function ClassBody(n: Node): seq<Node>
  {
    n.children[|ClassBases(n)|..]
  }

  /** The ids of the bases that are plain names, in order (`bases` of `ClassInfo`). */
  function NameIds(q: seq<Node>): (r: seq<string>)
    ensures |r| <= |q|
    ensures forall x :: x in r <==> exists i :: 0 <= i < |q| && q[i].kind == Name(x)
  {
    if q == [] then []
    else
      var last := q[|q| - 1];
      var init := NameIds(q[..|q| - 1]);
      assert forall i :: 0 <= i < |q| - 1 ==> q[..|q| - 1][i] == q[i];
      if last.kind.Name? then init + [last.kind.id] else init
  }

  /** `NameIds` keeps order: the ids of a concatenation are the ids of each part, in turn. */
  lemma {:induction false} NameIdsAppend(a: seq<Node>, b: seq<Node>)
    ensures NameIds(a + b) == NameIds(a) + NameIds(b)
  {
    if b != [] {
      var ab := a + b;
      assert ab[..|ab| - 1] == a + b[..|b| - 1];
      assert ab[|ab| - 1] == b[|b| - 1];
      NameIdsAppend(a, b[..|b| - 1]);
    } else {
      assert a + b == a;
    }
  }

  /** The function definitions among `q`, in order. */
  function FunctionDefs(q: seq<Node>): (r: seq<Node>)
    ensures |r| <= |q|
    ensures forall x :: x in r <==> x in q && x.kind.FunctionDef?
  {
    if q == [] then []
    else
      var last := q[|q| - 1];
      var init := FunctionDefs(q[..|q| - 1]);
      assert q == q[..|q| - 1] + [last];
      if last.kind.FunctionDef? then init + [last] else init
  }

  /** The methods `_analyze_class` analyses: function definitions directly in the body. */
  function ClassMethods(n: Node): seq<Node>
  {
    FunctionDefs(ClassBody(n))
  }

  /** `info` is a faithful `ClassInfo` of the class definition `n`. */
  predicate DescribesClass(info: ClassInfo, n: Node)
  {
    n.kind.ClassDef?
    && info.name == n.kind.name
    && info.lineNumber == n.kind.lineno
    && DescribesAll(info.methods, ClassMethods(n))
    && info.bases == NameIds(ClassBases(n))
    && info.hasDocstring == n.kind.docstring.Some?
    && info.docstring == n.kind.docstring
  }

  /** `infos` describe `nodes` pairwise, in order. */
  predicate DescribesAllClasses(infos: seq<ClassInfo>, nodes: seq<Node>)
    decreases nodes
  {
    if nodes == [] then infos == []
    else infos != [] && DescribesClass(infos[0], nodes[0]) && DescribesAllClasses(infos[1..], nodes[1..])
  }

  lemma {:induction false} DescribesAllClassesAppend(a: seq<ClassInfo>, b: seq<ClassInfo>, m: seq<Node>, n: seq<Node>)
    requires DescribesAllClasses(a, m) && DescribesAllClasses(b, n)
    ensures DescribesAllClasses(a + b, m + n)
    decreases m
  {
    if m == [] {
      assert a + b == b && m + n == n;
    } else {
      DescribesAllClassesAppend(a[1..], b, m[1..], n);
      AppendTail(a, b);
      AppendTail(m, n);
    }
  }

  /** The import strings `_analyze_import` appends for `n`: one per alias, the alias
      name for `import`, and `module.name` (module `''` when absent) for `from ... import`. */
  function ImportEntries(n: Node): (r: seq<string>)
    ensures n.kind.Import? ==> r == n.kind.names
    ensures n.kind.ImportFrom? ==> |r| == |n.kind.names|
    ensures !n.kind.Import? && !n.kind.ImportFrom? ==> r == []
  {
    match n.kind
    case Import(names) => names
    case ImportFrom(m, names) =>
      seq(|names|, i requires 0 <= i < |names| => m.GetOr("") + "." + names[i])
    case _ => []
  }

  /** Cut a dotted name at its last '.': the part before and the part after. */
  function SplitAtLastDot(s: string): Option<(string, string)>
  {
    if s == [] then None
    else if s[|s| - 1] == '.' then Some((s[..|s| - 1], ""))
    else
      match SplitAtLastDot(s[..|s| - 1])
      case None => None
      case Some(p) => Some((p.0, p.1 + [s[|s| - 1]]))
  }

  lemma {:induction false} SplitAtLastDotJoin(prefix: string, name: string)
    requires '.' !in name
    ensures SplitAtLastDot(prefix + "." + name) == Some((prefix, name))
  {
    var s := prefix + "." + name;
    if name == [] {
      assert s[..|s| - 1] == prefix;
    } else {
      var shorter := name[..|name| - 1];
      assert s[..|s| - 1] == prefix + "." + shorter;
      assert '.' !in shorter by {
        forall i | 0 <= i < |shorter| ensures shorter[i] != '.' { assert shorter[i] == name[i]; }
      }
      SplitAtLastDotJoin(prefix, shorter);
      assert shorter + [name[|name| - 1]] == name;
    }
  }

  /** A `from m import a` entry can be taken apart again: the text before the last '.'
      is the module (`''` when absent), the text after it the imported name. */
  lemma ImportFromEntriesRoundTrip(n: Node, i: int)
    requires n.kind.ImportFrom? && 0 <= i < |n.kind.names| && '.' !in n.kind.names[i]
    ensures SplitAtLastDot(ImportEntries(n)[i]) == Some((n.kind.moduleName.GetOr(""), n.kind.names[i]))
  {
    SplitAtLastDotJoin(n.kind.moduleName.GetOr(""), n.kind.names[i]);
  }

  /** Function definitions whose records one visit appends: the node itself for a
      function, the methods of its body for a class. */
  function VisitFunctions(n: Node): seq<Node>
  {
    if n.kind.FunctionDef? then [n]
    else if n.kind.ClassDef? then ClassMethods(n)
    else []
  }

  /** Everything the visits of `ws` append to `functions`, in order. */
  function WalkFunctions(ws: seq<Node>): seq<Node>
  {
    if ws == [] then [] else VisitFunctions(ws[0]) + WalkFunctions(ws[1..])
  }

  /** The class definitions among the visits `ws`: one `ClassInfo` each. */
  function WalkClasses(ws: seq<Node>): seq<Node>
  {
    if ws == [] then []
    else if ws[0].kind.ClassDef? then [ws[0]] + WalkClasses(ws[1..])
    else WalkClasses(ws[1..])
  }

  /** Everything the visits of `ws` append to `imports`, in order. */
  function WalkImports(ws: seq<Node>): seq<string>
  {
    if ws == [] then [] else ImportEntries(ws[0]) + WalkImports(ws[1..])
  }

  lemma {:induction false} WalkFunctionsSnoc(ws: seq<Node>, w: Node)
    ensures WalkFunctions(ws + [w]) == WalkFunctions(ws) + VisitFunctions(w)
  {
    if ws == [] {
      assert [] + [w] == [w];
    } else {
      assert (ws + [w])[0] == ws[0];
      assert (ws + [w])[1..] == ws[1..] + [w];
      WalkFunctionsSnoc(ws[1..], w);
      var a, b, c := VisitFunctions(ws[0]), WalkFunctions(ws[1..]), VisitFunctions(w);
      assert a + (b + c) == (a + b) + c;
    }
  }

  lemma {:induction false} WalkClassesSnoc(ws: seq<Node>, w: Node)
    ensures WalkClasses(ws + [w]) == WalkClasses(ws) + (if w.kind.ClassDef? then [w] else [])
  {
    if ws == [] {
      assert [] + [w] == [w];
    } else {
      assert (ws + [w])[0] == ws[0];
      assert (ws + [w])[1..] == ws[1..] + [w];
      WalkClassesSnoc(ws[1..], w);
      var b, c := WalkClasses(ws[1..]), (if w.kind.ClassDef? then [w] else []);
      assert [ws[0]] + (b + c) == ([ws[0]] + b) + c;
    }
  }

  lemma {:induction false} WalkImportsSnoc(ws: seq<Node>, w: Node)
    ensures WalkImports(ws + [w]) == WalkImports(ws) + ImportEntries(w)
  {
    if ws == [] {
      assert [] + [w] == [w];
    } else {
      assert (ws + [w])[0] == ws[0];
      assert (ws + [w])[1..] == ws[1..] + [w];
      WalkImportsSnoc(ws[1..], w);
      var a, b, c := ImportEntries(ws[0]), WalkImports(ws[1..]), ImportEntries(w);
      assert a + (b + c) == (a + b) + c;
    }
  }

  /** Sum of the `complexity` fields of `fs`. */
  function SumComplexities(fs: seq<FunctionInfo>): int
  {
    if fs == [] then 0 else fs[0].complexity + SumComplexities(fs[1..])
  }

  lemma {:induction false} SumComplexitiesAppend(a: seq<FunctionInfo>, b: seq<FunctionInfo>)
    ensures SumComplexities(a + b) == SumComplexities(a) + SumComplexities(b)
  {
    if a == [] {
      assert a + b == b;
    } else {
      assert (a + b)[1..] == a[1..] + b;
      SumComplexitiesAppend(a[1..], b);
    }
  }

  /** Sum of the complexities of the function definitions `ns`. */
  function SumNodeComplexities(ns: seq<Node>): int
  {
    if ns == [] then 0 else Complexity(ns[0]) + SumNodeComplexities(ns[1..])
  }

  lemma {:induction false} SumNodeComplexitiesAppend(a: seq<Node>, b: seq<Node>)
    ensures SumNodeComplexities(a + b) == SumNodeComplexities(a) + SumNodeComplexities(b)
  {
    if a == [] {
      assert a + b == b;
    } else {
      assert (a + b)[1..] == a[1..] + b;
      SumNodeComplexitiesAppend(a[1..], b);
    }
  }

  /** Records describing `ns` carry exactly the complexities of `ns`. */
  lemma {:induction false} DescribedComplexities(fs: seq<FunctionInfo>, ns: seq<Node>)
    requires DescribesAll(fs, ns)
    ensures SumComplexities(fs) == SumNodeComplexities(ns)
  {
    if ns != [] {
      DescribedComplexities(fs[1..], ns[1..]);
    }
  }

  lemma {:induction false} VisitedRecordsInWalk(ws: seq<Node>, w: Node, x: Node)
    requires w in ws && x in VisitFunctions(w)
    ensures multiset(WalkFunctions(ws))[x] >= multiset(VisitFunctions(w))[x]
  {
    if ws[0] != w {
      VisitedRecordsInWalk(ws[1..], w, x);
    }
  }

  /** Two distinct visits that both record `x` record it twice. */
  lemma {:induction false} RecordedTwice(ws: seq<Node>, c: Node, m: Node)
    requires c in ws && m in ws && c != m
    requires m in VisitFunctions(c) && m in VisitFunctions(m)
    ensures multiset(WalkFunctions(ws))[m] >= 2
  {
    if ws[0] == c {
      VisitedRecordsInWalk(ws[1..], m, m);
    } else if ws[0] == m {
      VisitedRecordsInWalk(ws[1..], c, m);
    } else {
      RecordedTwice(ws[1..], c, m);
    }
  }

  /** A method of a class reached by the walk is analysed twice: once by
      `_analyze_class` and once when the walk reaches its own definition. */
  lemma MethodAnalysedTwice(tree: Node, c: Node, m: Node)
    requires c in Walk(tree) && c.kind.ClassDef? && m in ClassMethods(c)
    ensures multiset(WalkFunctions(Walk(tree)))[m] >= 2
  {
    assert m in c.children;
    WalkedChildIsWalked([tree], c, m);
    RecordedTwice(Walk(tree), c, m);
  }
}
