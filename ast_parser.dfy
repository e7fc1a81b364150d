/**
 * `ASTParser`: one object that walks syntax trees and appends what it finds to its
 * lists, keeping a running complexity total.  Nothing is ever reset, so a parser
 * used on several trees accumulates the records of all of them.
 */
module Analyzer {
  import opened Wrappers
  import opened PyAst
  import opened Cyclomatic
  import opened Calls
  import opened Records
  import opened LineCount
  import opened Summaries
  import opened SeqFacts

  /** What `parse_code` returns. */
  datatype AnalysisResult = AnalysisResult(
    functions: seq<FunctionInfo>,
    classes: seq<ClassInfo>,
    imports: seq<string>,
    totalLines: int,
    codeLines: int,
    commentLines: int,
    blankLines: int,
    complexityScore: int)

  class AstParser {
    var functions: seq<FunctionInfo>
    var classes: seq<ClassInfo>
    var imports: seq<string>
    var totalComplexity: int

    /** The running total is the sum of the recorded complexities. */
    ghost predicate Consistent()
      reads this
    {
      totalComplexity == SumComplexities(functions)
    }

    constructor ()
      ensures functions == [] && classes == [] && imports == [] && totalComplexity == 0
      ensures Consistent()
    {
      functions := [];
      classes := [];
      imports := [];
      totalComplexity := 0;
    }

    /** `_calculate_complexity`: count decision points over `ast.walk(node)`. */
    method CalculateComplexity(node: Node) returns (complexity: int)
      ensures complexity == 1 + Decisions(node)
    {
      complexity := 1;
      var nodes := Walk(node);
      for i := 0 to |nodes|
        invariant complexity == 1 + SumWeights(nodes[..i])
      {
        var child := nodes[i];
        if child.kind.If? || child.kind.While? || child.kind.For? || child.kind.ExceptHandler? {
          complexity := complexity + 1;
        } else if child.kind.BoolOp? {
          complexity := complexity + child.kind.values - 1;
        } else if child.kind.Break? || child.kind.Continue? {
          complexity := complexity + 1;
        }
        SumWeightsSnoc(nodes, i);
      }
      assert nodes[..|nodes|] == nodes;
      WalkComplexity(node);
    }

    /** `_find_function_calls`: the callee names of every call under `node`, each once. */
    method FindFunctionCalls(node: Node) returns (calls: seq<string>)
      ensures NoDuplicates(calls)
      ensures (set x | x in calls) == TreeCallNames(node)
    {
      var found: seq<string> := [];
      var nodes := Walk(node);
      for i := 0 to |nodes|
        invariant (set x | x in found) == VisitedCallNames(nodes[..i])
      {
        var child := nodes[i];
        if child.kind.Call? && child.children != [] {
          match child.children[0].kind
          case Name(id) => found := found + [id];
          case Attribute(attr) => found := found + [attr];
          case _ =>
        }
        assert nodes[..i + 1] == nodes[..i] + [child];
        assert [child][1..] == [];
        VisitedCallNamesAppend(nodes[..i], [child]);
      }
      assert nodes[..|nodes|] == nodes;
      WalkCallNames(node);
      calls := Distinct(found);
    }

    /** `list(set(found))`: every distinct name once, in an order the model leaves open. */
    static method Distinct(found: seq<string>) returns (calls: seq<string>)
      ensures NoDuplicates(calls)
      ensures (set x | x in calls) == (set x | x in found)
    {
      var pending := set x | x in found;
      calls := [];
      while pending != {}
        invariant NoDuplicates(calls)
        invariant forall x :: x in calls ==> x !in pending
        invariant (set x | x in calls) + pending == (set x | x in found)
        decreases |pending|
      {
        var x :| x in pending;
        calls := calls + [x];
        pending := pending - {x};
      }
    }

    /** `_analyze_function`: record one function and add its complexity to the total. */
    method AnalyzeFunction(node: Node) returns (info: FunctionInfo)
      requires node.kind.FunctionDef?
      modifies this
      ensures Describes(info, node)
      ensures functions == old(functions) + [info]
      ensures totalComplexity == old(totalComplexity) + info.complexity
      ensures classes == old(classes) && imports == old(imports)
      ensures old(Consistent()) ==> Consistent()
    {
      var args := node.kind.args;
      var returnAnnotation := node.kind.returnAnnotation;
      var docstring := node.kind.docstring;
      var hasDocstring := docstring.Some?;
      var complexity := CalculateComplexity(node);
      totalComplexity := totalComplexity + complexity;
      var linesOfCode := LinesOfCode(node.kind);
      var calls := FindFunctionCalls(node);
      info := FunctionInfo(node.kind.name, node.kind.lineno, args, returnAnnotation, complexity,
                           linesOfCode, hasDocstring, docstring, calls);
      SumComplexitiesAppend(functions, [info]);
      assert [info][1..] == [];
      functions := functions + [info];
    }

    /** The first loop of `_analyze_class`: the ids of the bases that are plain names. */
    method BaseNames(node: Node) returns (bases: seq<string>)
      ensures bases == NameIds(ClassBases(node))
    {
      bases := [];
      var baseNodes := ClassBases(node);
      for i := 0 to |baseNodes|
        invariant bases == NameIds(baseNodes[..i])
      {
        assert baseNodes[..i + 1] == baseNodes[..i] + [baseNodes[i]];
        if baseNodes[i].kind.Name? {
          bases := bases + [baseNodes[i].kind.id];
        }
      }
      assert baseNodes[..|baseNodes|] == baseNodes;
    }

    /** The second loop of `_analyze_class`: analyse each function definition of the body. */
    method AnalyzeMethods(body: seq<Node>) returns (methods: seq<FunctionInfo>)
      modifies this
      ensures functions == old(functions) + methods
      ensures DescribesAll(methods, FunctionDefs(body))
      ensures totalComplexity == old(totalComplexity) + SumNodeComplexities(FunctionDefs(body))
      ensures classes == old(classes) && imports == old(imports)
      ensures old(Consistent()) ==> Consistent()
    {
      methods := [];
      for i := 0 to |body|
        invariant functions == old(functions) + methods
        invariant DescribesAll(methods, FunctionDefs(body[..i]))
        invariant totalComplexity == old(totalComplexity) + SumNodeComplexities(FunctionDefs(body[..i]))
        invariant classes == old(classes) && imports == old(imports)
        invariant old(Consistent()) ==> Consistent()
      {
        var item := body[i];
        PrefixSnoc(body, i);
        if item.kind.FunctionDef? {
          var info := AnalyzeFunction(item);
          DescribesAllAppend(methods, [info], FunctionDefs(body[..i]), [item]);
          SumNodeComplexitiesAppend(FunctionDefs(body[..i]), [item]);
          AppendAssoc(old(functions), methods, [info]);
          methods := methods + [info];
        }
      }
      assert body[..|body|] == body;
    }

    /** `_analyze_class`: record the class, analysing each method of its body on the way. */
    method AnalyzeClass(node: Node)
      requires node.kind.ClassDef?
      modifies this
      ensures |classes| == |old(classes)| + 1 && classes[..|old(classes)|] == old(classes)
      ensures DescribesClass(classes[|old(classes)|], node)
      ensures functions == old(functions) + classes[|old(classes)|].methods
      ensures imports == old(imports)
      ensures totalComplexity == old(totalComplexity) + SumNodeComplexities(ClassMethods(node))
      ensures old(Consistent()) ==> Consistent()
    {
      var bases := BaseNames(node);
      var docstring := node.kind.docstring;
      var hasDocstring := docstring.Some?;
      var methods := AnalyzeMethods(ClassBody(node));
      var info := ClassInfo(node.kind.name, node.kind.lineno, methods, bases, hasDocstring, docstring);
      SnocParts(classes, info);
      classes := classes + [info];
    }

    /** `_analyze_import`: one entry per alias of an `import` or `from ... import`. */
    method AnalyzeImport(node: Node)
      modifies this
      ensures imports == old(imports) + ImportEntries(node)
      ensures functions == old(functions) && classes == old(classes)
      ensures totalComplexity == old(totalComplexity)
    {
      match node.kind {
        case Import(names) =>
          for i := 0 to |names|
            invariant imports == old(imports) + names[..i]
            invariant functions == old(functions) && classes == old(classes)
            invariant totalComplexity == old(totalComplexity)
          {
            assert names[..i + 1] == names[..i] + [names[i]];
            imports := imports + [names[i]];
          }
          assert names[..|names|] == names;
        case ImportFrom(m, names) =>
          var moduleName := m.GetOr("");
          var entries := ImportEntries(node);
          for i := 0 to |names|
            invariant imports == old(imports) + entries[..i]
            invariant functions == old(functions) && classes == old(classes)
            invariant totalComplexity == old(totalComplexity)
          {
            assert entries[..i + 1] == entries[..i] + [moduleName + "." + names[i]];
            imports := imports + [moduleName + "." + names[i]];
          }
          assert entries[..|names|] == entries;
        case _ =>
      }
    }

    /** The body of `_analyze_tree`'s loop: dispatch one visited node on its kind.
        `added` and `addedClasses` are the records this visit appends. */
    method Visit(node: Node) returns (ghost added: seq<FunctionInfo>, ghost addedClasses: seq<ClassInfo>)
      modifies this
      ensures functions == old(functions) + added && DescribesAll(added, VisitFunctions(node))
      ensures classes == old(classes) + addedClasses
      ensures DescribesAllClasses(addedClasses, if node.kind.ClassDef? then [node] else [])
      ensures imports == old(imports) + ImportEntries(node)
      ensures totalComplexity == old(totalComplexity) + SumNodeComplexities(VisitFunctions(node))
      ensures old(Consistent()) ==> Consistent()
    {
      if node.kind.FunctionDef? {
        var info := AnalyzeFunction(node);
        assert [node][1..] == [];
        added, addedClasses := [info], [];
      } else if node.kind.ClassDef? {
        AnalyzeClass(node);
        var info := classes[|classes| - 1];
        added, addedClasses := info.methods, [info];
      } else if node.kind.Import? || node.kind.ImportFrom? {
        AnalyzeImport(node);
        added, addedClasses := [], [];
      } else {
        added, addedClasses := [], [];
      }
    }

    /** `_analyze_tree`: visit every node of `ast.walk(tree)` and dispatch on its kind. */
    method AnalyzeTree(tree: Node)
      modifies this
      ensures |functions| >= |old(functions)| && functions[..|old(functions)|] == old(functions)
      ensures DescribesAll(functions[|old(functions)|..], WalkFunctions(Walk(tree)))
      ensures |classes| >= |old(classes)| && classes[..|old(classes)|] == old(classes)
      ensures DescribesAllClasses(classes[|old(classes)|..], WalkClasses(Walk(tree)))
      ensures imports == old(imports) + WalkImports(Walk(tree))
      ensures totalComplexity == old(totalComplexity) + SumNodeComplexities(WalkFunctions(Walk(tree)))
      ensures old(Consistent()) ==> Consistent()
    {
      var nodes := Walk(tree);
      ghost var newFunctions: seq<FunctionInfo> := [];
      ghost var newClasses: seq<ClassInfo> := [];
      for i := 0 to |nodes|
        invariant functions == old(functions) + newFunctions
        invariant DescribesAll(newFunctions, WalkFunctions(nodes[..i]))
        invariant classes == old(classes) + newClasses
        invariant DescribesAllClasses(newClasses, WalkClasses(nodes[..i]))
        invariant imports == old(imports) + WalkImports(nodes[..i])
        invariant totalComplexity == old(totalComplexity) + SumNodeComplexities(WalkFunctions(nodes[..i]))
        invariant old(Consistent()) ==> Consistent()
      {
        var node := nodes[i];
        VisitStep(nodes, i);
        ghost var added, addedClasses := Visit(node);
        DescribesAllAppend(newFunctions, added, WalkFunctions(nodes[..i]), VisitFunctions(node));
        DescribesAllClassesAppend(newClasses, addedClasses, WalkClasses(nodes[..i]),
                                  if node.kind.ClassDef? then [node] else []);
        SumNodeComplexitiesAppend(WalkFunctions(nodes[..i]), VisitFunctions(node));
        AppendAssoc(old(functions), newFunctions, added);
        AppendAssoc(old(classes), newClasses, addedClasses);
        AppendAssoc(old(imports), WalkImports(nodes[..i]), ImportEntries(node));
        newFunctions := newFunctions + added;
        newClasses := newClasses + addedClasses;
      }
      assert nodes[..|nodes|] == nodes;
      AppendDrop(old(functions), newFunctions);
      AppendDrop(old(classes), newClasses);
    }

    /** What one more visit adds to the walk's expected records. */
    static lemma VisitStep(nodes: seq<Node>, i: int)
      requires 0 <= i < |nodes|
      ensures WalkFunctions(nodes[..i + 1]) == WalkFunctions(nodes[..i]) + VisitFunctions(nodes[i])
      ensures WalkClasses(nodes[..i + 1])
              == WalkClasses(nodes[..i]) + (if nodes[i].kind.ClassDef? then [nodes[i]] else [])
      ensures WalkImports(nodes[..i + 1]) == WalkImports(nodes[..i]) + ImportEntries(nodes[i])
    {
      assert nodes[..i + 1] == nodes[..i] + [nodes[i]];
      WalkFunctionsSnoc(nodes[..i], nodes[i]);
      WalkClassesSnoc(nodes[..i], nodes[i]);
      WalkImportsSnoc(nodes[..i], nodes[i]);
    }

    /** `parse_code` on a tree `ast.parse` built from `source`: analyse the tree, then
        count the lines of the text. */
    method ParseCode(tree: Node, source: string) returns (r: AnalysisResult)
      modifies this
      ensures |functions| >= |old(functions)| && functions[..|old(functions)|] == old(functions)
      ensures DescribesAll(functions[|old(functions)|..], WalkFunctions(Walk(tree)))
      ensures |classes| >= |old(classes)| && classes[..|old(classes)|] == old(classes)
      ensures DescribesAllClasses(classes[|old(classes)|..], WalkClasses(Walk(tree)))
      ensures imports == old(imports) + WalkImports(Walk(tree))
      ensures totalComplexity == old(totalComplexity) + SumNodeComplexities(WalkFunctions(Walk(tree)))
      ensures old(Consistent()) ==> Consistent()
      ensures r.functions == functions && r.classes == classes && r.imports == imports
      ensures r.complexityScore == totalComplexity
      ensures var stats := CountLines(source);
              r.totalLines == stats.total && r.codeLines == stats.code
              && r.commentLines == stats.comment && r.blankLines == stats.blank
    {
      AnalyzeTree(tree);
      var stats := CountLines(source);
      r := AnalysisResult(functions, classes, imports, stats.total, stats.code, stats.comment,
                          stats.blank, totalComplexity);
    }

    /** `get_summary`: counts, the largest complexity (0 with no functions) and the
        records lacking a docstring. */
    function GetSummary(): (r: Summary)
      reads this
      ensures r.totalFunctions == |functions| && r.totalClasses == |classes| && r.totalImports == |imports|
      ensures functions == [] ==> r.maxComplexity == 0
      ensures forall i :: 0 <= i < |functions| ==> functions[i].complexity <= r.maxComplexity
      ensures functions != [] ==> exists i :: 0 <= i < |functions| && functions[i].complexity == r.maxComplexity
      ensures r.functionsWithoutDocstrings <= r.totalFunctions
      ensures r.classesWithoutDocstrings <= r.totalClasses
    {
      Summary(|functions|, |classes|, |imports|, MaxComplexity(functions),
              FunctionsWithoutDocstrings(functions), ClassesWithoutDocstrings(classes))
    }
  }
}
