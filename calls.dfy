/**
 * The call names `ASTParser._find_function_calls` gathers: for every `Call` node
 * under a function, the callee's `Name.id` or `Attribute.attr`.
 */
module Calls {
  import opened Wrappers
  import opened PyAst

  /** The name a visited node contributes: only a call whose callee is a name or an attribute. */
  function CalleeName(n: Node): Option<string>
  {
    if n.kind.Call? && n.children != [] then
      match n.children[0].kind
      case Name(id) => Some(id)
      case Attribute(attr) => Some(attr)
      case _ => None
    else None
  }

  function NameSet(o: Option<string>): set<string>
  {
    match o
    case Some(x) => {x}
    case None => {}
  }

  /** Names called anywhere in a subtree, by structural recursion (independent of `ast.walk`). */
  function TreeCallNames(n: Node): set<string>
    decreases n
  {
    NameSet(CalleeName(n)) + ForestCallNames(n.children)
  }

  function ForestCallNames(q: seq<Node>): set<string>
    decreases q
  {
    if q == [] then {} else TreeCallNames(q[0]) + ForestCallNames(q[1..])
  }

  /** Names contributed by a sequence of visited nodes. */
  function VisitedCallNames(ws: seq<Node>): set<string>
  {
    if ws == [] then {} else NameSet(CalleeName(ws[0])) + VisitedCallNames(ws[1..])
  }

  lemma {:induction false} VisitedCallNamesAppend(a: seq<Node>, b: seq<Node>)
    ensures VisitedCallNames(a + b) == VisitedCallNames(a) + VisitedCallNames(b)
  {
    if a == [] {
      assert a + b == b;
    } else {
      assert (a + b)[1..] == a[1..] + b;
      VisitedCallNamesAppend(a[1..], b);
    }
  }

  lemma {:induction false} ForestCallNamesAppend(a: seq<Node>, b: seq<Node>)
    ensures ForestCallNames(a + b) == ForestCallNames(a) + ForestCallNames(b)
  {
    if a == [] {
      assert a + b == b;
    } else {
      assert (a + b)[1..] == a[1..] + b;
      ForestCallNamesAppend(a[1..], b);
    }
  }

  /** Gathering over the breadth-first walk finds exactly the calls of the queued trees. */
  lemma {:induction false} WalkFromCallNames(queue: seq<Node>)
    ensures VisitedCallNames(WalkFrom(queue)) == ForestCallNames(queue)
    decreases ForestSize(queue)
  {
    if queue != [] {
      var rest := queue[1..] + queue[0].children;
      ForestSizeStep(queue);
      WalkFromCallNames(rest);
      ForestCallNamesAppend(queue[1..], queue[0].children);
      assert ([queue[0]] + WalkFrom(rest))[1..] == WalkFrom(rest);
    }
  }

  /** Gathering over `ast.walk(n)` agrees with the structural definition. */
  lemma WalkCallNames(n: Node)
    ensures VisitedCallNames(Walk(n)) == TreeCallNames(n)
  {
    WalkFromCallNames([n]);
    assert [n][1..] == [];
  }
}
