/**
 * The part of Python's syntax tree that the analyser looks at, supplied as data
 * (the tree that `ast.parse` would build), and `ast.walk` over it.
 *
 * A node is a kind plus its children, the children listed in the order
 * `ast.iter_child_nodes` yields them.  Facts that Python computes with library
 * calls (`ast.get_docstring`, `ast.unparse` of a return annotation) are
 * pre-computed fields of the kind.
 */
module PyAst {
  import opened Wrappers

  datatype Kind =
    | FunctionDef(name: string, lineno: int, endLineno: Option<int>, args: seq<string>,
                  returnAnnotation: Option<string>, docstring: Option<string>)
      /** `baseCount`: the first `baseCount` children are the base-class expressions
          (`node.bases`); the remaining children are keywords, the body and decorators. */
    | ClassDef(name: string, lineno: int, baseCount: nat, docstring: Option<string>)
      /** `import a, b.c`: one alias name per imported module. */
    | Import(names: seq<string>)
      /** `from module import a, b`: `moduleName` is `None` for `from . import a`. */
    | ImportFrom(moduleName: Option<string>, names: seq<string>)
    | If
    | While
    | For
    | ExceptHandler
      /** `a and b and c`: `values` is the number of operands (3 here). */
    | BoolOp(values: nat)
    | Break
    | Continue
      /** A call; its first child is the callee expression (`Call.func`). */
    | Call
      /** A plain name expression, `Name.id`. */
    | Name(id: string)
      /** An attribute expression `value.attr`, `Attribute.attr`. */
    | Attribute(attr: string)
      /** Every other node: modules, expressions, statements the analyser ignores. */
    | Other

  datatype Node = Node(kind: Kind, children: seq<Node>)

  /** Number of nodes in a tree. */
  function Size(n: Node): nat
    decreases n
  {
    1 + ForestSize(n.children)
  }

  /** Number of nodes in a sequence of trees. */
  function ForestSize(q: seq<Node>): nat
    decreases q
  {
    if q == [] then 0 else Size(q[0]) + ForestSize(q[1..])
  }

  /** Taking the front node off a queue and queueing its children removes exactly one node. */
  lemma ForestSizeStep(q: seq<Node>)
    requires q != []
    ensures ForestSize(q[1..] + q[0].children) == ForestSize(q) - 1
  {
    ForestSizeAppend(q[1..], q[0].children);
  }

  lemma {:induction false} ForestSizeAppend(a: seq<Node>, b: seq<Node>)
    ensures ForestSize(a + b) == ForestSize(a) + ForestSize(b)
  {
    if a == [] {
      assert a + b == b;
    } else {
      assert (a + b)[0] == a[0];
      assert (a + b)[1..] == a[1..] + b;
      ForestSizeAppend(a[1..], b);
    }
  }

  /**
   * Breadth-first traversal from a queue of pending nodes, as `ast.walk` does it:
   * take the front node, append its children to the back, yield the node.
   */
  function WalkFrom(queue: seq<Node>): (r: seq<Node>)
    ensures |r| == ForestSize(queue)
    decreases ForestSize(queue)
  {
    if queue == [] then []
    else
      ForestSizeStep(queue);
      [queue[0]] + WalkFrom(queue[1..] + queue[0].children)
  }

  /** `ast.walk(n)`: `n` itself first, then every descendant, breadth first. */
  function Walk(n: Node): seq<Node>
  {
    WalkFrom([n])
  }

  /** Every queued node is visited. */
  lemma {:induction false} QueuedIsWalked(queue: seq<Node>, x: Node)
    requires x in queue
    ensures x in WalkFrom(queue)
    decreases ForestSize(queue)
  {
    ForestSizeStep(queue);
    if x != queue[0] {
      QueuedIsWalked(queue[1..] + queue[0].children, x);
    }
  }

  /** The walk is closed under taking children: a child of a visited node is visited. */
  lemma {:induction false} WalkedChildIsWalked(queue: seq<Node>, x: Node, y: Node)
    requires x in WalkFrom(queue) && y in x.children
    ensures y in WalkFrom(queue)
    decreases ForestSize(queue)
  {
    ForestSizeStep(queue);
    var rest := queue[1..] + queue[0].children;
    if x == queue[0] {
      QueuedIsWalked(rest, y);
    } else {
      WalkedChildIsWalked(rest, x, y);
    }
  }
}
