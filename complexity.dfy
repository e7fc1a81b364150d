/**
 * Cyclomatic complexity as `ASTParser._calculate_complexity` counts it: a base of 1
 * plus one per decision point among the nodes `ast.walk` visits.
 */
module Cyclomatic {
  import opened PyAst

  /** What one visited node adds to the count. */
  function Weight(n: Node): int
  {
    match n.kind
    case If => 1
    case While => 1
    case For => 1
    case ExceptHandler => 1
    case BoolOp(values) => values - 1
    case Break => 1
    case Continue => 1
    case _ => 0
  }

  /** Decision points of a whole subtree, by structural recursion (independent of `ast.walk`). */
  function Decisions(n: Node): int
    decreases n
  {
    Weight(n) + ForestDecisions(n.children)
  }

  function ForestDecisions(q: seq<Node>): int
    decreases q
  {
    if q == [] then 0 else Decisions(q[0]) + ForestDecisions(q[1..])
  }

  /** The complexity of a node: 1 plus every decision point in and under it. */
  function Complexity(n: Node): int
  {
    1 + Decisions(n)
  }

  /** Trees `ast.parse` can produce, as far as complexity is concerned: every `and`/`or`
      has at least two operands. */
  predicate WellFormed(n: Node)
    decreases n
  {
    (n.kind.BoolOp? ==> n.kind.values >= 2)
    && ForestWellFormed(n.children)
  }

  predicate ForestWellFormed(q: seq<Node>)
    decreases q
  {
    q == [] || (WellFormed(q[0]) && ForestWellFormed(q[1..]))
  }

  /** Sum of the weights of a sequence of visited nodes. */
  function SumWeights(ws: seq<Node>): int
  {
    if ws == [] then 0 else Weight(ws[0]) + SumWeights(ws[1..])
  }

  lemma {:induction false} SumWeightsAppend(a: seq<Node>, b: seq<Node>)
    ensures SumWeights(a + b) == SumWeights(a) + SumWeights(b)
  {
    if a == [] {
      assert a + b == b;
    } else {
      assert (a + b)[1..] == a[1..] + b;
      SumWeightsAppend(a[1..], b);
    }
  }

  /** Extending a prefix of a walk by one node adds that node's weight. */
  lemma SumWeightsSnoc(ws: seq<Node>, i: nat)
    requires i < |ws|
    ensures SumWeights(ws[..i + 1]) == SumWeights(ws[..i]) + Weight(ws[i])
  {
    assert ws[..i + 1] == ws[..i] + [ws[i]];
    assert [ws[i]][1..] == [];
    SumWeightsAppend(ws[..i], [ws[i]]);
  }

  lemma {:induction false} ForestDecisionsAppend(a: seq<Node>, b: seq<Node>)
    ensures ForestDecisions(a + b) == ForestDecisions(a) + ForestDecisions(b)
  {
    if a == [] {
      assert a + b == b;
    } else {
      assert (a + b)[1..] == a[1..] + b;
      ForestDecisionsAppend(a[1..], b);
    }
  }

  /** Summing weights over the breadth-first walk counts every node of the queued trees once. */
  lemma {:induction false} WalkFromDecisions(queue: seq<Node>)
    ensures SumWeights(WalkFrom(queue)) == ForestDecisions(queue)
    decreases ForestSize(queue)
  {
    if queue != [] {
      var rest := queue[1..] + queue[0].children;
      ForestSizeStep(queue);
      WalkFromDecisions(rest);
      ForestDecisionsAppend(queue[1..], queue[0].children);
      assert ([queue[0]] + WalkFrom(rest))[1..] == WalkFrom(rest);
    }
  }

  /** Counting over `ast.walk(n)` agrees with the structural definition. */
  lemma WalkComplexity(n: Node)
    ensures 1 + SumWeights(Walk(n)) == Complexity(n)
  {
    WalkFromDecisions([n]);
    assert [n][1..] == [];
  }

  lemma {:induction false} DecisionsNonNegative(n: Node)
    requires WellFormed(n)
    ensures Decisions(n) >= 0
    decreases n
  {
    ForestDecisionsNonNegative(n.children);
  }

  lemma {:induction false} ForestDecisionsNonNegative(q: seq<Node>)
    requires ForestWellFormed(q)
    ensures ForestDecisions(q) >= 0
    decreases q
  {
    if q != [] {
      DecisionsNonNegative(q[0]);
      ForestDecisionsNonNegative(q[1..]);
    }
  }

  /** Every parsed function has complexity at least 1. */
  lemma ComplexityAtLeastOne(n: Node)
    requires WellFormed(n)
    ensures Complexity(n) >= 1
  {
    DecisionsNonNegative(n);
  }
}
