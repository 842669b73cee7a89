/** Finite directed graphs, shared by dependency ordering and rule checking. */
module Graphs {
  import opened Ordering

  /** Each node's successors. */
  type Graph = map<nat, set<nat>>

  ghost predicate Closed(g: Graph) {
    forall n :: n in g ==> g[n] <= g.Keys
  }

  ghost predicate IsWalk(g: Graph, p: seq<nat>) {
    && p != []
    && (forall i :: 0 <= i < |p| ==> p[i] in g)
    && (forall i :: 0 <= i < |p| - 1 ==> p[i + 1] in g[p[i]])
  }

  ghost predicate IsCycle(g: Graph, p: seq<nat>) {
    |p| >= 2 && IsWalk(g, p) && p[0] == p[|p| - 1]
  }

  ghost predicate Cyclic(g: Graph) {
    exists p :: IsCycle(g, p)
  }

  /** The rank falls along every edge. */
  ghost predicate Ranked(g: Graph, rank: map<nat, nat>) {
    && (forall n :: n in g ==> n in rank)
    && (forall a, b :: a in g && b in g[a] && b in g ==> rank[b] < rank[a])
  }

  lemma {:induction false} RankFallsAlongWalks(g: Graph, rank: map<nat, nat>, p: seq<nat>)
    requires Ranked(g, rank) && IsWalk(g, p)
    ensures rank[p[|p| - 1]] + |p| - 1 <= rank[p[0]]
    decreases |p|
  {
    if |p| > 1 {
      var q := p[..|p| - 1];
      assert IsWalk(g, q);
      RankFallsAlongWalks(g, rank, q);
      assert p[|p| - 1] in g[p[|p| - 2]];
    }
  }

  lemma RankedIsAcyclic(g: Graph, rank: map<nat, nat>)
    requires Ranked(g, rank)
    ensures !Cyclic(g)
  {
    if p :| IsCycle(g, p) {
      RankFallsAlongWalks(g, rank, p);
    }
  }

  /** A sequence longer than the set it draws from repeats an element. */
  lemma {:induction false} Pigeonhole(p: seq<nat>, s: set<nat>)
    requires forall i :: 0 <= i < |p| ==> p[i] in s
    requires |p| > |s|
    ensures exists i, j :: 0 <= i < j < |p| && p[i] == p[j]
    decreases |p|
  {
    var last := p[|p| - 1];
    if i :| 0 <= i < |p| - 1 && p[i] == last {
      assert p[i] == p[|p| - 1];
    } else {
      var rest, fewer := p[..|p| - 1], s - {last};
      assert |fewer| == |s| - 1;
      Pigeonhole(rest, fewer);
      var i, j :| 0 <= i < j < |rest| && rest[i] == rest[j];
      assert p[i] == p[j];
    }
  }

  /** A walk longer than the graph runs through a cycle. */
  lemma LongWalkIsCyclic(g: Graph, p: seq<nat>)
    requires IsWalk(g, p) && |p| > |g|
    ensures Cyclic(g)
  {
    Pigeonhole(p, g.Keys);
    var i, j :| 0 <= i < j < |p| && p[i] == p[j];
    assert IsCycle(g, p[i..j + 1]);
  }

  /** A set in which every node has a successor in the set holds walks of any length. */
  lemma {:induction false} WalkWithin(g: Graph, s: set<nat>, start: nat, length: nat) returns (p: seq<nat>)
    requires s <= g.Keys && forall n :: n in s ==> g[n] * s != {}
    requires start in s && length > 0
    ensures IsWalk(g, p) && |p| == length && p[|p| - 1] in s
    decreases length
  {
    if length == 1 {
      p := [start];
    } else {
      var q := WalkWithin(g, s, start, length - 1);
      var next :| next in g[q[|q| - 1]] * s;
      p := q + [next];
    }
  }

  /** If every node of a non-empty set has a successor in the set, there is a cycle. */
  lemma StuckIsCyclic(g: Graph, s: set<nat>)
    requires s != {} && s <= g.Keys && forall n :: n in s ==> g[n] * s != {}
    ensures Cyclic(g)
  {
    var start :| start in s;
    var p := WalkWithin(g, s, start, |g| + 1);
    LongWalkIsCyclic(g, p);
  }

  // --------------------------------------------------- topological orders

  /** Every node once, each after all its successors. */
  ghost predicate Topological(g: Graph, order: seq<nat>) {
    && Distinct(order)
    && (forall n :: n in order <==> n in g)
    && (forall i :: 0 <= i < |order| ==> forall b :: b in g[order[i]] && b in g ==> b in order[..i])
  }

  lemma TopologicalIsAcyclic(g: Graph, order: seq<nat>)
    requires Topological(g, order)
    ensures !Cyclic(g)
  {
    var rank := map n | n in g && (exists i: nat :: i < |order| && order[i] == n) :: PositionOf(order, n);
    forall n | n in g
      ensures n in rank && rank[n] == PositionOf(order, n)
    {
      assert n in order;
    }
    RankedIsAcyclic(g, rank);
  }

  ghost function PositionOf(order: seq<nat>, n: nat): (i: nat)
    requires exists i: nat :: i < |order| && order[i] == n
    ensures i < |order| && order[i] == n
  {
    var i: nat :| i < |order| && order[i] == n;
    i
  }

  /** The first sequence is a prefix of the second or smaller where they first differ. */
  ghost predicate LexicographicallyAtMost(a: seq<nat>, b: seq<nat>) {
    a <= b || exists k: nat :: SmallerAt(a, b, k)
  }

  ghost predicate SmallerAt(a: seq<nat>, b: seq<nat>, k: nat) {
    k < |a| && k < |b| && a[..k] == b[..k] && a[k] < b[k]
  }

  /** The nodes that may come next after a prefix. */
  ghost function Available(g: Graph, prefix: seq<nat>): set<nat> {
    set n | n in g && n !in prefix && (forall b :: b in g[n] && b in g ==> b in prefix)
  }

  /** At every position the order takes the least available node. */
  ghost predicate Greedy(g: Graph, order: seq<nat>) {
    forall i :: 0 <= i < |order| ==>
      order[i] in Available(g, order[..i]) && forall n :: n in Available(g, order[..i]) ==> order[i] <= n
  }

  lemma NextIsAvailable(g: Graph, order: seq<nat>, k: nat)
    requires Topological(g, order) && k < |order|
    ensures order[k] in Available(g, order[..k])
  {
    assert order[k] in order;
  }

  lemma SameLength(g: Graph, a: seq<nat>, b: seq<nat>, k: nat)
    requires Topological(g, a) && Topological(g, b)
    requires k < |a| && k <= |b| && a[..k] == b[..k]
    ensures k < |b|
  {
    assert a[k] in a;
    assert a[k] in b;
    assert a[k] !in a[..k];
  }

  /** A greedy topological order is lexicographically least. */
  lemma GreedyIsLeast(g: Graph, order: seq<nat>, other: seq<nat>)
    requires Topological(g, order) && Greedy(g, order) && Topological(g, other)
    ensures LexicographicallyAtMost(order, other)
  {
    var k := FirstDifference(order, other);
    if k < |order| {
      SameLength(g, order, other, k);
      NextIsAvailable(g, other, k);
      hide Available, Topological;
      assert SmallerAt(order, other, k);
    } else {
      assert order == order[..k];
      assert other[..k] <= other;
    }
  }

  lemma FirstDifference(a: seq<nat>, b: seq<nat>) returns (k: nat)
    ensures k <= |a| && k <= |b| && a[..k] == b[..k]
    ensures k < |a| && k < |b| ==> a[k] != b[k]
  {
    k := 0;
    while k < |a| && k < |b| && a[k] == b[k]
      invariant k <= |a| && k <= |b| && a[..k] == b[..k]
    {
      k := k + 1;
    }
  }
}
