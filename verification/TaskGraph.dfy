/**
  The frozen task table as a directed multigraph: g[p] lists the consumers of
  task p in slot order, so an edge is a pair (producer, slot) and duplicate
  edges are distinct.
 */
module TaskGraph {

  type Graph = seq<seq<nat>>
  type Edge = (nat, nat)

  predicate WellFormed(g: Graph) {
    forall p, k :: 0 <= p < |g| && 0 <= k < |g[p]| ==> g[p][k] < |g|
  }

  predicate IsEdge(g: Graph, e: Edge) { e.0 < |g| && e.1 < |g[e.0]| }

  function Target(g: Graph, e: Edge): nat
    requires IsEdge(g, e)
  {
    g[e.0][e.1]
  }

  ghost function AllEdges(g: Graph): set<Edge> {
    set p, k | 0 <= p < |g| && 0 <= k < |g[p]| :: (p, k)
  }

  ghost function InEdges(g: Graph, c: nat): set<Edge> {
    set p, k | 0 <= p < |g| && 0 <= k < |g[p]| && g[p][k] == c :: (p, k)
  }

  // ----------------------------------------------------------------- paths

  predicate Arc(g: Graph, p: nat, c: nat) { p < |g| && c in g[p] }

  /** A walk of at least one edge from a to b. */
  ghost predicate Walk(g: Graph, a: nat, b: nat, len: nat)
    decreases len
  {
    0 < len && exists m :: Arc(g, a, m) && (if len == 1 then m == b else Walk(g, m, b, len - 1))
  }

  ghost predicate Before(g: Graph, a: nat, b: nat) { exists len :: Walk(g, a, b, len) }

  ghost predicate Acyclic(g: Graph) { forall a :: !Before(g, a, a) }

  lemma {:induction false} WalkJoin(g: Graph, a: nat, b: nat, c: nat, i: nat, j: nat)
    requires Walk(g, a, b, i) && Walk(g, b, c, j)
    ensures Walk(g, a, c, i + j)
    decreases i
  {
    var m :| Arc(g, a, m) && (if i == 1 then m == b else Walk(g, m, b, i - 1));
    if i > 1 {
      WalkJoin(g, m, b, c, i - 1, j);
    }
    assert Arc(g, a, m) && Walk(g, m, c, i + j - 1);
  }

  lemma BeforeTransitive(g: Graph, a: nat, b: nat, c: nat)
    requires Before(g, a, b) && Before(g, b, c)
    ensures Before(g, a, c)
  {
    var i :| Walk(g, a, b, i);
    var j :| Walk(g, b, c, j);
    WalkJoin(g, a, b, c, i, j);
  }

  lemma ArcBefore(g: Graph, a: nat, b: nat)
    requires Arc(g, a, b)
    ensures Before(g, a, b)
  {
    assert Walk(g, a, b, 1);
  }

  /** The last step of a walk. */
  lemma {:induction false} WalkLast(g: Graph, a: nat, b: nat, len: nat)
    requires Walk(g, a, b, len)
    ensures exists m :: Arc(g, m, b) && (if len == 1 then m == a else Walk(g, a, m, len - 1))
    decreases len
  {
    var m :| Arc(g, a, m) && (if len == 1 then m == b else Walk(g, m, b, len - 1));
    if len == 1 {
      assert Arc(g, a, b);
    } else {
      WalkLast(g, m, b, len - 1);
      var z :| Arc(g, z, b) && (if len - 1 == 1 then z == m else Walk(g, m, z, len - 2));
      if len - 1 == 1 { assert Walk(g, a, z, 1); } else { assert Walk(g, a, z, len - 1); }
    }
  }

  // ------------------------------------------------- acyclic means rankable

  /** rank grows along every edge. */
  ghost predicate Ranks(g: Graph, rank: seq<nat>) {
    |rank| == |g| && forall p: nat, c: nat :: Arc(g, p, c) && c < |g| ==> rank[p] < rank[c]
  }

  lemma {:induction false} RankWalk(g: Graph, rank: seq<nat>, a: nat, b: nat, len: nat)
    requires WellFormed(g) && Ranks(g, rank) && Walk(g, a, b, len)
    ensures a < |g| && b < |g| && rank[a] < rank[b]
    decreases len
  {
    var m :| Arc(g, a, m) && (if len == 1 then m == b else Walk(g, m, b, len - 1));
    if len > 1 { RankWalk(g, rank, m, b, len - 1); }
  }

  lemma RankedIsAcyclic(g: Graph, rank: seq<nat>)
    requires WellFormed(g) && Ranks(g, rank)
    ensures Acyclic(g)
  {
    forall a: nat ensures !Before(g, a, a) {
      if Before(g, a, a) {
        var len :| Walk(g, a, a, len);
        RankWalk(g, rank, a, a, len);
      }
    }
  }

  // ---------------------------------------------------------- linear orders

  ghost predicate Distinct(order: seq<nat>) {
    forall i, j :: 0 <= i < j < |order| ==> order[i] != order[j]
  }

  ghost function Elems(order: seq<nat>): set<nat> { set x | x in order }

  ghost function Upto(n: nat): (r: set<nat>)
    ensures |r| == n && forall x: nat :: x in r <==> x < n
  {
    if n == 0 then {} else Upto(n - 1) + {n - 1}
  }

  lemma {:induction false} DistinctSize(order: seq<nat>)
    requires Distinct(order)
    ensures |Elems(order)| == |order|
    decreases |order|
  {
    if order != [] {
      var r := order[..|order| - 1];
      DistinctSize(r);
      assert order == r + [order[|order| - 1]];
      assert Elems(order) == Elems(r) + {order[|order| - 1]};
    }
  }

  lemma TopologicalSize(g: Graph, order: seq<nat>)
    requires Topological(g, order)
    ensures |order| == |g|
  {
    DistinctSize(order);
    assert Elems(order) == Upto(|g|);
  }

  ghost predicate ProducersIn(g: Graph, c: nat, done: seq<nat>) { forall p :: Arc(g, p, c) ==> p in done }

  /** Every task's producers stand before it. */
  ghost predicate Linear(g: Graph, order: seq<nat>) {
    Distinct(order) && forall i :: 0 <= i < |order| ==> ProducersIn(g, order[i], order[..i])
  }

  /** A topological order of the whole graph. */
  ghost predicate Topological(g: Graph, order: seq<nat>) {
    Linear(g, order) && forall t: nat :: t in order <==> t < |g|
  }

  lemma {:induction false} LinearWalk(g: Graph, order: seq<nat>, a: nat, i: nat, len: nat)
    requires Linear(g, order) && i < |order| && Walk(g, a, order[i], len)
    ensures a in order[..i]
    decreases len
  {
    WalkLast(g, a, order[i], len);
    var m :| Arc(g, m, order[i]) && (if len == 1 then m == a else Walk(g, a, m, len - 1));
    assert ProducersIn(g, order[i], order[..i]);
    if len > 1 {
      var j :| 0 <= j < i && order[j] == m;
      LinearWalk(g, order, a, j, len - 1);
    }
  }

  /** No later task precedes an earlier one. */
  ghost predicate Respects(g: Graph, order: seq<nat>) {
    Distinct(order) && forall i, j :: 0 <= i < j < |order| ==> !Before(g, order[j], order[i])
  }

  lemma LinearRespects(g: Graph, order: seq<nat>)
    requires Linear(g, order)
    ensures Respects(g, order)
  {
    forall i, j | 0 <= i < j < |order| ensures !Before(g, order[j], order[i]) {
      if Before(g, order[j], order[i]) {
        var len :| Walk(g, order[j], order[i], len);
        LinearWalk(g, order, order[j], i, len);
      }
    }
  }

  /** A topological order exists only for acyclic graphs. */
  lemma TopologicalIsAcyclic(g: Graph, order: seq<nat>)
    requires WellFormed(g) && Topological(g, order)
    ensures Acyclic(g)
  {
    forall a: nat ensures !Before(g, a, a) {
      if Before(g, a, a) {
        var len :| Walk(g, a, a, len);
        WalkLast(g, a, a, len);
        assert a in order;
        var i :| 0 <= i < |order| && order[i] == a;
        LinearWalk(g, order, a, i, len);
      }
    }
  }

  // -------------------------------------------------------------- deadlocks

  /** In an acyclic graph every non-empty set of tasks has one whose producers are all outside it. */
  lemma {:induction false} SourceOf(g: Graph, s: set<nat>) returns (c: nat)
    requires Acyclic(g) && s != {}
    ensures c in s && forall p :: p in s ==> !Arc(g, p, c)
    decreases s
  {
    c :| c in s;
    if p :| p in s && Arc(g, p, c) {
      var earlier := set x | x in s && Before(g, x, c);
      ArcBefore(g, p, c);
      assert p in earlier && c !in earlier;
      var c' := SourceOf(g, earlier);
      forall q | q in s ensures !Arc(g, q, c') {
        if Arc(g, q, c') {
          ArcBefore(g, q, c');
          BeforeTransitive(g, q, c', c);
        }
      }
      c := c';
    }
  }

  /** ... and one whose consumers are all outside it. */
  lemma {:induction false} SinkOf(g: Graph, s: set<nat>) returns (c: nat)
    requires Acyclic(g) && s != {}
    ensures c in s && forall q :: q in s ==> !Arc(g, c, q)
    decreases s
  {
    c :| c in s;
    if q :| q in s && Arc(g, c, q) {
      var later := set x | x in s && Before(g, c, x);
      ArcBefore(g, c, q);
      assert q in later && c !in later;
      var c' := SinkOf(g, later);
      forall x | x in s ensures !Arc(g, c', x) {
        if Arc(g, c', x) {
          ArcBefore(g, c', x);
          BeforeTransitive(g, c, c', x);
        }
      }
      c := c';
    }
  }

  ghost predicate WaitsInside(g: Graph, stuck: set<nat>, c: nat) {
    exists p :: p in stuck && Arc(g, p, c)
  }

  /** Tasks that wait for one another forever contain a cycle. */
  lemma StuckHasCycle(g: Graph, stuck: set<nat>)
    requires stuck != {} && forall x {:trigger WaitsInside(g, stuck, x)} :: x in stuck ==> WaitsInside(g, stuck, x)
    ensures !Acyclic(g)
  {
    if Acyclic(g) {
      var c := SourceOf(g, stuck);
      var w := WaitsInside(g, stuck, c);
    }
  }
}
