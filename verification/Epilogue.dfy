/**
  The commit epilogue (src/runtime/runtime.cpp exec_and_publish,
  src/runtime/gpu_exec.cu executor): which counters a finished batch decrements
  and by how much.
 */
module Epilogue {
  import opened TaskTypes
  import opened TaskGraph

  /** One atomic decrement: consumer, amount, and the edges it accounts for. */
  datatype Group = Group(cid: nat, cnt: nat, edges: set<Edge>)

  predicate Tasks(g: Graph, ids: seq<nat>) { forall i :: 0 <= i < |ids| ==> ids[i] < |g| }

  predicate Edges(g: Graph, es: seq<Edge>) { forall i :: 0 <= i < |es| ==> IsEdge(g, es[i]) }

  function Slots(g: Graph, id: nat): seq<Edge>
    requires id < |g|
  {
    seq(|g[id]|, k requires 0 <= k < |g[id]| => (id, k))
  }

  /** The consumer slots of ids, in the order the epilogue visits them. */
  function EdgeList(g: Graph, ids: seq<nat>): seq<Edge>
    requires Tasks(g, ids)
    ensures Edges(g, EdgeList(g, ids))
    decreases |ids|
  {
    if ids == [] then [] else EdgeList(g, ids[..|ids| - 1]) + Slots(g, ids[|ids| - 1])
  }

  /** One decrement per slot: what CPU workers do. */
  function Singles(g: Graph, es: seq<Edge>): seq<Group>
    requires Edges(g, es)
    decreases |es|
  {
    if es == [] then []
    else var e := es[|es| - 1]; Singles(g, es[..|es| - 1]) + [Group(Target(g, e), 1, {e})]
  }

  /** Index of the group for consumer c, or |gs|. */
  function Find(gs: seq<Group>, c: nat): (j: nat)
    ensures j <= |gs| && (j < |gs| ==> gs[j].cid == c) && forall i :: 0 <= i < j ==> gs[i].cid != c
  {
    if gs == [] || gs[0].cid == c then 0 else 1 + Find(gs[1..], c)
  }

  /** One step of the GPU leader's dedup loop. */
  function Bump(gs: seq<Group>, c: nat, e: Edge): seq<Group> {
    var j := Find(gs, c);
    if j == |gs| then gs + [Group(c, 1, {e})]
    else gs[j := WithEdge(gs[j], e)]
  }

  /** One decrement per distinct consumer: what a GPU block does. */
  function Coalesced(g: Graph, es: seq<Edge>): seq<Group>
    requires Edges(g, es)
    decreases |es|
  {
    if es == [] then []
    else var e := es[|es| - 1]; Bump(Coalesced(g, es[..|es| - 1]), Target(g, e), e)
  }

  // ------------------------------------------------ exact cover of the edges

  function Covered(gs: seq<Group>): set<Edge>
    decreases |gs|
  {
    if gs == [] then {} else Covered(gs[..|gs| - 1]) + gs[|gs| - 1].edges
  }

  predicate Enters(g: Graph, e: Edge, c: nat) { IsEdge(g, e) && Target(g, e) == c }

  ghost predicate GroupOk(g: Graph, x: Group) {
    x.cid < |g| && x.edges != {} && x.cnt == |x.edges| && forall e: Edge :: e in x.edges ==> Enters(g, e, x.cid)
  }

  /** Non-empty groups, each edge in one group, counts exact. */
  ghost predicate Partitioned(g: Graph, gs: seq<Group>)
    decreases |gs|
  {
    gs == [] ||
    (var x, r := gs[|gs| - 1], gs[..|gs| - 1]; Partitioned(g, r) && GroupOk(g, x) && x.edges !! Covered(r))
  }

  /** The decrements account for every out-edge of ids exactly once, and for nothing else. */
  ghost predicate GroupsOk(g: Graph, gs: seq<Group>, ids: seq<nat>) {
    Partitioned(g, gs) && forall e: Edge :: e in Covered(gs) <==> IsEdge(g, e) && e.0 in ids
  }

  lemma {:induction false} PartitionedAt(g: Graph, gs: seq<Group>, j: nat)
    requires Partitioned(g, gs) && j < |gs|
    ensures GroupOk(g, gs[j]) && gs[j].edges !! Covered(gs[..j])
    ensures Covered(gs[..j + 1]) == Covered(gs[..j]) + gs[j].edges
    ensures Covered(gs[..j + 1]) <= Covered(gs)
    decreases |gs|
  {
    var n := |gs| - 1;
    assert gs[..n + 1] == gs;
    assert gs[..j + 1][..j] == gs[..j];
    if j < n {
      PartitionedAt(g, gs[..n], j);
      assert gs[..n][..j] == gs[..j] && gs[..n][..j + 1] == gs[..j + 1];
    }
  }

  lemma Snoc(g: Graph, r: seq<Group>, x: Group)
    ensures Partitioned(g, r + [x]) <==> Partitioned(g, r) && GroupOk(g, x) && x.edges !! Covered(r)
    ensures Covered(r + [x]) == Covered(r) + x.edges
  {
    assert (r + [x])[..|r|] == r;
  }

  function WithEdge(x: Group, e: Edge): Group { Group(x.cid, x.cnt + 1, x.edges + {e}) }

  lemma WithEdgeOk(g: Graph, x: Group, e: Edge)
    requires GroupOk(g, x) && Enters(g, e, x.cid) && e !in x.edges
    ensures GroupOk(g, WithEdge(x, e))
  {}

  lemma BumpInside(g: Graph, r: seq<Group>, r': seq<Group>, x: Group, e: Edge)
    requires Partitioned(g, r + [x]) && e !in Covered(r + [x])
    requires Partitioned(g, r') && Covered(r') == Covered(r) + {e}
    ensures Partitioned(g, r' + [x]) && Covered(r' + [x]) == Covered(r + [x]) + {e}
  {
    Snoc(g, r, x);
    Snoc(g, r', x);
  }

  lemma BumpLast(g: Graph, r: seq<Group>, x: Group, e: Edge)
    requires Partitioned(g, r + [x]) && e !in Covered(r + [x]) && Enters(g, e, x.cid)
    ensures Partitioned(g, r + [WithEdge(x, e)]) && Covered(r + [WithEdge(x, e)]) == Covered(r + [x]) + {e}
  {
    Snoc(g, r, x);
    WithEdgeOk(g, x, e);
    Snoc(g, r, WithEdge(x, e));
  }

  lemma UpdateInit<T>(s: seq<T>, j: nat, y: T)
    requires j < |s| - 1
    ensures s[j := y] == s[..|s| - 1][j := y] + [s[|s| - 1]]
  {}

  lemma UpdateLast<T>(s: seq<T>, y: T)
    requires s != []
    ensures s[|s| - 1 := y] == s[..|s| - 1] + [y] && s == s[..|s| - 1] + [s[|s| - 1]]
  {}

  lemma {:induction false} BumpAt(g: Graph, gs: seq<Group>, j: nat, e: Edge)
    requires Partitioned(g, gs) && j < |gs| && Enters(g, e, gs[j].cid) && e !in Covered(gs)
    ensures var r := gs[j := WithEdge(gs[j], e)]; Partitioned(g, r) && Covered(r) == Covered(gs) + {e}
    decreases |gs|
  {
    var n := |gs| - 1;
    var r, x := gs[..n], gs[n];
    UpdateLast(gs, WithEdge(x, e));
    if j < n {
      UpdateInit(gs, j, WithEdge(gs[j], e));
      BumpAt(g, r, j, e);
      BumpInside(g, r, r[j := WithEdge(r[j], e)], x, e);
    } else {
      BumpLast(g, r, x, e);
    }
  }

  lemma OneEdgeOk(g: Graph, c: nat, e: Edge)
    requires Enters(g, e, c) && c < |g|
    ensures GroupOk(g, Group(c, 1, {e}))
  {}

  lemma NewGroup(g: Graph, gs: seq<Group>, c: nat, e: Edge)
    requires Partitioned(g, gs) && Enters(g, e, c) && c < |g| && e !in Covered(gs)
    ensures var r := gs + [Group(c, 1, {e})]; Partitioned(g, r) && Covered(r) == Covered(gs) + {e}
  {
    OneEdgeOk(g, c, e);
    Snoc(g, gs, Group(c, 1, {e}));
  }

  lemma BumpOk(g: Graph, gs: seq<Group>, c: nat, e: Edge)
    requires Partitioned(g, gs) && Enters(g, e, c) && c < |g| && e !in Covered(gs)
    ensures var r := Bump(gs, c, e); Partitioned(g, r) && Covered(r) == Covered(gs) + {e}
  {
    var j := Find(gs, c);
    if j == |gs| {
      NewGroup(g, gs, c, e);
    } else {
      BumpAt(g, gs, j, e);
    }
  }

  ghost predicate DistinctEdges(es: seq<Edge>) { forall i, j :: 0 <= i < j < |es| ==> es[i] != es[j] }

  function EdgeSet(es: seq<Edge>): set<Edge> { set e | e in es }

  lemma OneMore(es: seq<Edge>)
    requires es != [] && DistinctEdges(es)
    ensures var r, e := es[..|es| - 1], es[|es| - 1];
            DistinctEdges(r) && e !in EdgeSet(r) && EdgeSet(es) == EdgeSet(r) + {e}
  {
    assert es == es[..|es| - 1] + [es[|es| - 1]];
  }

  /** Both epilogues account for exactly the listed edges. */
  lemma {:induction false} SinglesCover(g: Graph, es: seq<Edge>)
    requires WellFormed(g) && Edges(g, es) && DistinctEdges(es)
    ensures Partitioned(g, Singles(g, es)) && Covered(Singles(g, es)) == EdgeSet(es)
    decreases |es|
  {
    if es != [] {
      OneMore(es);
      SinglesCover(g, es[..|es| - 1]);
      NewGroup(g, Singles(g, es[..|es| - 1]), Target(g, es[|es| - 1]), es[|es| - 1]);
    }
  }

  lemma {:induction false} CoalescedCover(g: Graph, es: seq<Edge>)
    requires WellFormed(g) && Edges(g, es) && DistinctEdges(es)
    ensures Partitioned(g, Coalesced(g, es)) && Covered(Coalesced(g, es)) == EdgeSet(es)
    decreases |es|
  {
    if es != [] {
      OneMore(es);
      CoalescedCover(g, es[..|es| - 1]);
      BumpOk(g, Coalesced(g, es[..|es| - 1]), Target(g, es[|es| - 1]), es[|es| - 1]);
    }
  }

  lemma {:induction false} EdgeListIsAll(g: Graph, ids: seq<nat>)
    requires Tasks(g, ids) && Distinct(ids)
    ensures DistinctEdges(EdgeList(g, ids))
    ensures forall e: Edge :: e in EdgeList(g, ids) <==> IsEdge(g, e) && e.0 in ids
    decreases |ids|
  {
    if ids != [] {
      var r, id := ids[..|ids| - 1], ids[|ids| - 1];
      assert ids == r + [id];
      EdgeListIsAll(g, r);
      SlotsAre(g, id);
      NoneShared(EdgeList(g, r), Slots(g, id), id);
    }
  }

  lemma SlotsAre(g: Graph, id: nat)
    requires id < |g|
    ensures DistinctEdges(Slots(g, id)) && forall e: Edge :: e in Slots(g, id) <==> IsEdge(g, e) && e.0 == id
  {
    forall e: Edge | IsEdge(g, e) && e.0 == id ensures e in Slots(g, id) { assert Slots(g, id)[e.1] == e; }
  }

  lemma NoneShared(a: seq<Edge>, b: seq<Edge>, id: nat)
    requires DistinctEdges(a) && DistinctEdges(b)
    requires forall e: Edge :: e in b ==> e.0 == id
    requires forall e: Edge :: e in a ==> e.0 != id
    ensures DistinctEdges(a + b)
  {
    forall i, j | 0 <= i < j < |a + b| ensures (a + b)[i] != (a + b)[j] {
      if i < |a| <= j { assert a[i] in a && b[j - |a|] in b; }
    }
  }

  /** The decrements of one batch: per slot on the CPU, coalesced on the GPU. */
  function Groups(g: Graph, ids: seq<nat>, gpu: bool): seq<Group>
    requires Tasks(g, ids)
  {
    if gpu then Coalesced(g, EdgeList(g, ids)) else Singles(g, EdgeList(g, ids))
  }

  lemma EpilogueCovers(g: Graph, ids: seq<nat>, gpu: bool)
    requires WellFormed(g) && Tasks(g, ids) && Distinct(ids)
    ensures GroupsOk(g, Groups(g, ids, gpu), ids)
  {
    EdgeListIsAll(g, ids);
    SinglesCover(g, EdgeList(g, ids));
    CoalescedCover(g, EdgeList(g, ids));
  }

  // ------------------------------------------- coalesced == one at a time

  /** Total decrement of consumer c. */
  function Taken(gs: seq<Group>, c: nat): nat
    decreases |gs|
  {
    if gs == [] then 0 else Taken(gs[..|gs| - 1], c) + (if gs[|gs| - 1].cid == c then gs[|gs| - 1].cnt else 0)
  }

  /** Number of listed edges into c. */
  function Hits(g: Graph, es: seq<Edge>, c: nat): nat
    requires Edges(g, es)
    decreases |es|
  {
    if es == [] then 0 else Hits(g, es[..|es| - 1], c) + (if Target(g, es[|es| - 1]) == c then 1 else 0)
  }

  predicate Positive(gs: seq<Group>, n: nat) { forall j :: 0 <= j < |gs| ==> gs[j].cid < n && 0 < gs[j].cnt }

  lemma TakenSnoc(r: seq<Group>, x: Group, c: nat)
    ensures Taken(r + [x], c) == Taken(r, c) + (if x.cid == c then x.cnt else 0)
  {
    assert (r + [x])[..|r|] == r;
  }

  lemma {:induction false} TakenBump(gs: seq<Group>, j: nat, e: Edge, c: nat)
    requires j < |gs|
    ensures Taken(gs[j := WithEdge(gs[j], e)], c) == Taken(gs, c) + (if c == gs[j].cid then 1 else 0)
    decreases |gs|
  {
    var n := |gs| - 1;
    var r, x := gs[..n], gs[n];
    UpdateLast(gs, WithEdge(x, e));
    TakenSnoc(r, x, c);
    if j < n {
      UpdateInit(gs, j, WithEdge(gs[j], e));
      TakenBump(r, j, e, c);
      TakenSnoc(r[j := WithEdge(r[j], e)], x, c);
    } else {
      TakenSnoc(r, WithEdge(x, e), c);
    }
  }

  lemma TakenMore(gs: seq<Group>, t: nat, e: Edge, c: nat)
    ensures Taken(Bump(gs, t, e), c) == Taken(gs, c) + (if c == t then 1 else 0)
  {
    var j := Find(gs, t);
    if j == |gs| { TakenSnoc(gs, Group(t, 1, {e}), c); } else { TakenBump(gs, j, e, c); }
  }

  lemma {:induction false} TakenIsHits(g: Graph, es: seq<Edge>, c: nat)
    requires Edges(g, es)
    ensures Taken(Singles(g, es), c) == Hits(g, es, c) == Taken(Coalesced(g, es), c)
    decreases |es|
  {
    if es != [] {
      var r, e := es[..|es| - 1], es[|es| - 1];
      TakenIsHits(g, r, c);
      TakenSnoc(Singles(g, r), Group(Target(g, e), 1, {e}), c);
      TakenMore(Coalesced(g, r), Target(g, e), e, c);
    }
  }

  lemma {:induction false} GroupsPositive(g: Graph, es: seq<Edge>)
    requires WellFormed(g) && Edges(g, es)
    ensures Positive(Singles(g, es), |g|) && Positive(Coalesced(g, es), |g|)
    decreases |es|
  {
    if es != [] { GroupsPositive(g, es[..|es| - 1]); }
  }

  /** Decrement the groups in order; a counter that reaches zero publishes its task. */
  function Settle(dep: seq<int>, gs: seq<Group>): (r: (seq<int>, seq<nat>))
    requires Positive(gs, |dep|)
    ensures |r.0| == |dep|
    decreases |gs|
  {
    if gs == [] then (dep, [])
    else
      var (d, p) := Settle(dep, gs[..|gs| - 1]);
      var x := gs[|gs| - 1];
      (d[x.cid := d[x.cid] - x.cnt], if d[x.cid] == x.cnt then p + [x.cid] else p)
  }

  /** Each counter loses its total, and each task whose counter reaches zero is published once. */
  lemma {:induction false} SettleMeaning(dep: seq<int>, gs: seq<Group>)
    requires Positive(gs, |dep|)
    requires forall c: nat :: c < |dep| ==> Taken(gs, c) <= dep[c]
    ensures var (d, p) := Settle(dep, gs);
            && (forall c: nat :: c < |dep| ==> d[c] == dep[c] - Taken(gs, c))
            && Distinct(p)
            && (forall c: nat :: c in p <==> c < |dep| && 0 < dep[c] && d[c] == 0)
    decreases |gs|
  {
    if gs != [] {
      var r, x := gs[..|gs| - 1], gs[|gs| - 1];
      forall c: nat | c < |dep| ensures Taken(r, c) <= dep[c] { assert Taken(gs, c) <= dep[c]; }
      SettleMeaning(dep, r);
      var (d, p) := Settle(dep, r);
      assert Taken(gs, x.cid) <= dep[x.cid];
      assert d[x.cid] == dep[x.cid] - Taken(r, x.cid);
    }
  }

  /**
    A coalesced GPU epilogue leaves the counters, and publishes the consumers,
    that committing its tasks one at a time would, each consumer once.
   */
  lemma EpilogueEqualsCommits(g: Graph, dep: seq<int>, ids: seq<nat>)
    requires WellFormed(g) && |dep| == |g| && Tasks(g, ids)
    requires forall c: nat :: c < |g| ==> Hits(g, EdgeList(g, ids), c) <= dep[c]
    ensures Positive(Groups(g, ids, true), |g|) && Positive(Groups(g, ids, false), |g|)
    ensures var (d, p) := Settle(dep, Groups(g, ids, true)); var (d', p') := Settle(dep, Groups(g, ids, false));
            d == d' && Distinct(p) && multiset(p) == multiset(p')
    ensures var (d, p) := Settle(dep, Groups(g, ids, true));
            forall c: nat :: c < |g| ==>
              d[c] == dep[c] - Hits(g, EdgeList(g, ids), c) && (c in p <==> dep[c] > 0 && d[c] == 0)
  {
    var es := EdgeList(g, ids);
    GroupsPositive(g, es);
    forall c: nat | c < |g| ensures Taken(Singles(g, es), c) == Hits(g, es, c) == Taken(Coalesced(g, es), c) {
      TakenIsHits(g, es, c);
    }
    SettleAgree(dep, Coalesced(g, es), Singles(g, es));
  }

  lemma SettleAgree(dep: seq<int>, a: seq<Group>, b: seq<Group>)
    requires Positive(a, |dep|) && Positive(b, |dep|)
    requires forall c: nat :: c < |dep| ==> Taken(a, c) == Taken(b, c) <= dep[c]
    ensures Settle(dep, a).0 == Settle(dep, b).0
    ensures Distinct(Settle(dep, a).1) && multiset(Settle(dep, a).1) == multiset(Settle(dep, b).1)
    ensures forall c: nat :: c < |dep| ==> Settle(dep, a).0[c] == dep[c] - Taken(a, c)
    ensures forall c: nat :: c < |dep| ==> (c in Settle(dep, a).1 <==> dep[c] > 0 && Settle(dep, a).0[c] == 0)
  {
    SettleMeaning(dep, a);
    SettleMeaning(dep, b);
    SameCounters(Settle(dep, a).0, Settle(dep, b).0);
    SameBag(Settle(dep, a).1, Settle(dep, b).1);
  }

  lemma SameCounters(d: seq<int>, d': seq<int>)
    requires |d| == |d'| && forall c: nat :: c < |d| ==> d[c] == d'[c]
    ensures d == d'
  {}

  lemma {:induction false} DistinctBag(p: seq<nat>, x: nat)
    requires Distinct(p)
    ensures multiset(p)[x] == if x in p then 1 else 0
    decreases |p|
  {
    if p != [] {
      var r, y := p[..|p| - 1], p[|p| - 1];
      assert p == r + [y];
      DistinctBag(r, x);
    }
  }

  lemma SameBag(p: seq<nat>, q: seq<nat>)
    requires Distinct(p) && Distinct(q) && forall x: nat :: x in p <==> x in q
    ensures multiset(p) == multiset(q)
  {
    forall x: nat ensures multiset(p)[x] == multiset(q)[x] {
      DistinctBag(p, x);
      DistinctBag(q, x);
    }
  }

  // ------------------------------------------------------ the GPU's own loop

  /** The scratch arrays hold the groups. */
  ghost predicate Mirrors(ucid: array<nat>, ucnt: array<nat>, gs: seq<Group>)
    reads ucid, ucnt
  {
    && |gs| <= ucid.Length == ucnt.Length
    && forall j :: 0 <= j < |gs| ==> ucid[j] == gs[j].cid && ucnt[j] == gs[j].cnt
  }

  lemma EdgeListSplit(g: Graph, ids: seq<nat>, i: nat)
    requires Tasks(g, ids) && i < |ids|
    ensures EdgeList(g, ids[..i + 1]) == EdgeList(g, ids[..i]) + Slots(g, ids[i])
  {
    assert ids[..i + 1][..i] == ids[..i];
  }

  lemma CoalescedNext(g: Graph, pre: seq<Edge>, id: nat, k: nat)
    requires Edges(g, pre) && id < |g| && k < |g[id]|
    ensures Coalesced(g, pre + Slots(g, id)[..k + 1]) == Bump(Coalesced(g, pre + Slots(g, id)[..k]), g[id][k], (id, k))
  {
    var es := pre + Slots(g, id)[..k];
    assert pre + Slots(g, id)[..k + 1] == es + [(id, k)];
    assert (es + [(id, k)])[..|es|] == es;
  }

  /** The leader's dedup loop over shared scratch computes the coalesced groups. */
  method Coalesce(g: Graph, ids: seq<nat>, ucid: array<nat>, ucnt: array<nat>) returns (um: nat)
    requires Tasks(g, ids) && forall i :: 0 <= i < |ids| ==> |g[ids[i]]| <= MAX_CONSUMERS
    requires ucid != ucnt && |ids| * MAX_CONSUMERS <= ucid.Length && ucid.Length == ucnt.Length
    modifies ucid, ucnt
    ensures um == |Groups(g, ids, true)| && Mirrors(ucid, ucnt, Groups(g, ids, true))
  {
    um := 0;
    for i := 0 to |ids|
      invariant um == |Groups(g, ids[..i], true)| <= i * MAX_CONSUMERS
      invariant Mirrors(ucid, ucnt, Groups(g, ids[..i], true))
    {
      EdgeListSplit(g, ids, i);
      um := CoalesceTask(g, ids[i], EdgeList(g, ids[..i]), ucid, ucnt, um);
    }
    assert ids[..|ids|] == ids;
  }

  method CoalesceTask(g: Graph, id: nat, ghost pre: seq<Edge>, ucid: array<nat>, ucnt: array<nat>, um0: nat)
    returns (um: nat)
    requires Edges(g, pre) && id < |g|
    requires ucid != ucnt && um0 == |Coalesced(g, pre)| && um0 + |g[id]| <= ucid.Length
      && Mirrors(ucid, ucnt, Coalesced(g, pre))
    modifies ucid, ucnt
    ensures um == |Coalesced(g, pre + Slots(g, id))| <= um0 + |g[id]|
    ensures Mirrors(ucid, ucnt, Coalesced(g, pre + Slots(g, id)))
  {
    um := um0;
    assert pre + Slots(g, id)[..0] == pre;
    for k := 0 to |g[id]|
      invariant um == |Coalesced(g, pre + Slots(g, id)[..k])| <= um0 + k
      invariant Mirrors(ucid, ucnt, Coalesced(g, pre + Slots(g, id)[..k]))
    {
      CoalescedNext(g, pre, id, k);
      um := BumpScratch(Coalesced(g, pre + Slots(g, id)[..k]), g[id][k], (id, k), ucid, ucnt, um);
    }
    assert Slots(g, id)[..|g[id]|] == Slots(g, id);
  }

  method BumpScratch(ghost gs: seq<Group>, c: nat, ghost e: Edge, ucid: array<nat>, ucnt: array<nat>, um0: nat)
    returns (um: nat)
    requires ucid != ucnt && ucid.Length == ucnt.Length && um0 == |gs| < ucid.Length && Mirrors(ucid, ucnt, gs)
    modifies ucid, ucnt
    ensures um == |Bump(gs, c, e)| <= |gs| + 1 && Mirrors(ucid, ucnt, Bump(gs, c, e))
  {
    um := um0;
    var j := 0;
    while j < um && ucid[j] != c
      invariant j <= um == |gs|
      invariant forall i :: 0 <= i < j ==> gs[i].cid != c
    {
      j := j + 1;
    }
    if j == um {
      ucid[um], ucnt[um] := c, 0;
      um := um + 1;
    }
    ucnt[j] := ucnt[j] + 1;
  }
}
