/** Task kinds, formats and affinities (include/fastllm/fastllm.h). */
module TaskTypes {
  datatype TaskKind =
    | STREAM_DOT | MERGE | SIGNAL | ACT_Q8 | STREAM_DOT_IDX
    | RMSNORM | ADD2 | ROPE_DS2 | KV_APPEND | ATTN_HEAD | ROUTER_SEL | SILU_MUL | WMERGE

  /** Decode ops, the kinds numbered RMSNORM and up. */
  predicate IsOp(k: TaskKind) {
    !(k.STREAM_DOT? || k.MERGE? || k.SIGNAL? || k.ACT_Q8? || k.STREAM_DOT_IDX?)
  }

  datatype Fmt = F32 | Q8_0 | Q5_0 | Q4_K | Q6_K | IQ2_XXS | IQ3_XXS

  predicate IsCodebook(f: Fmt) { f.IQ2_XXS? || f.IQ3_XXS? }

  datatype Engine = ANY | CPU | GPU

  const MAX_CONSUMERS := 6
}

/**
  The task table while it is built, validated and executed serially
  (src/runtime/graph.cpp).  `die` aborts the process; here it is a Died result
  that leaves the table as it was.
 */
module TaskTable {
  import opened Results
  import opened TaskTypes
  import opened TaskGraph
  import opened SerialExec
  import opened RunMemory

  /** Edges whose producer is in order, or the first k edges of task id. */
  ghost function Released(g: Graph, order: seq<nat>, id: nat, k: nat): set<Edge> {
    set p, j | 0 <= p < |g| && 0 <= j < |g[p]| && (p in order || (p == id && j < k)) :: (p, j)
  }

  ghost function ReleasedBy(g: Graph, order: seq<nat>): set<Edge> {
    set p, j | 0 <= p < |g| && 0 <= j < |g[p]| && p in order :: (p, j)
  }

  /** Edges into c not yet counted off. */
  ghost function Left(g: Graph, c: nat, R: set<Edge>): nat { |InEdges(g, c) - R| }

  ghost predicate Counts(g: Graph, deps: seq<int>, R: set<Edge>) {
    |deps| == |g| && forall c :: 0 <= c < |g| ==> deps[c] == Left(g, c, R)
  }

  /** The tasks with no edges left are those done or on the worklist, each once. */
  ghost predicate Worklist(g: Graph, deps: seq<int>, ready: seq<nat>, order: seq<nat>) {
    && |deps| == |g|
    && Distinct(order) && Distinct(ready)
    && (forall x :: x in ready ==> x !in order)
    && (forall c: nat :: c in order || c in ready <==> c < |g| && deps[c] == 0)
  }

  /** State of Kahn's algorithm after the edges R were counted off. */
  ghost predicate Kahn(g: Graph, deps: seq<int>, ready: seq<nat>, order: seq<nat>, R: set<Edge>) {
    Counts(g, deps, R) && Worklist(g, deps, ready, order)
  }

  lemma CountedOff(g: Graph, c: nat, R: set<Edge>, e: Edge)
    requires e !in R
    ensures Left(g, c, R + {e}) == Left(g, c, R) - (if e in InEdges(g, c) then 1 else 0)
  {
    if e in InEdges(g, c) {
      assert InEdges(g, c) - (R + {e}) == (InEdges(g, c) - R) - {e};
    } else {
      assert InEdges(g, c) - (R + {e}) == InEdges(g, c) - R;
    }
  }

  lemma NoneLeft(g: Graph, c: nat, R: set<Edge>)
    ensures Left(g, c, R) == 0 <==> InEdges(g, c) <= R
  {
    var d := InEdges(g, c) - R;
    if d == {} {
      forall e | e in InEdges(g, c) ensures e in R { assert e !in d; }
    } else {
      var e :| e in d;
      assert e in InEdges(g, c) && e !in R;
    }
  }

  /** Counting off one edge: its consumer becomes ready exactly when its count reaches 0. */
  lemma CountOneOff(g: Graph, deps: seq<int>, ready: seq<nat>, order: seq<nat>, R: set<Edge>, e: Edge)
    requires WellFormed(g) && Kahn(g, deps, ready, order, R) && IsEdge(g, e) && e !in R
    ensures Target(g, e) < |deps|
    ensures var c := Target(g, e);
            Kahn(g, deps[c := deps[c] - 1], if deps[c] == 1 then ready + [c] else ready, order, R + {e})
  {
    var c := Target(g, e);
    assert e in InEdges(g, c);
    CountsOff(g, deps, R, e);
    CountedOff(g, c, R, e);
    WorklistOff(g, deps, ready, order, c);
  }

  lemma CountsOff(g: Graph, deps: seq<int>, R: set<Edge>, e: Edge)
    requires WellFormed(g) && Counts(g, deps, R) && IsEdge(g, e) && e !in R
    ensures Counts(g, deps[Target(g, e) := deps[Target(g, e)] - 1], R + {e})
  {
    forall x | 0 <= x < |g| ensures deps[Target(g, e) := deps[Target(g, e)] - 1][x] == Left(g, x, R + {e}) {
      CountedOff(g, x, R, e);
    }
  }

  lemma WorklistOff(g: Graph, deps: seq<int>, ready: seq<nat>, order: seq<nat>, c: nat)
    requires Worklist(g, deps, ready, order) && c < |deps| && 0 < deps[c]
    ensures Worklist(g, deps[c := deps[c] - 1], if deps[c] == 1 then ready + [c] else ready, order)
  {}

  /** Taking a ready task off the worklist. */
  lemma TakeReady(g: Graph, deps: seq<int>, ready: seq<nat>, order: seq<nat>)
    requires WellFormed(g) && ready != [] && Kahn(g, deps, ready, order, ReleasedBy(g, order)) && Linear(g, order)
    ensures var id := ready[|ready| - 1];
            && id < |g| && id !in order && Linear(g, order + [id])
            && Kahn(g, deps, ready[..|ready| - 1], order + [id], Released(g, order, id, 0))
  {
    var n := |ready| - 1;
    var id := ready[n];
    assert id in ready;
    assert Released(g, order, id, 0) == ReleasedBy(g, order);
    TakeWorklist(g, deps, ready, order);
    NoneLeft(g, id, ReleasedBy(g, order));
    forall p: nat | Arc(g, p, id) ensures p in order {
      var k :| 0 <= k < |g[p]| && g[p][k] == id;
      assert (p, k) in InEdges(g, id);
    }
    LinearAppend(g, order, id);
  }

  lemma TakeWorklist(g: Graph, deps: seq<int>, ready: seq<nat>, order: seq<nat>)
    requires ready != [] && Worklist(g, deps, ready, order)
    ensures Worklist(g, deps, ready[..|ready| - 1], order + [ready[|ready| - 1]])
  {
    var n := |ready| - 1;
    var id := ready[n];
    assert ready == ready[..n] + [id];
    assert id in ready;
  }

  lemma LinearAppend(g: Graph, order: seq<nat>, id: nat)
    requires Linear(g, order) && id !in order && ProducersIn(g, id, order)
    ensures Linear(g, order + [id])
  {
    var order' := order + [id];
    forall i | 0 <= i < |order'| ensures ProducersIn(g, order'[i], order'[..i]) {
      if i < |order| {
        assert order'[..i] == order[..i];
        assert ProducersIn(g, order[i], order[..i]);
      } else {
        assert order'[..i] == order;
      }
    }
  }

  /** The inner loop shared by freeze and run_serial: count off the edges of task id. */
  method Release(g: Graph, id: nat, deps0: seq<int>, ready0: seq<nat>, ghost order: seq<nat>)
    returns (deps: seq<int>, ready: seq<nat>)
    requires WellFormed(g) && id < |g| && id !in order
    requires Kahn(g, deps0, ready0, order + [id], Released(g, order, id, 0))
    ensures Kahn(g, deps, ready, order + [id], ReleasedBy(g, order + [id]))
  {
    deps, ready := deps0, ready0;
    for k := 0 to |g[id]|
      invariant Kahn(g, deps, ready, order + [id], Released(g, order, id, k))
    {
      var c := g[id][k];
      CountOneOff(g, deps, ready, order + [id], Released(g, order, id, k), (id, k));
      assert Released(g, order, id, k + 1) == Released(g, order, id, k) + {(id, k)};
      deps := deps[c := deps[c] - 1];
      if deps[c] == 0 {
        ready := ready + [c];
      }
    }
    assert Released(g, order, id, |g[id]|) == ReleasedBy(g, order + [id]);
  }

  /** A worklist state between two iterations. */
  ghost predicate Progress(g: Graph, deps: seq<int>, ready: seq<nat>, order: seq<nat>) {
    Kahn(g, deps, ready, order, ReleasedBy(g, order)) && Linear(g, order)
  }

  /** One iteration: pop the newest ready task and count off its edges. */
  method Next(g: Graph, deps0: seq<int>, ready0: seq<nat>, ghost order: seq<nat>)
    returns (id: nat, deps: seq<int>, ready: seq<nat>)
    requires WellFormed(g) && ready0 != [] && Progress(g, deps0, ready0, order)
    ensures id == ready0[|ready0| - 1] && id < |g| && id !in order && |order| < |g|
    ensures Progress(g, deps, ready, order + [id])
  {
    TakeReady(g, deps0, ready0, order);
    id := ready0[|ready0| - 1];
    MoreToSee(g, order, id);
    deps, ready := Release(g, id, deps0, ready0[..|ready0| - 1], order);
  }

  /** The worklist seeded with the tasks that have no producers. */
  method Seed(g: Graph, depInit: seq<nat>) returns (deps: seq<int>, ready: seq<nat>)
    requires WellFormed(g) && |depInit| == |g| && forall c :: 0 <= c < |g| ==> depInit[c] == |InEdges(g, c)|
    ensures Progress(g, deps, ready, [])
  {
    deps := depInit;
    ready := [];
    for i := 0 to |g|
      invariant Distinct(ready)
      invariant forall c: nat :: c in ready <==> c < i && depInit[c] == 0
    {
      if depInit[i] == 0 {
        ready := ready + [i];
      }
    }
    SeedCounts(g, depInit);
  }

  lemma SeedCounts(g: Graph, depInit: seq<nat>)
    requires |depInit| == |g| && forall c :: 0 <= c < |g| ==> depInit[c] == |InEdges(g, c)|
    ensures Counts(g, depInit, ReleasedBy(g, []))
  {
    assert ReleasedBy(g, []) == {};
    forall c | 0 <= c < |g| ensures depInit[c] == Left(g, c, {}) {
      assert InEdges(g, c) - {} == InEdges(g, c);
    }
  }

  /** An exhausted worklist that missed a task proves a cycle; one that did not is a topological order. */
  lemma Exhausted(g: Graph, deps: seq<int>, order: seq<nat>)
    requires WellFormed(g) && Progress(g, deps, [], order)
    ensures |order| <= |g|
    ensures |order| == |g| <==> Acyclic(g)
    ensures |order| == |g| ==> Topological(g, order)
  {
    OrderSize(g, order);
    if |order| == |g| {
      assert Topological(g, order);
      TopologicalIsAcyclic(g, order);
    } else {
      MissedIsCycle(g, deps, order);
    }
  }

  lemma MissedIsCycle(g: Graph, deps: seq<int>, order: seq<nat>)
    requires Kahn(g, deps, [], order, ReleasedBy(g, order)) && exists x: nat :: x < |g| && x !in order
    ensures !Acyclic(g)
  {
    var stuck := set x: nat | x < |g| && x !in order;
    var x: nat :| x < |g| && x !in order;
    assert x in stuck;
    StuckSet(g, deps, order, stuck);
    StuckHasCycle(g, stuck);
  }

  lemma StuckSet(g: Graph, deps: seq<int>, order: seq<nat>, stuck: set<nat>)
    requires Kahn(g, deps, [], order, ReleasedBy(g, order)) && forall x: nat :: x in stuck <==> x < |g| && x !in order
    ensures forall x {:trigger WaitsInside(g, stuck, x)} :: x in stuck ==> WaitsInside(g, stuck, x)
  {
    forall x {:trigger WaitsInside(g, stuck, x)} | x in stuck ensures WaitsInside(g, stuck, x) {
      StuckTask(g, deps, order, x);
      var p: nat :| p < |g| && p !in order && Arc(g, p, x);
      assert p in stuck;
    }
  }

  lemma OrderSize(g: Graph, order: seq<nat>)
    requires Distinct(order) && forall x :: x in order ==> x < |g|
    ensures |order| <= |g|
    ensures |order| == |g| ==> forall t: nat :: t in order <==> t < |g|
    ensures |order| < |g| ==> exists x: nat :: x < |g| && x !in order
  {
    DistinctSize(order);
    SubsetSize(Elems(order), Upto(|g|));
    if |order| == |g| {
      forall t: nat ensures t in order <==> t < |g| {
        assert t in Elems(order) <==> t in Upto(|g|);
      }
    }
    if |order| < |g| {
      var x :| x in Upto(|g|) && x !in Elems(order);
      assert x < |g| && x !in order;
    }
  }

  lemma StuckTask(g: Graph, deps: seq<int>, order: seq<nat>, x: nat)
    requires Kahn(g, deps, [], order, ReleasedBy(g, order)) && x < |g| && x !in order
    ensures exists p: nat :: p < |g| && p !in order && Arc(g, p, x)
  {
    NoneLeft(g, x, ReleasedBy(g, order));
    var e :| e in InEdges(g, x) && e !in ReleasedBy(g, order);
    assert Arc(g, e.0, x);
  }

  lemma SubsetSize(a: set<nat>, b: set<nat>)
    requires a <= b
    ensures |a| <= |b| && (|a| == |b| <==> a == b)
  {
    assert b == a + (b - a);
    assert |b| == |a| + |b - a|;
  }

  ghost function Sinks(g: Graph): set<nat> { set x | 0 <= x < |g| && g[x] == [] }

  /** The counting loop of freeze. */
  method Count(g: Graph, depInit: seq<nat>) returns (seen: nat, sinks: nat, term: nat, ghost order: seq<nat>)
    requires WellFormed(g) && |depInit| == |g| && forall c :: 0 <= c < |g| ==> depInit[c] == |InEdges(g, c)|
    ensures SinksSeen(g, order, seen, sinks, term)
    ensures seen == |g| <==> Acyclic(g)
    ensures seen == |g| ==> Topological(g, order)
  {
    var deps, ready := Seed(g, depInit);
    order := [];
    seen, sinks, term := 0, 0, 0;
    while ready != []
      invariant Progress(g, deps, ready, order)
      invariant SinksSeen(g, order, seen, sinks, term)
      decreases |g| - |order|
    {
      var id;
      id, deps, ready := Next(g, deps, ready, order);
      SeeOne(g, order, seen, sinks, term, id);
      seen := seen + 1;
      if g[id] == [] {
        sinks, term := sinks + 1, id;
      }
      order := order + [id];
    }
    Exhausted(g, deps, order);
  }

  ghost predicate OneSignalSink(g: Graph, kinds: seq<TaskKind>) {
    exists s :: Sinks(g) == {s} && s < |kinds| && kinds[s] == SIGNAL
  }

  const FULL := "graph capacity exceeded"

  class GraphImpl {
    const max: nat
    var consumers: Graph
    var kinds: seq<TaskKind>
    var depInit: seq<nat>
    var terminal: nat
    var frozen: bool

    ghost predicate Valid()
      reads this
    {
      && |consumers| == |kinds| == |depInit| <= max
      && WellFormed(consumers)
      && (forall p :: 0 <= p < |consumers| ==> |consumers[p]| <= MAX_CONSUMERS)
      && (forall c :: 0 <= c < |consumers| ==> depInit[c] == |InEdges(consumers, c)|)
      && (frozen ==> Frozen(consumers, kinds, terminal))
    }

    constructor (max: nat)
      ensures Valid() && !frozen && consumers == [] && this.max == max
    {
      this.max := max;
      consumers, kinds, depInit, terminal, frozen := [], [], [], 0, false;
    }

    method Add(kind: TaskKind) returns (r: Result<nat>)
      requires Valid()
      modifies this
      ensures Valid() && frozen == old(frozen) && terminal == old(terminal)
      ensures r.Ok? <==> !frozen && |old(consumers)| < max
      ensures r.Ok? ==>
        r.value == |old(consumers)| && consumers == old(consumers) + [[]] && kinds == old(kinds) + [kind]
      ensures r.Died? ==> consumers == old(consumers) && kinds == old(kinds) && (!frozen ==> r.why == FULL)
    {
      if frozen { return Died("add() after freeze()"); }
      if |consumers| >= max { return Died(FULL); }
      NewTask(consumers);
      r := Ok(|consumers|);
      consumers, kinds, depInit := consumers + [[]], kinds + [kind], depInit + [0];
    }

    method AddEdge(p: nat, c: nat) returns (r: Result<()>)
      requires Valid()
      modifies this
      ensures Valid() && frozen == old(frozen) && terminal == old(terminal) && kinds == old(kinds)
      ensures r.Ok? <==> !frozen && p < |consumers| && c < |consumers| && p != c && |old(consumers)[p]| < MAX_CONSUMERS
      ensures consumers == if r.Ok? then old(consumers)[p := old(consumers)[p] + [c]] else old(consumers)
    {
      if frozen { return Died("edge() after freeze()"); }
      if p >= |consumers| || c >= |consumers| || p == c { return Died("bad edge"); }
      if |consumers[p]| >= MAX_CONSUMERS { return Died("consumer fan-out exceeded"); }
      NewEdge(consumers, p, c);
      consumers := consumers[p := consumers[p] + [c]];
      depInit := depInit[c := depInit[c] + 1];
      r := Ok(());
    }

    /** Accepts exactly the acyclic graphs with one sink, of kind SIGNAL. */
    method Freeze() returns (r: Result<()>)
      requires Valid()
      modifies this
      ensures Valid() && consumers == old(consumers) && kinds == old(kinds)
      ensures !old(frozen) ==> (r == Died("cycle in graph") <==> !Acyclic(consumers))
      ensures !old(frozen) ==>
                (r.Ok? <==> Acyclic(consumers) && OneSignalSink(consumers, kinds))
      ensures r.Ok? ==> frozen && Acyclic(consumers) && Sinks(consumers) == {terminal} && kinds[terminal] == SIGNAL
      ensures r.Died? ==> !frozen
    {
      if frozen { return Ok(()); }
      ghost var order;
      var seen, sinks, term;
      seen, sinks, term, order := Count(consumers, depInit);
      if seen != |consumers| { return Died("cycle in graph"); }
      AllSinksSeen(consumers, order, seen, sinks, term);
      if sinks != 1 {
        return Died("graph must have exactly one sink (terminal SIGNAL)");
      }
      terminal := term;
      if kinds[term] != SIGNAL {
        return Died("terminal must be SIGNAL");
      }
      frozen := true;
      r := Ok(());
    }

    /** Single-threaded execution, in the order the LIFO worklist picks. */
    method RunSerial(k: Work, m0: Mem) returns (m: Mem, ghost order: seq<nat>)
      requires Valid() && WorkFits(consumers, k)
      ensures Linear(consumers, order) && AllTasks(k, order) && m == Exec(k, m0, order)
      ensures Leaves(k, m0, order, m)
      ensures Acyclic(consumers) <==> Topological(consumers, order)
    {
      var g := consumers;
      var deps, ready := Seed(g, depInit);
      m, order := m0, [];
      while ready != []
        invariant Progress(g, deps, ready, order)
        invariant AllTasks(k, order) && m == Exec(k, m0, order)
        decreases |g| - |order|
      {
        var id;
        id, deps, ready := Next(g, deps, ready, order);
        ExecAppend(k, m0, order, [id]);
        m := Exec1(k, m, id);
        order := order + [id];
      }
      Exhausted(g, deps, order);
      RunLeaves(k, m0, order);
      if Topological(g, order) { TopologicalSize(g, order); }
    }
  }

  ghost predicate Frozen(g: Graph, kinds: seq<TaskKind>, terminal: nat) {
    && WellFormed(g) && |kinds| == |g| && Acyclic(g) && terminal < |g|
    && Sinks(g) == {terminal} && kinds[terminal] == SIGNAL
  }

  lemma NewTask(g: Graph)
    requires WellFormed(g)
    ensures WellFormed(g + [[]])
    ensures forall c: nat {:trigger InEdges(g + [[]], c)} ::
      InEdges(g + [[]], c) == if c < |g| then InEdges(g, c) else {}
  {
    var g' := g + [[]];
    forall p, k | 0 <= p < |g'| && 0 <= k < |g'[p]| ensures p < |g| && g'[p][k] == g[p][k] {}
    forall c: nat ensures InEdges(g', c) == if c < |g| then InEdges(g, c) else {} {
      assert InEdges(g', c) == InEdges(g, c);
    }
  }

  lemma NewEdge(g: Graph, p: nat, c: nat)
    requires WellFormed(g) && p < |g| && c < |g|
    ensures var g' := g[p := g[p] + [c]];
            && WellFormed(g')
            && |InEdges(g', c)| == |InEdges(g, c)| + 1
            && forall x: nat {:trigger InEdges(g', x)} :: x != c ==> InEdges(g', x) == InEdges(g, x)
  {
    var g' := g[p := g[p] + [c]];
    var e := (p, |g[p]|);
    assert InEdges(g', c) == InEdges(g, c) + {e};
    assert e !in InEdges(g, c);
    forall x: nat | x != c ensures InEdges(g', x) == InEdges(g, x) {}
  }

  /** The counters of freeze's loop. */
  ghost predicate SinksSeen(g: Graph, order: seq<nat>, seen: nat, sinks: nat, term: nat) {
    && seen == |order| <= |g|
    && sinks == |Sinks(g) * Elems(order)|
    && (sinks > 0 ==> term in Sinks(g) * Elems(order))
  }

  lemma MoreToSee(g: Graph, order: seq<nat>, id: nat)
    requires Distinct(order) && id !in order && id < |g| && forall x :: x in order ==> x < |g|
    ensures |order| < |g|
  {
    DistinctSize(order);
    assert id in Upto(|g|) - Elems(order);
    SubsetSize(Elems(order), Upto(|g|));
  }

  lemma SeeOne(g: Graph, order: seq<nat>, seen: nat, sinks: nat, term: nat, id: nat)
    requires SinksSeen(g, order, seen, sinks, term) && id !in order && id < |g| && |order| < |g|
    ensures if g[id] == [] then SinksSeen(g, order + [id], seen + 1, sinks + 1, id)
            else SinksSeen(g, order + [id], seen + 1, sinks, term)
  {
    assert Elems(order + [id]) == Elems(order) + {id};
    AddOne(Sinks(g), Elems(order), id);
  }

  lemma AddOne(s: set<nat>, e: set<nat>, x: nat)
    requires x !in e
    ensures |s * (e + {x})| == |s * e| + (if x in s then 1 else 0)
  {
    if x in s {
      assert s * (e + {x}) == (s * e) + {x};
    } else {
      assert s * (e + {x}) == s * e;
    }
  }

  lemma AllSinksSeen(g: Graph, order: seq<nat>, seen: nat, sinks: nat, term: nat)
    requires SinksSeen(g, order, seen, sinks, term) && Topological(g, order)
    ensures sinks == 1 ==> Sinks(g) == {term}
    ensures sinks != 1 ==> forall s: nat :: Sinks(g) != {s}
  {
    assert Sinks(g) * Elems(order) == Sinks(g);
    if sinks == 1 { OneElement(Sinks(g), term); }
    forall s: nat ensures |{s}| == 1 {}
  }

  lemma OneElement(s: set<nat>, x: nat)
    requires |s| == 1 && x in s
    ensures s == {x}
  {
    assert |s - {x}| == 0;
  }

  /** In an accepted graph every other task leads to the terminal. */
  lemma ReachesTerminal(g: Graph, kinds: seq<TaskKind>, terminal: nat, t: nat)
    requires Frozen(g, kinds, terminal) && t < |g| && t != terminal
    ensures Before(g, t, terminal)
  {
    var lost := set x: nat | x < |g| && x != terminal && !Before(g, x, terminal);
    if lost != {} {
      var c := SinkOf(g, lost);
      assert c !in Sinks(g);
      var d := g[c][0];
      assert Arc(g, c, d);
      ArcBefore(g, c, d);
      if d != terminal { BeforeTransitive(g, c, d, terminal); }
    }
    assert t !in lost;
  }
}
