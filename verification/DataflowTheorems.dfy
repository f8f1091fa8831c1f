/** What the dataflow protocol guarantees over whole runs. */
module DataflowTheorems {
  import opened TaskTypes
  import opened TaskGraph
  import opened TaskTable
  import opened SerialExec
  import opened RunMemory
  import opened Epilogue
  import opened Routing
  import opened Dataflow
  import opened DataflowSafety

  // ------------------------------------------------------------------ traces

  /** The first run of a fresh runtime. */
  ghost predicate Boots(s: State) {
    SetupOk(s.x) && exists dep: seq<int>, mem: Mem :: |dep| == |s.x.g| && s == Begin(s.x, dep, map[], map[], mem)
  }

  ghost predicate Steps(tr: seq<State>, ops: seq<Op>) {
    |tr| == |ops| + 1 && forall i :: 0 <= i < |ops| ==> Step(tr[i], ops[i], tr[i + 1])
  }

  /** Every state reachable over any number of consecutive runs satisfies the invariant. */
  lemma {:induction false} AlwaysInv(tr: seq<State>, ops: seq<Op>, i: nat)
    requires Steps(tr, ops) && Boots(tr[0]) && i < |tr|
    ensures Inv(tr[i])
  {
    if i == 0 {
      var dep, mem :| |dep| == |tr[0].x.g| && tr[0] == Begin(tr[0].x, dep, map[], map[], mem);
      BeginInv(tr[0].x, dep, map[], map[], mem);
    } else {
      AlwaysInv(tr, ops, i - 1);
      StepKeepsInv(tr[i - 1], ops[i - 1], tr[i]);
    }
  }

  // ------------------------------------------------------------- counters

  /** After the reset a counter is the number of unapplied in-edges: never negative, zero exactly when all applied. */
  lemma CounterIsExact(s: State, c: nat)
    requires Inv(s) && !s.host.Reset? && c < |s.x.g|
    ensures s.dep[c] == |InEdges(s.x.g, c) - s.applied|
    ensures s.dep[c] == 0 <==> InEdges(s.x.g, c) <= s.applied
    ensures s.dep[c] == 0 <==> s.phase[c] != Waiting
    ensures forall e :: e in s.applied ==> e.0 in s.order
  {
    NoneLeft(s.x.g, c, s.applied);
    forall e | e in s.applied ensures e.0 in s.order { assert Finished(s.phase[e.0]); }
  }

  /** A fetch_sub never takes a counter below zero, and hits zero exactly on the last edge. */
  lemma DecrementNeverOvershoots(s: State, u: Unit, s': State)
    requires Inv(s) && Step(s, DoDecrement(u), s')
    ensures var x := At(s, u).gs[At(s, u).j];
            && 0 < x.cnt <= s.dep[x.cid]
            && (s.dep[x.cid] == x.cnt <==> InEdges(s.x.g, x.cid) <= s'.applied)
            && x.cid !in s.pubs
  {
    assert ThreadOk(s, u);
    GroupFresh(s, u);
    TargetWaits(s, u);
    var x := At(s, u).gs[At(s, u).j];
    LeftAfter(s.x.g, x.cid, s.applied, x);
  }

  /** A body starts only after every producer's body has finished. */
  lemma NoEarlyStart(s: State, u: Unit, i: nat, s': State)
    requires Inv(s) && Step(s, DoStart(u, i), s')
    ensures ProducersIn(s.x.g, At(s, u).ids[i], s.order)
    ensures At(s, u).ids[i] !in s.order
  {
    assert ThreadOk(s, u);
    ProducersFinished(s, At(s, u).ids[i]);
  }

  // ------------------------------------------------------------ publication

  /** Each task is published at most once, so a run pushes at most n times; by the end each was published once. */
  lemma PublishedOnce(s: State)
    requires Inv(s)
    ensures Distinct(s.pubs) && |s.pubs| <= |s.x.g|
    ensures s.host.Returned? ==> |s.pubs| == |s.x.g|
    ensures forall t: nat :: t in s.pubs ==> t < |s.x.g| && (InEdges(s.x.g, t) <= s.applied)
  {
    PublishedInRange(s);
    DistinctSize(s.pubs);
    SubsetSize(Elems(s.pubs), Upto(|s.x.g|));
    if s.host.Returned? { AllPublished(s); }
  }

  lemma PublishedInRange(s: State)
    requires Inv(s)
    ensures Distinct(s.pubs) && Elems(s.pubs) <= Upto(|s.x.g|)
    ensures forall t: nat :: t in s.pubs ==> t < |s.x.g| && (InEdges(s.x.g, t) <= s.applied)
  {}

  lemma AllPublished(s: State)
    requires Inv(s) && s.host.Returned?
    ensures Elems(s.pubs) == Upto(|s.x.g|)
  {}

  // ------------------------------------------------------------- completion

  /** done_flag is raised only when every body has finished and every counter is zero. */
  lemma DoneFlagMeansAllFinished(s: State)
    requires Inv(s) && s.flag
    ensures Topological(s.x.g, s.order)
    ensures forall c: nat :: c < |s.x.g| ==> s.dep[c] == 0 && s.phase[c] != Waiting
    ensures forall e: Edge :: IsEdge(s.x.g, e) ==> e in s.applied
  {
    forall c: nat | c < |s.x.g| ensures Ended(s.phase[c]) {
      if c != s.x.terminal { TerminalIsLast(s, c); }
    }
    NotResetting(s);
    forall c: nat | c < |s.x.g| ensures s.dep[c] == 0 { CounterIsExact(s, c); }
    forall e: Edge | IsEdge(s.x.g, e) ensures e in s.applied {
      assert Unblocked(s, Target(s.x.g, e));
      assert e in InEdges(s.x.g, Target(s.x.g, e));
    }
    OrderIsAll(s);
  }

  lemma NotResetting(s: State)
    requires Inv(s) && s.flag
    ensures !s.host.Reset?
  {
    assert Ended(s.phase[s.x.terminal]);
  }

  lemma OrderIsAll(s: State)
    requires Shape(s) && MemOk(s) && forall c: nat :: c < |s.x.g| ==> Ended(s.phase[c])
    ensures Topological(s.x.g, s.order)
  {}

  /** A batch that holds the terminal holds nothing else and has nothing to decrement. */
  lemma TerminalStandsAlone(s: State, u: Unit, s': State)
    requires Inv(s) && Step(s, DoEnd(u), s') && s.x.terminal in At(s, u).ids
    ensures At(s, u).ids == [s.x.terminal] && s'.flag
    ensures At(s', u) == Commit([s.x.terminal], [], 0)
    ensures forall t: nat :: t < |s.x.g| && t != s.x.terminal ==> Ended(s.phase[t])
  {
    assert ThreadOk(s, u);
    var z := s.x.terminal;
    assert z in Sinks(s.x.g);
    assert s.phase[At(s, u).ids[0]] == Taken(u, Done);
    forall t: nat | t < |s.x.g| && t != z ensures Ended(s.phase[t]) { TerminalIsLast(s, t); }
    EdgeListOfSink(s.x.g, z, u.Gpu?);
  }

  lemma EdgeListOfSink(g: Graph, z: nat, gpu: bool)
    requires z < |g| && g[z] == []
    ensures Groups(g, [z], gpu) == []
  {
    assert [z][..0] == [];
    assert EdgeList(g, [z]) == [];
  }

  /** Steps of the engines, as opposed to the host's. */
  predicate EngineStep(op: Op) {
    op.DoClaim? || op.DoStart? || op.DoFinish? || op.DoEnd? || op.DoDecrement? || op.DoPublish? || op.DoCount?
  }

  lemma QuietThreads(s: State)
    requires Inv(s) && (s.host.Returned? || s.host.Reset?)
    ensures forall u :: At(s, u) == Idle
  {
    forall u ensures At(s, u) == Idle { BusyTask(s, u); }
  }

  lemma QuietQueues(s: State, q: QueueId)
    requires Shape(s) && QueuesOk(s) && HostOk(s) && (s.host.Returned? || s.host.Reset?)
    ensures In(s, q) == multiset{}
  {
    forall t: nat ensures In(s, q)[t] == 0 {
      assert t < |s.x.g| ==> s.phase[t] != Queued;
    }
  }

  /**
    Once run() has seen done_flag and n_done == n, and until the next run publishes its
    roots, no engine can touch the task table.
   */
  lemma QuietBetweenRuns(s: State, op: Op, s': State)
    requires Inv(s) && (s.host.Returned? || s.host.Reset?) && EngineStep(op)
    ensures !Step(s, op, s')
  {
    if op.DoClaim? {
      QuietQueues(s, op.q);
      NothingToClaim(op.ids);
    } else {
      QuietThreads(s);
      assert At(s, op.u) == Idle;
    }
  }

  lemma NothingToClaim(ids: seq<nat>)
    ensures multiset(ids) <= multiset{} ==> ids == []
  {
    assert ids != [] ==> ids[0] in multiset(ids);
  }

  /** Counting a run complete is exact: the host returns only when every task is retired. */
  lemma ReturnedMeansRetired(s: State)
    requires Inv(s) && s.host.Returned?
    ensures s.nDone == |s.x.g| && s.flag
    ensures forall u :: At(s, u) == Idle
    ensures forall q :: In(s, q) == multiset{}
  {
    NothingHeld(s);
    assert RetiredSet(s) == Upto(|s.x.g|);
  }

  /** The memory a run leaves is the one run_serial leaves, whatever the interleaving and the batches. */
  lemma MemoryIsSerial(s: State, order: seq<nat>)
    requires Inv(s) && s.host.Returned? && Topological(s.x.g, order)
    ensures AllTasks(s.x.work, order) && s.mem == SerialExec.Exec(s.x.work, s.start, order)
    ensures Leaves(s.x.work, s.start, order, s.mem)
  {
    ReturnedMeansRetired(s);
    DoneFlagMeansAllFinished(s);
    TopologicalOrdersAgree(s.x.g, s.x.work, s.start, s.order, order);
    RunLeaves(s.x.work, s.start, order);
  }

  /**
    Tiles that accumulate into y lose nothing: y ends as its start value and all they
    add, whatever the interleaving.
   */
  lemma TilesAddUp(s: State, order: seq<nat>, y: Loc, plus: (Val, Val) -> Val, inc: (nat, Mem) -> Val)
    requires Inv(s) && s.host.Returned? && Topological(s.x.g, order)
    requires y in s.start && Accumulates(s.x.work, y, plus, inc)
    ensures AllTasks(s.x.work, order) && y in s.mem
    ensures s.mem[y] == Total(s.x.work, s.start, order, y, plus, inc)
  {
    MemoryIsSerial(s, order);
    RunMemory.TilesAddUp(s.x.work, s.start, order, y, plus, inc);
  }

  // --------------------------------------------------------------- progress

  /** A thread that holds tasks always has a step to take. */
  lemma ThreadNeverStuck(s: State, u: Unit) returns (op: Op, s': State)
    requires Inv(s) && At(s, u) != Idle
    ensures EngineStep(op) && Step(s, op, s')
  {
    assert ThreadOk(s, u);
    match At(s, u)
    case Exec(ids, bodies) =>
      if i :| 0 <= i < |bodies| && bodies[i].Held? {
        op, s' := DoStart(u, i), Start(s, u, i);
      } else if i :| 0 <= i < |bodies| && bodies[i].Running? {
        op, s' := DoFinish(u, i), Finish(s, u, i);
      } else {
        assert AllDone(bodies);
        op, s' := DoEnd(u), EndBodies(s, u);
      }
    case Commit(ids, gs, j) =>
      if j < |gs| {
        TargetWaits(s, u);
        op, s' := DoDecrement(u), Decrement(s, u);
      } else {
        op, s' := DoCount(u), CountDone(s, u);
      }
    case Push(ids, gs, j) =>
      op, s' := DoPublish(u), Publish(s, u);
  }

  /** The host polling an unfinished run. */
  predicate Spins(s: State, op: Op) { (op.LoadFlag? || op.LoadCount?) && !(s.flag && s.nDone == |s.x.g|) }

  predicate Advances(s: State, op: Op) { !op.NextRun? && !Spins(s, op) }

  /** No task of this run is routed to a queue that nobody pops. */
  predicate AllServed(x: Setup) { forall t :: 0 <= t < |x.info| ==> !Stranded(x.cfg, x.info[t]) }

  /** Until run() returns, some step other than polling is enabled. */
  lemma NoStall(s: State) returns (op: Op, s': State)
    requires Inv(s) && AllServed(s.x) && !s.host.Returned?
    ensures Step(s, op, s') && Advances(s, op)
  {
    if s.host.Reset? {
      op, s' := DoReset, if s.host.i < |s.x.g| then ResetOne(s, s.host.i) else s.(host := Scan(0));
    } else if s.host.Scan? {
      op, s' := DoScan, if s.host.i < |s.x.g| then ScanOne(s, s.host.i) else s.(host := AwaitFlag);
    } else if u :| At(s, u) != Idle {
      op, s' := ThreadNeverStuck(s, u);
    } else if t: nat :| t < |s.x.g| && s.phase[t] == Queued {
      op, s' := SomeoneClaims(s, t);
    } else {
      NobodyWaits(s);
      assert RetiredSet(s) == Upto(|s.x.g|);
      op := if s.host.AwaitFlag? then LoadFlag else LoadCount;
      s' := s.(host := if s.host.AwaitFlag? then AwaitCount else Returned);
    }
  }

  lemma SomeoneClaims(s: State, t: nat) returns (op: Op, s': State)
    requires Inv(s) && AllServed(s.x) && t < |s.x.g| && s.phase[t] == Queued && forall u :: At(s, u) == Idle
    ensures EngineStep(op) && Step(s, op, s')
  {
    var q := DestOf(s, t, false);
    ServedUnlessStranded(s.x.cfg, s.x.info[t], t);
    var u :| Live(s.x.cfg, u) && Polls(s.x.cfg, u, q);
    assert In(s, q)[t] == 1;
    assert multiset([t]) <= In(s, q);
    op, s' := DoClaim(u, q, [t]), Claim(s, u, q, [t]);
  }

  /** With idle engines, empty queues and the roots published, every task is retired. */
  lemma NobodyWaits(s: State)
    requires Inv(s) && !s.host.Reset? && !s.host.Scan? && (forall u :: At(s, u) == Idle)
    requires forall t: nat :: t < |s.x.g| ==> s.phase[t] != Queued
    ensures forall t: nat :: t < |s.x.g| ==> s.phase[t] == Retired
  {
    forall t: nat | t < |s.x.g| ensures s.phase[t] == Retired || s.phase[t] == Waiting { assert TaskOk(s, t); }
    var stuck := set t: nat | t < |s.x.g| && s.phase[t] == Waiting;
    if stuck != {} {
      var c := SourceOf(s.x.g, stuck);
      forall e | e in InEdges(s.x.g, c) ensures e in s.applied {
        assert Arc(s.x.g, e.0, c);
        assert e.0 !in stuck;
      }
      var unblocked := Unblocked(s, c);
    }
    forall t: nat | t < |s.x.g| ensures s.phase[t] == Retired { assert t !in stuck; }
  }

  // ------------------------------------------------------------ termination

  function Work1(p: Phase): nat {
    match p
    case Waiting => 7
    case Pending(_) => 6
    case Queued => 5
    case Taken(_, Held) => 4
    case Taken(_, Running(_)) => 3
    case Taken(_, Done) => 2
    case Leaving(_) => 1
    case Retired => 0
  }

  function WorkLeft(ph: seq<Phase>): nat {
    if ph == [] then 0 else Work1(ph[0]) + WorkLeft(ph[1..])
  }

  /** No task moves back. */
  ghost predicate Forward(a: seq<Phase>, b: seq<Phase>) {
    |a| == |b| && forall t :: 0 <= t < |a| ==> Work1(b[t]) <= Work1(a[t])
  }

  lemma {:induction false} ForwardLess(a: seq<Phase>, b: seq<Phase>, t: nat)
    requires Forward(a, b)
    ensures WorkLeft(b) <= WorkLeft(a)
    ensures t < |a| && Work1(b[t]) < Work1(a[t]) ==> WorkLeft(b) < WorkLeft(a)
  {
    if a != [] { ForwardLess(a[1..], b[1..], if t > 0 then t - 1 else |a|); }
  }

  function HostLeft(s: State): nat {
    match s.host
    case Reset(i) => (if i <= |s.x.g| then |s.x.g| - i else 0) + |s.x.g| + 4
    case Scan(i) => (if i <= |s.x.g| then |s.x.g| - i else 0) + 3
    case AwaitFlag => 2
    case AwaitCount => if s.nDone == |s.x.g| then 1 else 2
    case Returned => 0
  }

  /** Phase steps, decrements and host steps still to come. */
  ghost function Measure(s: State): nat { WorkLeft(s.phase) + |AllEdges(s.x.g) - s.applied| + HostLeft(s) }

  lemma NDoneBound(s: State)
    requires Shape(s) && FlagOk(s)
    ensures s.nDone <= |s.x.g|
  {
    SubsetSize(RetiredSet(s), Upto(|s.x.g|));
  }

  lemma ClaimForward(s: State, u: Unit, q: QueueId, ids: seq<nat>, s': State)
    requires Shape(s) && QueuesOk(s) && Step(s, DoClaim(u, q, ids), s')
    ensures WorkLeft(s'.phase) < WorkLeft(s.phase)
  {
    Claimable(s, q, ids);
    assert ids[0] in ids;
    ForwardLess(s.phase, s'.phase, ids[0]);
  }

  lemma {:induction false} MarkForward(ph: seq<Phase>, ids: seq<nat>, p: Phase)
    requires ids != [] && forall t: nat :: t in ids ==> t < |ph| && Work1(p) < Work1(ph[t])
    ensures WorkLeft(Mark(ph, ids, p)) < WorkLeft(ph)
  {
    assert ids[0] in ids;
    ForwardLess(ph, Mark(ph, ids, p), ids[0]);
  }

  lemma EndForward(s: State, u: Unit, s': State)
    requires Shape(s) && ThreadsOk(s) && Step(s, DoEnd(u), s')
    ensures WorkLeft(s'.phase) < WorkLeft(s.phase)
  {
    assert ThreadOk(s, u);
    EndThread(s, s', u);
    MarkForward(s.phase, At(s, u).ids, Leaving(u));
  }

  lemma CountForward(s: State, u: Unit, s': State)
    requires Shape(s) && ThreadOk(s, u) && Step(s, DoCount(u), s')
    ensures WorkLeft(s'.phase) < WorkLeft(s.phase)
  {
    assert ThreadOk(s, u);
    CountThread(s, s', u);
    MarkForward(s.phase, At(s, u).ids, Retired);
  }

  lemma SetForward(ph: seq<Phase>, t: nat, p: Phase)
    requires t < |ph| && Work1(p) < Work1(ph[t])
    ensures WorkLeft(ph[t := p]) < WorkLeft(ph)
  {
    ForwardLess(ph, ph[t := p], t);
  }

  lemma StartForward(s: State, u: Unit, i: nat, s': State)
    requires Shape(s) && ThreadOk(s, u) && Step(s, DoStart(u, i), s')
    ensures WorkLeft(s'.phase) < WorkLeft(s.phase)
  {
    SetForward(s.phase, At(s, u).ids[i], Taken(u, Running(Snapshot(s.x.work, s.mem, At(s, u).ids[i]))));
  }

  lemma FinishForward(s: State, u: Unit, i: nat, s': State)
    requires Shape(s) && ThreadOk(s, u) && Step(s, DoFinish(u, i), s')
    ensures WorkLeft(s'.phase) < WorkLeft(s.phase)
  {
    SetForward(s.phase, At(s, u).ids[i], Taken(u, Done));
  }

  lemma PublishForward(s: State, u: Unit, s': State)
    requires Shape(s) && ThreadOk(s, u) && Step(s, DoPublish(u), s')
    ensures WorkLeft(s'.phase) < WorkLeft(s.phase)
  {
    SetForward(s.phase, At(s, u).gs[At(s, u).j].cid, Queued);
  }

  lemma FewerLeft(all: set<Edge>, R: set<Edge>, more: set<Edge>)
    requires more <= all && more != {} && more !! R
    ensures |all - (R + more)| < |all - R|
  {
    assert all - R == (all - (R + more)) + more;
  }

  lemma DecrementEffect(s: State, u: Unit, s': State)
    requires Step(s, DoDecrement(u), s')
    ensures var x := At(s, u).gs[At(s, u).j];
            && s'.applied == s.applied + x.edges && x.cid < |s.phase|
            && (s'.phase == s.phase || s'.phase == s.phase[x.cid := Pending(On(u))])
  {}

  lemma DecrementForward(s: State, u: Unit, s': State)
    requires Inv(s) && Step(s, DoDecrement(u), s')
    ensures WorkLeft(s'.phase) <= WorkLeft(s.phase)
    ensures |AllEdges(s.x.g) - s'.applied| < |AllEdges(s.x.g) - s.applied|
  {
    DecrementEffect(s, u, s');
    assert ThreadOk(s, u);
    TargetWaits(s, u);
    WakeForward(s.phase, s'.phase, At(s, u).gs[At(s, u).j].cid, Pending(On(u)));
    FreshEdges(s, u);
  }

  lemma FreshEdges(s: State, u: Unit)
    requires Shape(s) && EdgesOk(s) && ThreadOk(s, u) && At(s, u).Commit? && At(s, u).j < |At(s, u).gs|
    ensures var x := At(s, u).gs[At(s, u).j]; |AllEdges(s.x.g) - (s.applied + x.edges)| < |AllEdges(s.x.g) - s.applied|
  {
    GroupFresh(s, u);
    var x := At(s, u).gs[At(s, u).j];
    EdgesAreAll(s.x.g, x.edges);
    FewerLeft(AllEdges(s.x.g), s.applied, x.edges);
  }

  lemma EdgesAreAll(g: Graph, es: set<Edge>)
    requires forall e: Edge :: e in es ==> IsEdge(g, e)
    ensures es <= AllEdges(g)
  {}

  lemma WakeForward(a: seq<Phase>, b: seq<Phase>, c: nat, p: Phase)
    requires c < |a| && a[c] == Waiting && p.Pending? && (b == a || b == a[c := p])
    ensures WorkLeft(b) <= WorkLeft(a)
  {
    ForwardLess(a, b, c);
  }

  lemma ScanForward(s: State, s': State)
    requires Shape(s) && HostOk(s) && Step(s, DoScan, s')
    ensures WorkLeft(s'.phase) <= WorkLeft(s.phase)
  {
    var i := s.host.i;
    if i < |s.x.g| && Root(s.x.g, i) {
      assert s.phase[i] == Pending(Host);
      assert s'.phase == s.phase[i := Queued];
      ForwardLess(s.phase, s'.phase, i);
    }
  }

  /** The work of a step that is not the host's. */
  lemma EngineForward(s: State, op: Op, s': State)
    requires Inv(s) && Step(s, op, s') && EngineStep(op)
    ensures WorkLeft(s'.phase) + |AllEdges(s.x.g) - s'.applied| < WorkLeft(s.phase) + |AllEdges(s.x.g) - s.applied|
    ensures s'.x == s.x && s'.host == s.host && s.nDone <= s'.nDone
  {
    match op
    case DoClaim(u, q, ids) => ClaimForward(s, u, q, ids, s');
    case DoStart(u, i) => assert ThreadOk(s, u); StartForward(s, u, i, s');
    case DoFinish(u, i) => assert ThreadOk(s, u); FinishForward(s, u, i, s');
    case DoEnd(u) => EndForward(s, u, s');
    case DoDecrement(u) => assert ThreadOk(s, u); DecrementForward(s, u, s');
    case DoPublish(u) => assert ThreadOk(s, u); PublishForward(s, u, s');
    case DoCount(u) => assert ThreadOk(s, u); CountForward(s, u, s');
    case _ =>
  }

  lemma HostForward(s: State, op: Op, s': State)
    requires Shape(s) && HostOk(s) && Step(s, op, s') && !op.NextRun? && !EngineStep(op)
    ensures WorkLeft(s'.phase) <= WorkLeft(s.phase) && s'.applied == s.applied && s'.x == s.x && s'.nDone == s.nDone
    ensures Advances(s, op) ==> HostLeft(s') < HostLeft(s)
    ensures HostLeft(s') <= HostLeft(s)
  {
    if op.DoScan? { ScanForward(s, s'); }
  }

  /** Within a run every step but polling lowers the measure, and polling does not raise it. */
  lemma MeasureFalls(s: State, op: Op, s': State)
    requires Inv(s) && Inv(s') && Step(s, op, s') && !op.NextRun?
    ensures Advances(s, op) ==> Measure(s') < Measure(s)
    ensures Measure(s') <= Measure(s)
  {
    if EngineStep(op) {
      EngineForward(s, op, s');
      NDoneBound(s');
      AwaitForward(s, s');
    } else {
      HostForward(s, op, s');
    }
  }

  lemma AwaitForward(s: State, s': State)
    requires s'.x == s.x && s'.host == s.host && s.nDone <= s'.nDone <= |s.x.g|
    ensures HostLeft(s') <= HostLeft(s)
  {}

  /** Steps other than polling in a stretch of a run. */
  ghost function Advancing(tr: seq<State>, ops: seq<Op>): nat
    requires |tr| == |ops| + 1
    decreases |ops|
  {
    if ops == [] then 0
    else Advancing(tr[..|tr| - 1], ops[..|ops| - 1]) + (if Advances(tr[|tr| - 2], ops[|ops| - 1]) then 1 else 0)
  }

  lemma PrefixSteps(tr: seq<State>, ops: seq<Op>)
    requires Steps(tr, ops) && ops != []
    ensures Steps(tr[..|tr| - 1], ops[..|ops| - 1])
  {
    var tr', ops' := tr[..|tr| - 1], ops[..|ops| - 1];
    forall i | 0 <= i < |ops'| ensures Step(tr'[i], ops'[i], tr'[i + 1]) {
      assert Step(tr[i], ops[i], tr[i + 1]);
    }
  }

  lemma LastStep(s: State, op: Op, s': State)
    requires Inv(s) && Step(s, op, s') && !op.NextRun?
    ensures Inv(s') && Measure(s') + (if Advances(s, op) then 1 else 0) <= Measure(s)
  {
    StepKeepsInv(s, op, s');
    MeasureFalls(s, op, s');
  }

  lemma LastOf(tr: seq<State>, ops: seq<Op>, n: nat)
    requires Steps(tr, ops) && n < |ops| && Inv(tr[n]) && !ops[n].NextRun?
    ensures Inv(tr[n + 1]) && Measure(tr[n + 1]) + (if Advances(tr[n], ops[n]) then 1 else 0) <= Measure(tr[n])
  {
    assert Step(tr[n], ops[n], tr[n + 1]);
    LastStep(tr[n], ops[n], tr[n + 1]);
  }

  ghost predicate WithinOneRun(ops: seq<Op>) { forall i :: 0 <= i < |ops| ==> !ops[i].NextRun? }

  /** No schedule can take more than Measure productive steps: a run that is not starved returns. */
  lemma {:induction false} RunsAreBounded(tr: seq<State>, ops: seq<Op>)
    requires Steps(tr, ops) && Inv(tr[0]) && WithinOneRun(ops)
    ensures Inv(tr[|tr| - 1]) && Advancing(tr, ops) + Measure(tr[|tr| - 1]) <= Measure(tr[0])
    decreases |ops|
  {
    if ops != [] {
      PrefixSteps(tr, ops);
      RunsAreBounded(tr[..|tr| - 1], ops[..|ops| - 1]);
      LastOf(tr, ops, |ops| - 1);
    }
  }

  /** run() returns: once a stretch has made as many productive steps as the measure allows, the host has returned. */
  lemma RunReturns(tr: seq<State>, ops: seq<Op>)
    requires Steps(tr, ops) && Inv(tr[0]) && WithinOneRun(ops) && Advancing(tr, ops) >= Measure(tr[0])
    ensures tr[|tr| - 1].host.Returned?
  {
    RunsAreBounded(tr, ops);
    assert HostLeft(tr[|tr| - 1]) == 0;
  }

  lemma OneNearer(s: State) returns (op: Op, s': State)
    requires Inv(s) && AllServed(s.x) && !s.host.Returned?
    ensures Step(s, op, s') && !op.NextRun? && Inv(s') && AllServed(s'.x) && Measure(s') < Measure(s)
  {
    op, s' := NoStall(s);
    LastStep(s, op, s');
    SameSetup(s, op, s');
  }

  /** ... and such a stretch exists: from any state the run can be driven to its return. */
  lemma {:induction false} RunCanReturn(s: State) returns (tr: seq<State>, ops: seq<Op>)
    requires Inv(s) && AllServed(s.x)
    ensures Steps(tr, ops) && WithinOneRun(ops) && tr[0] == s && tr[|tr| - 1].host.Returned?
    decreases Measure(s)
  {
    if s.host.Returned? {
      tr, ops := [s], [];
    } else {
      var op, s' := OneNearer(s);
      var tr', ops' := RunCanReturn(s');
      tr, ops := [s] + tr', [op] + ops';
      StepsAhead(s, op, tr', ops');
      assert tr[|tr| - 1] == tr'[|tr'| - 1];
    }
  }

  lemma SameSetup(s: State, op: Op, s': State)
    requires Step(s, op, s') && !op.NextRun?
    ensures s'.x == s.x
  {}

  lemma StepsAhead(s: State, op: Op, tr: seq<State>, ops: seq<Op>)
    requires Steps(tr, ops) && Step(s, op, tr[0]) && !op.NextRun? && WithinOneRun(ops)
    ensures Steps([s] + tr, [op] + ops) && WithinOneRun([op] + ops)
  {
    var tr', ops' := [s] + tr, [op] + ops;
    forall i | 0 <= i < |ops'| ensures Step(tr'[i], ops'[i], tr'[i + 1]) {
      if i > 0 { assert Step(tr[i - 1], ops[i - 1], tr[i]); }
    }
  }

  // ------------------------------------------------------------- stranding

  predicate Unclaimed(p: Phase) { p.Waiting? || p.Pending? || p.Queued? }

  lemma BatchesClaimNothing(s: State, op: Op, s': State, t: nat)
    requires Shape(s) && ThreadsOk(s) && Step(s, op, s') && (op.DoEnd? || op.DoCount?) && t < |s.phase|
      && Unclaimed(s.phase[t])
    ensures t < |s'.phase| && Unclaimed(s'.phase[t]) && s'.x == s.x
  {
    if op.DoEnd? { EndThread(s, s', op.u); } else { assert ThreadOk(s, op.u); CountThread(s, s', op.u); }
  }

  lemma OnlyClaimsClaim(s: State, op: Op, s': State, t: nat)
    requires Shape(s) && ThreadsOk(s) && Step(s, op, s') && EngineStep(op) && !op.DoClaim? && t < |s.phase|
      && Unclaimed(s.phase[t])
    ensures t < |s'.phase| && Unclaimed(s'.phase[t]) && s'.x == s.x
  {
    assert ThreadOk(s, op.u);
    if op.DoEnd? || op.DoCount? { BatchesClaimNothing(s, op, s', t); }
  }

  lemma ClaimsServed(s: State, op: Op, s': State, t: nat)
    requires Shape(s) && QueuesOk(s) && Step(s, op, s') && op.DoClaim?
    requires t < |s.x.info| && Stranded(s.x.cfg, s.x.info[t])
    ensures s'.x == s.x && s'.phase[t] == s.phase[t]
  {
    Claimable(s, op.q, op.ids);
    ServedUnlessStranded(s.x.cfg, s.x.info[t], t);
  }

  lemma ScanClaimsNothing(s: State, s': State, t: nat)
    requires Shape(s) && HostOk(s) && Step(s, DoScan, s') && t < |s.phase| && Unclaimed(s.phase[t])
    ensures t < |s'.phase| && Unclaimed(s'.phase[t]) && s'.x == s.x
  {
    assert s'.phase[t] == s.phase[t] || s'.phase[t] == Queued;
  }

  lemma HostClaimsNothing(s: State, op: Op, s': State, t: nat)
    requires Shape(s) && HostOk(s) && Step(s, op, s') && !op.NextRun? && !EngineStep(op)
    requires t < |s.phase| && Unclaimed(s.phase[t])
    ensures t < |s'.phase| && Unclaimed(s'.phase[t]) && s'.x == s.x
  {
    if op.DoScan? {
      ScanClaimsNothing(s, s', t);
    } else {
      assert s'.phase == s.phase;
    }
  }

  /** Task t is stranded and has not been claimed. */
  ghost predicate Stuck(s: State, t: nat) {
    Inv(s) && t < |s.x.info| && Stranded(s.x.cfg, s.x.info[t]) && Unclaimed(s.phase[t])
  }

  lemma StaysStuck(s: State, op: Op, s': State, t: nat)
    requires Stuck(s, t) && Step(s, op, s')
    ensures Stuck(s', t)
  {
    StepKeepsInv(s, op, s');
    if op.DoClaim? {
      ClaimsServed(s, op, s', t);
    } else if EngineStep(op) {
      OnlyClaimsClaim(s, op, s', t);
    } else {
      assert !op.NextRun?;
      HostClaimsNothing(s, op, s', t);
    }
  }

  lemma StuckNext(tr: seq<State>, ops: seq<Op>, t: nat, i: nat)
    requires Steps(tr, ops) && 0 < i < |tr| && Stuck(tr[i - 1], t)
    ensures Stuck(tr[i], t)
  {
    assert Step(tr[i - 1], ops[i - 1], tr[i - 1 + 1]);
    StaysStuck(tr[i - 1], ops[i - 1], tr[i], t);
  }

  lemma StuckIsOut(s: State, t: nat)
    requires Stuck(s, t)
    ensures !s.host.Returned?
  {
    assert s.phase[t] != Retired;
  }

  lemma {:induction false} AlwaysStuck(tr: seq<State>, ops: seq<Op>, t: nat, i: nat)
    requires Steps(tr, ops) && Stuck(tr[0], t) && i < |tr|
    ensures Stuck(tr[i], t)
  {
    if i > 0 {
      AlwaysStuck(tr, ops, t, i - 1);
      StuckNext(tr, ops, t, i);
    }
  }

  /** A stranded task is never claimed, so its run never returns: AllServed is necessary for progress. */
  lemma StrandedNeverRuns(tr: seq<State>, ops: seq<Op>, t: nat, i: nat)
    requires Steps(tr, ops) && Stuck(tr[0], t) && i < |tr|
    ensures t < |tr[i].phase| && Unclaimed(tr[i].phase[t]) && !tr[i].host.Returned?
  {
    AlwaysStuck(tr, ops, t, i);
    StuckIsOut(tr[i], t);
  }

  /** A graph of one task, the terminal. */
  function Lone(t: TaskInfo, cfg: Config, eff: (nat, Loc, Mem) -> Val): Setup {
    Setup([[]], 0, Work([{}], [{}], eff), [t], cfg)
  }

  lemma LoneOk(t: TaskInfo, cfg: Config, eff: (nat, Loc, Mem) -> Val)
    requires t.kind == SIGNAL && ConfigOk(cfg)
    ensures SetupOk(Lone(t, cfg, eff))
  {
    var x := Lone(t, cfg, eff);
    assert Topological(x.g, [0]);
    TopologicalIsAcyclic(x.g, [0]);
    assert Sinks(x.g) == {0};
  }

  /** Every configuration that can strand the terminal has a fresh runtime that never returns. */
  lemma StrandedRun(t: TaskInfo, cfg: Config, eff: (nat, Loc, Mem) -> Val) returns (s: State)
    requires t.kind == SIGNAL && ConfigOk(cfg) && Stranded(cfg, t)
    ensures Boots(s) && s.x.cfg == cfg && Stuck(s, 0)
    ensures forall tr: seq<State>, ops, i :: Steps(tr, ops) && tr[0] == s && 0 <= i < |tr| ==> !tr[i].host.Returned?
  {
    var x, mem: Mem := Lone(t, cfg, eff), map[];
    LoneOk(t, cfg, eff);
    s := Begin(x, [0], map[], map[], mem);
    assert |[0]| == |x.g| && s == Begin(x, [0], map[], map[], mem);
    BeginInv(x, [0], map[], map[], mem);
    forall tr: seq<State>, ops, i | Steps(tr, ops) && tr[0] == s && 0 <= i < |tr| ensures !tr[i].host.Returned? {
      StrandedNeverRuns(tr, ops, 0, i);
    }
  }

  /** The four ways: no workers and no GPU, a decode op or a pinned tile without workers, a GPU tile without GPU. */
  lemma StrandedWitnesses()
    ensures var c := Config(false, false, 1, false, 0, 0, 1); ConfigOk(c) && Stranded(c, TaskInfo(SIGNAL, F32, CPU))
    ensures var c := Config(true, false, 1, false, 4, 0, 1); ConfigOk(c) && Stranded(c, TaskInfo(KV_APPEND, F32, CPU))
    ensures var c := Config(true, false, 1, true, 4, 0, 1); ConfigOk(c) && Stranded(c, TaskInfo(SIGNAL, F32, CPU))
    ensures var c := Config(false, false, 1, true, 0, 12, 1); ConfigOk(c) && Stranded(c, TaskInfo(SIGNAL, F32, GPU))
  {}
}
