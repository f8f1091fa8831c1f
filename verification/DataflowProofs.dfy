/** Every step of the dataflow protocol keeps its invariant. */
module DataflowSafety {
  import opened TaskTypes
  import opened TaskGraph
  import opened TaskTable
  import opened SerialExec
  import opened Epilogue
  import opened Routing
  import opened Dataflow

  // ------------------------------------------------------------ small facts

  lemma RootIs(g: Graph, t: nat)
    ensures Root(g, t) <==> InEdges(g, t) == {}
  {
    if !Root(g, t) {
      var p: nat :| p < |g| && t in g[p];
      var k :| 0 <= k < |g[p]| && g[p][k] == t;
      assert (p, k) in InEdges(g, t);
    }
  }

  /** Both publishers send a task to the same queue: a device thread runs only when the GPU is on. */
  lemma SameDest(s: State, t: nat, u: Unit)
    requires t < |s.x.info| && ConfigOk(s.x.cfg) && Live(s.x.cfg, u)
    ensures DestOf(s, t, u.Gpu?) == DestOf(s, t, false)
  {}

  lemma InArc(g: Graph, p: nat, c: nat) returns (e: Edge)
    requires Arc(g, p, c)
    ensures e in InEdges(g, c) && e.0 == p
  {
    var k :| 0 <= k < |g[p]| && g[p][k] == c;
    e := (p, k);
  }

  lemma {:induction false} CountOf(ids: seq<nat>, i: nat, j: nat)
    requires i < j < |ids| && ids[i] == ids[j]
    ensures multiset(ids)[ids[i]] >= 2
  {
    assert ids == ids[..j] + [ids[j]] + ids[j + 1..];
    assert ids[..j][i] == ids[i];
  }

  /** Claimed ids are distinct, queued, and were in this queue. */
  lemma Claimable(s: State, q: QueueId, ids: seq<nat>)
    requires Shape(s) && QueuesOk(s) && multiset(ids) <= In(s, q)
    ensures Distinct(ids) && Tasks(s.x.g, ids)
    ensures forall t: nat :: t in ids ==> t < |s.x.g| && s.phase[t] == Queued && q == DestOf(s, t, false)
  {
    forall t: nat | t in ids ensures t < |s.x.g| && s.phase[t] == Queued && q == DestOf(s, t, false) {
      assert multiset(ids)[t] <= In(s, q)[t];
    }
    forall i, j | 0 <= i < j < |ids| ensures ids[i] != ids[j] {
      assert multiset(ids)[ids[i]] <= In(s, q)[ids[i]] <= 1;
      if ids[i] == ids[j] { CountOf(ids, i, j); }
    }
    forall i | 0 <= i < |ids| ensures ids[i] < |s.x.g| { assert ids[i] in ids; }
  }

  /** Everything upstream of a task that no longer waits has finished and is committing or committed. */
  lemma {:induction false} Upstream(s: State, t: nat, c: nat, len: nat)
    requires Shape(s) && EdgesOk(s) && WaitingOk(s) && Walk(s.x.g, t, c, len)
    requires c < |s.x.g| && s.phase[c] != Waiting
    ensures t < |s.x.g| && Ended(s.phase[t])
    decreases len
  {
    var g := s.x.g;
    WalkLast(g, t, c, len);
    var m :| Arc(g, m, c) && (if len == 1 then m == t else Walk(g, t, m, len - 1));
    var e := InArc(g, m, c);
    assert Unblocked(s, c);
    assert e in s.applied;
    if len > 1 { Upstream(s, t, m, len - 1); }
  }

  lemma UpstreamOf(s: State, t: nat, c: nat)
    requires Shape(s) && EdgesOk(s) && WaitingOk(s) && Before(s.x.g, t, c)
    requires c < |s.x.g| && s.phase[c] != Waiting
    ensures t < |s.x.g| && Ended(s.phase[t])
  {
    var len :| Walk(s.x.g, t, c, len);
    Upstream(s, t, c, len);
  }

  /** Once the terminal is enabled, every other task has finished. */
  lemma TerminalIsLast(s: State, t: nat)
    requires Shape(s) && EdgesOk(s) && WaitingOk(s) && t < |s.x.g| && t != s.x.terminal
    requires s.phase[s.x.terminal] != Waiting
    ensures Ended(s.phase[t])
  {
    ReachesTerminal(s.x.g, Kinds(s.x.info), s.x.terminal, t);
    UpstreamOf(s, t, s.x.terminal);
  }

  // ----------------------------------------------------------------- frames

  /** Phases that a step of u may change. */
  predicate Mine(p: Phase, u: Unit) {
    p.Queued? || p.Waiting? || p == Pending(On(u)) || (p.Taken? && p.u == u) || p == Leaving(u)
  }

  /** s' is s after a step of unit u. */
  ghost predicate By(s: State, s': State, u: Unit) {
    && s'.x == s.x && s'.host == s.host && |s'.phase| == |s.phase|
    && (forall v :: v != u ==> At(s', v) == At(s, v))
    && (forall t: nat :: t < |s.phase| ==> s'.phase[t] == s.phase[t] || Mine(s.phase[t], u))
  }

  lemma PeerLeaving(s: State, s': State, u: Unit, v: Unit, ids: seq<nat>)
    requires By(s, s', u) && v != u && AreLeaving(s, v, ids)
    ensures AreLeaving(s', v, ids)
  {
    forall i | 0 <= i < |ids| ensures ids[i] < |s'.phase| && s'.phase[ids[i]] == Leaving(v) {
      assert s.phase[ids[i]] == Leaving(v);
    }
  }

  lemma PeerExec(s: State, s': State, u: Unit, v: Unit, ids: seq<nat>, bodies: seq<Body>)
    requires By(s, s', u) && v != u && |ids| == |bodies|
    requires forall i :: 0 <= i < |ids| ==> ids[i] < |s.phase| && s.phase[ids[i]] == Taken(v, bodies[i])
    ensures forall i :: 0 <= i < |ids| ==> ids[i] < |s'.phase| && s'.phase[ids[i]] == Taken(v, bodies[i])
  {
    forall i | 0 <= i < |ids| ensures ids[i] < |s'.phase| && s'.phase[ids[i]] == Taken(v, bodies[i]) {
      assert s.phase[ids[i]] == Taken(v, bodies[i]);
    }
  }

  lemma PeerThread(s: State, s': State, u: Unit, v: Unit)
    requires By(s, s', u) && v != u && ThreadOk(s, v)
    ensures ThreadOk(s', v)
  {
    match At(s, v)
    case Idle =>
    case Exec(ids, bodies) => PeerExec(s, s', u, v, ids, bodies);
    case Commit(ids, gs, j) => PeerLeaving(s, s', u, v, ids);
    case Push(ids, gs, j) => PeerLeaving(s, s', u, v, ids);
  }

  lemma PeerTask(s: State, s': State, u: Unit, t: nat)
    requires By(s, s', u) && t < |s.phase| && TaskOk(s, t)
    requires s'.phase[t] == s.phase[t] && (Mine(s.phase[t], u) ==> s.phase[t].Queued? || s.phase[t].Waiting?)
    ensures TaskOk(s', t)
  {}

  lemma ThreadsStay(s: State, s': State, u: Unit)
    requires By(s, s', u) && ThreadsOk(s) && ThreadOk(s', u)
    ensures ThreadsOk(s')
  {
    forall v ensures ThreadOk(s', v) {
      if v != u { PeerThread(s, s', u, v); }
    }
  }

  predicate Touched(s: State, s': State, u: Unit, t: nat)
    requires t < |s.phase| == |s'.phase|
  {
    s'.phase[t] != s.phase[t] || (Mine(s.phase[t], u) && !s.phase[t].Queued? && !s.phase[t].Waiting?)
  }

  lemma TasksStay(s: State, s': State, u: Unit)
    requires By(s, s', u) && TasksOk(s)
    requires forall t: nat {:trigger TaskOk(s', t)} :: t < |s.phase| && Touched(s, s', u, t) ==> TaskOk(s', t)
    ensures TasksOk(s')
  {
    forall t: nat | t < |s'.phase| ensures TaskOk(s', t) {
      if !Touched(s, s', u, t) { PeerTask(s, s', u, t); }
    }
  }

  /** Steps that apply no edge and do not change what is applied. */
  lemma EdgesStay(s: State, s': State)
    requires Shape(s) && Shape(s') && s'.x == s.x && s'.applied == s.applied && EdgesOk(s)
    requires forall e: Edge :: IsEdge(s.x.g, e) ==> AppliedNow(s', e) == AppliedNow(s, e)
    ensures EdgesOk(s')
  {}

  // ------------------------------------------------------------------ claim

  lemma ClaimMem(s: State, s': State, u: Unit, q: QueueId, ids: seq<nat>)
    requires Shape(s) && MemOk(s) && SnapsOk(s) && PubsOk(s) && QueuesOk(s) && CanClaim(s, u, q, ids)
      && s' == Claim(s, u, q, ids)
    ensures MemOk(s') && SnapsOk(s') && PubsOk(s')
  {
    Claimable(s, q, ids);
  }

  lemma ClaimRest(s: State, s': State, u: Unit, q: QueueId, ids: seq<nat>)
    requires Shape(s) && FlagOk(s) && HostOk(s) && CountersOk(s) && WaitingOk(s) && QueuesOk(s)
    requires CanClaim(s, u, q, ids) && s' == Claim(s, u, q, ids)
    ensures FlagOk(s') && HostOk(s') && CountersOk(s') && WaitingOk(s')
  {
    Claimable(s, q, ids);
    assert RetiredSet(s') == RetiredSet(s);
    assert s.phase[ids[0]] == Queued by { assert ids[0] in ids; }
  }

  lemma ClaimQueueAt(s: State, s': State, q: QueueId, ids: seq<nat>, u: Unit, r: QueueId, t: nat)
    requires Shape(s) && QueuesOk(s) && multiset(ids) <= In(s, q)
    requires s'.x == s.x && s'.queues == s.queues[q := In(s, q) - multiset(ids)]
      && s'.phase == Mark(s.phase, ids, Taken(u, Held))
    ensures In(s', r)[t] == if t < |s.x.g| && s'.phase[t] == Queued && r == DestOf(s', t, false) then 1 else 0
  {
    Claimable(s, q, ids);
    DistinctBag(ids, t);
    assert In(s, r)[t] == if t < |s.x.g| && s.phase[t] == Queued && r == DestOf(s, t, false) then 1 else 0;
  }

  lemma ClaimQueues(s: State, s': State, u: Unit, q: QueueId, ids: seq<nat>)
    requires Shape(s) && QueuesOk(s) && multiset(ids) <= In(s, q) && s' == Claim(s, u, q, ids)
    ensures QueuesOk(s')
  {
    forall r: QueueId, t: nat
      ensures In(s', r)[t] == if t < |s.x.g| && s'.phase[t] == Queued && r == DestOf(s', t, false) then 1 else 0
    {
      ClaimQueueAt(s, s', q, ids, u, r, t);
    }
  }

  lemma OnlyOne(ids: seq<nat>, z: nat)
    requires Distinct(ids) && z in ids && forall i :: 0 <= i < |ids| ==> ids[i] == z
    ensures ids == [z]
  {
    DistinctSize(ids);
    assert Elems(ids) == {z};
  }

  lemma ClaimBatch(s: State, s': State, u: Unit, q: QueueId, ids: seq<nat>)
    requires Inv(s) && CanClaim(s, u, q, ids) && s' == Claim(s, u, q, ids)
    ensures BatchOk(s', u, ids)
  {
    Claimable(s, q, ids);
    var z := s.x.terminal;
    if z in ids {
      assert s.phase[z] == Queued;
      forall i | 0 <= i < |ids| ensures ids[i] == z {
        assert ids[i] in ids;
        if ids[i] != z { TerminalIsLast(s, ids[i]); }
      }
      OnlyOne(ids, z);
    }
  }

  lemma ClaimEdges(s: State, s': State, u: Unit, q: QueueId, ids: seq<nat>)
    requires Shape(s) && EdgesOk(s) && TasksOk(s) && QueuesOk(s) && CanClaim(s, u, q, ids) && s' == Claim(s, u, q, ids)
    ensures EdgesOk(s')
  {
    Claimable(s, q, ids);
    forall e: Edge | IsEdge(s.x.g, e) ensures AppliedNow(s', e) == AppliedNow(s, e) {
      assert TaskOk(s, e.0);
    }
    EdgesStay(s, s');
  }

  lemma ClaimThread(s: State, s': State, u: Unit, q: QueueId, ids: seq<nat>)
    requires Shape(s) && QueuesOk(s) && CanClaim(s, u, q, ids) && s' == Claim(s, u, q, ids) && BatchOk(s', u, ids)
    ensures ThreadOk(s', u) && By(s, s', u)
  {
    Claimable(s, q, ids);
    forall i | 0 <= i < |ids| ensures ids[i] < |s.phase| && s'.phase[ids[i]] == Taken(u, Held) { assert ids[i] in ids; }
  }

  lemma ClaimTasks(s: State, s': State, u: Unit, q: QueueId, ids: seq<nat>)
    requires TasksOk(s) && At(s, u) == Idle && s' == Claim(s, u, q, ids) && By(s, s', u)
    ensures TasksOk(s')
  {
    forall t: nat | t < |s.phase| && Touched(s, s', u, t) ensures TaskOk(s', t) { assert TaskOk(s, t); }
    TasksStay(s, s', u);
  }

  lemma ClaimPlaces(s: State, s': State, u: Unit, q: QueueId, ids: seq<nat>)
    requires Inv(s) && CanClaim(s, u, q, ids) && s' == Claim(s, u, q, ids)
    ensures EdgesOk(s') && ThreadsOk(s') && TasksOk(s')
  {
    ClaimBatch(s, s', u, q, ids);
    ClaimEdges(s, s', u, q, ids);
    ClaimThread(s, s', u, q, ids);
    ThreadsStay(s, s', u);
    ClaimTasks(s, s', u, q, ids);
  }

  lemma ClaimKeeps(s: State, s': State, u: Unit, q: QueueId, ids: seq<nat>)
    requires Inv(s) && CanClaim(s, u, q, ids) && s' == Claim(s, u, q, ids)
    ensures Inv(s')
  {
    ClaimMem(s, s', u, q, ids);
    ClaimRest(s, s', u, q, ids);
    ClaimQueues(s, s', u, q, ids);
    ClaimPlaces(s, s', u, q, ids);
  }

  // ----------------------------------------------------------------- bodies

  /** What starting and finishing a body have in common: body i of u's batch moves to b. */
  ghost predicate BodyMoves(s: State, s': State, u: Unit, i: nat, b: Body) {
    && At(s, u).Exec? && i < |At(s, u).ids| && i < |At(s, u).bodies| && At(s, u).ids[i] < |s.phase|
    && s'.x == s.x && s'.host == s.host && s'.queues == s.queues && s'.applied == s.applied
    && s'.dep == s.dep && s'.flag == s.flag && s'.nDone == s.nDone && s'.pubs == s.pubs && s'.start == s.start
    && s'.threads == s.threads[u := At(s, u).(bodies := At(s, u).bodies[i := b])]
    && s'.phase == s.phase[At(s, u).ids[i] := Taken(u, b)]
  }

  lemma BodyPlaces(s: State, s': State, u: Unit, i: nat, b: Body)
    requires Inv(s) && BodyMoves(s, s', u, i, b)
    ensures EdgesOk(s') && ThreadsOk(s') && TasksOk(s')
  {
    var t := At(s, u).ids[i];
    assert ThreadOk(s, u);
    assert t in At(s, u).ids;
    EdgesStay(s, s');
    ThreadsStay(s, s', u);
    BodyTasks(s, s', u, i, b);
  }

  lemma BodyTasks(s: State, s': State, u: Unit, i: nat, b: Body)
    requires Shape(s) && ThreadsOk(s) && TasksOk(s) && BodyMoves(s, s', u, i, b)
    ensures TasksOk(s')
  {
    assert ThreadOk(s, u);
    var t := At(s, u).ids[i];
    assert At(s', u).ids == At(s, u).ids;
    forall x: nat | x < |s.phase| && Touched(s, s', u, x) ensures TaskOk(s', x) {
      assert TaskOk(s, x);
      if x == t { assert t in At(s, u).ids; }
    }
    TasksStay(s, s', u);
  }

  lemma BodyRest(s: State, s': State, u: Unit, i: nat, b: Body)
    requires Shape(s) && ThreadOk(s, u) && CountersOk(s) && WaitingOk(s) && HostOk(s) && BodyMoves(s, s', u, i, b)
    ensures CountersOk(s') && WaitingOk(s') && HostOk(s')
  {}

  lemma BodyCounts(s: State, s': State, u: Unit, i: nat, b: Body)
    requires Shape(s) && ThreadOk(s, u) && PubsOk(s) && FlagOk(s) && QueuesOk(s) && BodyMoves(s, s', u, i, b)
    ensures PubsOk(s') && FlagOk(s') && QueuesOk(s')
  {
    assert RetiredSet(s') == RetiredSet(s);
    QueuesStay(s, s');
  }

  lemma StartKeeps(s: State, s': State, u: Unit, i: nat)
    requires Inv(s) && Step(s, DoStart(u, i), s')
    ensures Inv(s')
  {
    var b := s'.threads[u].bodies[i];
    assert BodyMoves(s, s', u, i, b);
    BodyPlaces(s, s', u, i, b);
    assert ThreadOk(s, u);
    BodyRest(s, s', u, i, b);
    BodyCounts(s, s', u, i, b);
    StartMem(s, s', u, i);
  }

  lemma StartMem(s: State, s': State, u: Unit, i: nat)
    requires Shape(s) && ThreadOk(s, u) && MemOk(s) && SnapsOk(s) && Step(s, DoStart(u, i), s')
    ensures MemOk(s') && SnapsOk(s')
  {}

  /** All producers of a running task have finished. */
  lemma ProducersFinished(s: State, t: nat)
    requires Shape(s) && EdgesOk(s) && WaitingOk(s) && MemOk(s) && t < |s.x.g| && s.phase[t] != Waiting
    ensures ProducersIn(s.x.g, t, s.order)
  {
    forall p: nat | Arc(s.x.g, p, t) ensures p in s.order {
      ArcBefore(s.x.g, p, t);
      UpstreamOf(s, p, t);
    }
  }

  lemma FinishMem(s: State, s': State, u: Unit, i: nat)
    requires Inv(s) && Step(s, DoFinish(u, i), s')
    ensures MemOk(s')
  {
    assert ThreadOk(s, u);
    var t, k := At(s, u).ids[i], s.x.work;
    ProducersFinished(s, t);
    LinearAppend(s.x.g, s.order, t);
    RunOneMore(k, s.start, s.order, t);
    assert s'.mem == Exec1(k, s.mem, t);
    OrderGrows(s, s', t);
  }

  lemma RunOneMore(k: Work, m: Mem, order: seq<nat>, t: nat)
    requires AllTasks(k, order) && t < |k.ins|
    ensures AllTasks(k, order + [t]) && SerialExec.Exec(k, m, order + [t]) == Exec1(k, SerialExec.Exec(k, m, order), t)
  {
    ExecAppend(k, m, order, [t]);
  }

  lemma OrderGrows(s: State, s': State, t: nat)
    requires t < |s.phase| && s'.order == s.order + [t] && |s'.phase| == |s.phase|
    requires forall x: nat :: x < |s.phase| && x != t ==> s'.phase[x] == s.phase[x]
    requires Finished(s'.phase[t])
    requires forall x: nat :: x in s.order <==> x < |s.phase| && Finished(s.phase[x])
    ensures forall x: nat :: x in s'.order <==> x < |s'.phase| && Finished(s'.phase[x])
  {}

  lemma FinishSnaps(s: State, s': State, u: Unit, i: nat)
    requires Inv(s) && Step(s, DoFinish(u, i), s')
    ensures SnapsOk(s')
  {
    var th := At(s, u);
    assert ThreadOk(s, u);
    var t, k := th.ids[i], s.x.work;
    forall c: nat | c < |s.x.g| && s'.phase[c].Taken? && s'.phase[c].body.Running?
      ensures s'.phase[c].body.snap == Snapshot(k, s'.mem, c)
    {
      assert c != t && s.phase[c] == s'.phase[c];
      if Before(s.x.g, t, c) { UpstreamOf(s, t, c); }
      if Before(s.x.g, c, t) { UpstreamOf(s, c, t); }
      assert Independent(k, t, c);
      SnapshotUnaffected(k, s.mem, c, t, th.bodies[i].snap);
    }
  }

  lemma FinishKeeps(s: State, s': State, u: Unit, i: nat)
    requires Inv(s) && Step(s, DoFinish(u, i), s')
    ensures Inv(s')
  {
    assert BodyMoves(s, s', u, i, Done);
    BodyPlaces(s, s', u, i, Done);
    assert ThreadOk(s, u);
    BodyRest(s, s', u, i, Done);
    BodyCounts(s, s', u, i, Done);
    FinishMem(s, s', u, i);
    FinishSnaps(s, s', u, i);
  }

  // ---------------------------------------------------------- end of bodies

  lemma EndEdges(s: State, s': State, u: Unit)
    requires Shape(s) && EdgesOk(s) && ThreadsOk(s) && TasksOk(s) && Step(s, DoEnd(u), s')
    ensures EdgesOk(s')
  {
    assert ThreadOk(s, u);
    var gs := At(s', u).gs;
    assert gs[..0] == [];
    forall e: Edge | IsEdge(s.x.g, e) ensures AppliedNow(s', e) == AppliedNow(s, e) {
      assert TaskOk(s, e.0);
      InBatch(At(s, u).ids, e.0);
    }
    EdgesStay(s, s');
  }

  lemma InBatch(ids: seq<nat>, t: nat)
    ensures t in ids <==> exists i :: 0 <= i < |ids| && ids[i] == t
  {}

  lemma EndThread(s: State, s': State, u: Unit)
    requires Shape(s) && ThreadsOk(s) && Step(s, DoEnd(u), s')
    ensures ThreadOk(s', u) && By(s, s', u)
    ensures forall t: nat :: t < |s.phase| ==> s'.phase[t] == if t in At(s, u).ids then Leaving(u) else s.phase[t]
    ensures forall t: nat :: t in At(s, u).ids ==> t < |s.phase| && s.phase[t] == Taken(u, Done)
  {
    assert ThreadOk(s, u);
    var ids := At(s, u).ids;
    forall t: nat | t in ids ensures t < |s.phase| && s.phase[t] == Taken(u, Done) {
      var i :| 0 <= i < |ids| && ids[i] == t;
    }
    forall i | 0 <= i < |ids| ensures ids[i] < |s.phase| && s'.phase[ids[i]] == Leaving(u) { assert ids[i] in ids; }
  }

  lemma EndTasks(s: State, s': State, u: Unit)
    requires ThreadsOk(s) && TasksOk(s) && Step(s, DoEnd(u), s') && By(s, s', u)
    ensures TasksOk(s')
  {
    forall t: nat | t < |s.phase| && Touched(s, s', u, t) ensures TaskOk(s', t) { assert TaskOk(s, t); }
    TasksStay(s, s', u);
  }

  lemma EndCounters(s: State, s': State, u: Unit)
    requires Shape(s) && ThreadsOk(s) && CountersOk(s) && WaitingOk(s) && Step(s, DoEnd(u), s')
    ensures CountersOk(s') && WaitingOk(s')
  {
    EndThread(s, s', u);
    forall c: nat | c < |s.x.g| ensures s'.phase[c] == Waiting <==> !Unblocked(s', c) {
      assert s.phase[c] == Waiting <==> !Unblocked(s, c);
    }
  }

  lemma EndHost(s: State, s': State, u: Unit)
    requires Shape(s) && ThreadsOk(s) && HostOk(s) && Step(s, DoEnd(u), s')
    ensures HostOk(s')
  {
    EndThread(s, s', u);
    assert ThreadOk(s, u);
    assert At(s, u).ids[0] in At(s, u).ids;
  }

  lemma EndFlag(s: State, s': State, u: Unit)
    requires Shape(s) && ThreadsOk(s) && PubsOk(s) && FlagOk(s) && Step(s, DoEnd(u), s')
    ensures PubsOk(s') && FlagOk(s')
  {
    EndThread(s, s', u);
    assert RetiredSet(s') == RetiredSet(s);
  }

  lemma EndMem(s: State, s': State, u: Unit)
    requires Inv(s) && Step(s, DoEnd(u), s')
    ensures MemOk(s') && SnapsOk(s') && QueuesOk(s')
  {
    EndThread(s, s', u);
    QueuesStay(s, s');
  }

  /** Steps that neither queue nor claim. */
  lemma QueuesStay(s: State, s': State)
    requires Shape(s) && Shape(s') && QueuesOk(s) && s'.x == s.x && s'.queues == s.queues
    requires forall t: nat :: t < |s.phase| ==> (s'.phase[t] == Queued <==> s.phase[t] == Queued)
    ensures QueuesOk(s')
  {
    forall q: QueueId, t: nat
      ensures In(s', q)[t] == if t < |s.x.g| && s'.phase[t] == Queued && q == DestOf(s', t, false) then 1 else 0
    {
      assert In(s, q)[t] == if t < |s.x.g| && s.phase[t] == Queued && q == DestOf(s, t, false) then 1 else 0;
    }
  }

  lemma EndKeeps(s: State, s': State, u: Unit)
    requires Inv(s) && Step(s, DoEnd(u), s')
    ensures Inv(s')
  {
    EndEdges(s, s', u);
    EndThread(s, s', u);
    ThreadsStay(s, s', u);
    EndTasks(s, s', u);
    EndCounters(s, s', u);
    EndHost(s, s', u);
    EndFlag(s, s', u);
    EndMem(s, s', u);
  }

  // -------------------------------------------------------------- decrement

  /** The edges a decrement accounts for are all still unapplied, and belong to the batch. */
  lemma GroupFresh(s: State, u: Unit)
    requires Shape(s) && EdgesOk(s) && ThreadOk(s, u) && At(s, u).Commit? && At(s, u).j < |At(s, u).gs|
    ensures var th := At(s, u); var x := th.gs[th.j];
            && GroupOk(s.x.g, x) && x.edges !! s.applied
            && Covered(th.gs[..th.j + 1]) == Covered(th.gs[..th.j]) + x.edges
            && forall e: Edge :: e in x.edges ==> IsEdge(s.x.g, e) && e.0 in th.ids
  {
    var th := At(s, u);
    GroupInBatch(s.x.g, th.ids, u.Gpu?, th.j);
    forall e: Edge | e in th.gs[th.j].edges ensures e !in s.applied {
      BatchEdge(s, u, e);
    }
  }

  lemma GroupInBatch(g: Graph, ids: seq<nat>, gpu: bool, j: nat)
    requires WellFormed(g) && Tasks(g, ids) && Distinct(ids) && j < |Groups(g, ids, gpu)|
    ensures var gs := Groups(g, ids, gpu);
            && GroupOk(g, gs[j]) && gs[j].edges !! Covered(gs[..j])
            && Covered(gs[..j + 1]) == Covered(gs[..j]) + gs[j].edges
            && forall e: Edge :: e in gs[j].edges ==> IsEdge(g, e) && e.0 in ids
  {
    EpilogueCovers(g, ids, gpu);
    PartitionedAt(g, Groups(g, ids, gpu), j);
  }

  lemma BatchEdge(s: State, u: Unit, e: Edge)
    requires Shape(s) && EdgesOk(s) && At(s, u).Commit? && AreLeaving(s, u, At(s, u).ids) && e.0 in At(s, u).ids
    requires At(s, u).j <= |At(s, u).gs|
    ensures e in s.applied <==> IsEdge(s.x.g, e) && e in Covered(At(s, u).gs[..At(s, u).j])
  {
    InBatch(At(s, u).ids, e.0);
  }

  /** One group off the counters. */
  lemma LeftAfter(g: Graph, c: nat, R: set<Edge>, x: Group)
    requires GroupOk(g, x) && x.edges !! R
    ensures Left(g, c, R + x.edges) == Left(g, c, R) - (if c == x.cid then x.cnt else 0)
    ensures c == x.cid ==> (Left(g, c, R) == x.cnt <==> InEdges(g, c) <= R + x.edges) && !(InEdges(g, c) <= R)
    ensures c != x.cid ==> (InEdges(g, c) <= R + x.edges <==> InEdges(g, c) <= R)
  {
    var a, b := InEdges(g, c) - R, InEdges(g, c) - (R + x.edges);
    forall e: Edge | e in x.edges ensures e in InEdges(g, x.cid) { assert Enters(g, e, x.cid); }
    if c == x.cid {
      assert a == b + x.edges;
      assert b !! x.edges;
      var e :| e in x.edges;
      assert e in InEdges(g, c) && e !in R;
      NoneLeft(g, c, R + x.edges);
    } else {
      assert a == b;
      NoneLeft(g, c, R + x.edges);
      NoneLeft(g, c, R);
    }
  }

  /** What is known about the consumer of a decrement. */
  lemma TargetWaits(s: State, u: Unit)
    requires Shape(s) && EdgesOk(s) && CountersOk(s) && WaitingOk(s) && HostOk(s)
    requires ThreadOk(s, u) && At(s, u).Commit? && At(s, u).j < |At(s, u).gs|
    ensures var x := At(s, u).gs[At(s, u).j];
            && x.cid < |s.phase| && s.phase[x.cid] == Waiting && !Root(s.x.g, x.cid)
            && s.dep[x.cid] == Left(s.x.g, x.cid, s.applied) && x.cid !in At(s, u).ids
    ensures !s.host.Reset?
  {
    GroupFresh(s, u);
    var th := At(s, u);
    TargetUnapplied(s.x.g, s.applied, th.gs[th.j]);
    assert s.phase[th.ids[0]] == Leaving(u);
    InBatch(th.ids, th.gs[th.j].cid);
  }

  lemma TargetUnapplied(g: Graph, R: set<Edge>, x: Group)
    requires GroupOk(g, x) && x.edges !! R
    ensures !(InEdges(g, x.cid) <= R) && !Root(g, x.cid)
  {
    LeftAfter(g, x.cid, R, x);
    RootIs(g, x.cid);
  }

  lemma DecrementEdges(s: State, s': State, u: Unit)
    requires Inv(s) && Step(s, DoDecrement(u), s')
    ensures EdgesOk(s')
  {
    assert ThreadOk(s, u);
    GroupFresh(s, u);
    TargetWaits(s, u);
    DecrementSent(s, s', u);
    DecrementAll(s, s', u);
  }

  lemma DecrementSent(s: State, s': State, u: Unit)
    requires Step(s, DoDecrement(u), s')
    requires var th := At(s, u); Covered(th.gs[..th.j + 1]) == Covered(th.gs[..th.j]) + th.gs[th.j].edges
    ensures Sent(At(s', u)) == Sent(At(s, u)) + At(s, u).gs[At(s, u).j].edges
  {}

  lemma DecrementAll(s: State, s': State, u: Unit)
    requires Shape(s) && EdgesOk(s) && ThreadOk(s, u) && TasksOk(s) && Step(s, DoDecrement(u), s')
    requires var th := At(s, u); var x := th.gs[th.j];
             && s.phase[x.cid] == Waiting && Sent(At(s', u)) == Sent(th) + x.edges
             && forall e: Edge :: e in x.edges ==> IsEdge(s.x.g, e) && e.0 in th.ids
    ensures EdgesOk(s')
  {
    forall e: Edge ensures e in s'.applied <==> IsEdge(s.x.g, e) && AppliedNow(s', e) {
      if IsEdge(s.x.g, e) { assert TaskOk(s, e.0); DecrementEdge(s, s', u, e); }
    }
  }

  lemma DecrementEdge(s: State, s': State, u: Unit, e: Edge)
    requires Step(s, DoDecrement(u), s') && IsEdge(s.x.g, e)
    requires Shape(s) && EdgesOk(s) && AreLeaving(s, u, At(s, u).ids) && TaskOk(s, e.0)
    requires var th := At(s, u); var x := th.gs[th.j];
             && s.phase[x.cid] == Waiting && Sent(At(s', u)) == Sent(th) + x.edges
             && forall e: Edge :: e in x.edges ==> IsEdge(s.x.g, e) && e.0 in th.ids
    ensures e in s'.applied <==> AppliedNow(s', e)
  {
    InBatch(At(s, u).ids, e.0);
  }

  lemma DecrementCounters(s: State, s': State, u: Unit)
    requires Inv(s) && Step(s, DoDecrement(u), s')
    ensures CountersOk(s') && WaitingOk(s')
  {
    assert ThreadOk(s, u);
    GroupFresh(s, u);
    TargetWaits(s, u);
    var x := At(s, u).gs[At(s, u).j];
    forall c: nat | c < |s.x.g|
      ensures s'.dep[c] == Left(s.x.g, c, s'.applied) && (s'.phase[c] == Waiting <==> !Unblocked(s', c))
    {
      LeftAfter(s.x.g, c, s.applied, x);
      assert s.dep[c] == Left(s.x.g, c, s.applied);
      assert s.phase[c] == Waiting <==> !Unblocked(s, c);
    }
  }

  lemma DecrementThread(s: State, s': State, u: Unit)
    requires Shape(s) && ThreadOk(s, u) && Step(s, DoDecrement(u), s')
    requires var x := At(s, u).gs[At(s, u).j]; s.phase[x.cid] == Waiting && x.cid !in At(s, u).ids
    ensures By(s, s', u) && ThreadOk(s', u)
  {
    var ids := At(s, u).ids;
    forall i | 0 <= i < |ids| ensures ids[i] < |s.phase| && s'.phase[ids[i]] == Leaving(u) { assert ids[i] in ids; }
  }

  lemma DecrementTasks(s: State, s': State, u: Unit)
    requires By(s, s', u) && TasksOk(s) && Step(s, DoDecrement(u), s')
    ensures TasksOk(s')
  {
    forall t: nat | t < |s.phase| && Touched(s, s', u, t) ensures TaskOk(s', t) { assert TaskOk(s, t); }
    TasksStay(s, s', u);
  }

  /** At most task c, which waited, becomes pending; nothing is queued, run or retired. */
  ghost predicate Wakes(s: State, s': State, c: nat) {
    && Shape(s) && s'.x == s.x && s'.host == s.host && !s.host.Reset? && s'.queues == s.queues && |s'.dep| == |s.dep|
    && s'.flag == s.flag && s'.nDone == s.nDone && s'.mem == s.mem && s'.start == s.start
    && s'.order == s.order && s'.pubs == s.pubs
    && c < |s.phase| && s.phase[c] == Waiting && !Root(s.x.g, c)
    && (s'.phase == s.phase || exists p: Phase :: p.Pending? && s'.phase == s.phase[c := p])
  }

  lemma WakesRest(s: State, s': State, c: nat)
    requires Wakes(s, s', c) && HostOk(s) && PubsOk(s) && FlagOk(s) && QueuesOk(s)
    ensures HostOk(s') && PubsOk(s') && FlagOk(s') && QueuesOk(s')
  {
    assert RetiredSet(s') == RetiredSet(s);
    QueuesStay(s, s');
  }

  lemma WakesMem(s: State, s': State, c: nat)
    requires Wakes(s, s', c) && MemOk(s) && SnapsOk(s)
    ensures MemOk(s') && SnapsOk(s')
  {}

  lemma DecrementWakes(s: State, s': State, u: Unit)
    requires Shape(s) && !s.host.Reset? && Step(s, DoDecrement(u), s')
    requires var c := At(s, u).gs[At(s, u).j].cid; s.phase[c] == Waiting && !Root(s.x.g, c)
    ensures Wakes(s, s', At(s, u).gs[At(s, u).j].cid)
  {
    var p := Pending(On(u));
    assert p.Pending?;
  }

  lemma DecrementKeeps(s: State, s': State, u: Unit)
    requires Inv(s) && Step(s, DoDecrement(u), s')
    ensures Inv(s')
  {
    DecrementEdges(s, s', u);
    DecrementCounters(s, s', u);
    assert ThreadOk(s, u);
    TargetWaits(s, u);
    DecrementThread(s, s', u);
    ThreadsStay(s, s', u);
    DecrementTasks(s, s', u);
    DecrementWakes(s, s', u);
    WakesRest(s, s', At(s, u).gs[At(s, u).j].cid);
    WakesMem(s, s', At(s, u).gs[At(s, u).j].cid);
  }

  // ---------------------------------------------------------------- publish

  /** Task t, pending, is pushed to its queue; thread and host bookkeeping aside. */
  ghost predicate Enqueues(s: State, s': State, t: nat) {
    && Shape(s) && t < |s.phase| && s.phase[t].Pending?
    && s'.x == s.x && s'.dep == s.dep && s'.applied == s.applied
    && s'.queues == s.queues[DestOf(s, t, false) := In(s, DestOf(s, t, false)) + multiset{t}]
    && s'.flag == s.flag && s'.nDone == s.nDone && s'.mem == s.mem && s'.start == s.start && s'.order == s.order
    && s'.pubs == s.pubs + [t] && s'.phase == s.phase[t := Queued]
  }

  lemma EnqueuesAt(s: State, s': State, t: nat, r: QueueId, x: nat)
    requires Enqueues(s, s', t)
    requires In(s, r)[x] == if x < |s.x.g| && s.phase[x] == Queued && r == DestOf(s, x, false) then 1 else 0
    ensures In(s', r)[x] == if x < |s.x.g| && s'.phase[x] == Queued && r == DestOf(s', x, false) then 1 else 0
  {
    if x == t { assert s'.phase[x] == Queued; }
  }

  lemma EnqueuesQueues(s: State, s': State, t: nat)
    requires Enqueues(s, s', t) && QueuesOk(s)
    ensures QueuesOk(s')
  {
    forall r: QueueId, x: nat
      ensures In(s', r)[x] == if x < |s.x.g| && s'.phase[x] == Queued && r == DestOf(s', x, false) then 1 else 0
    {
      EnqueuesAt(s, s', t, r, x);
    }
  }

  lemma EnqueuesPubs(s: State, s': State, t: nat)
    requires Enqueues(s, s', t) && PubsOk(s) && FlagOk(s)
    ensures PubsOk(s') && FlagOk(s')
  {
    assert RetiredSet(s') == RetiredSet(s);
    assert t !in s.pubs;
  }

  lemma EnqueuesMem(s: State, s': State, t: nat)
    requires Enqueues(s, s', t) && MemOk(s) && SnapsOk(s)
    ensures MemOk(s') && SnapsOk(s')
  {}

  lemma EnqueuesCounters(s: State, s': State, t: nat)
    requires Enqueues(s, s', t) && CountersOk(s) && WaitingOk(s) && !s'.host.Reset?
    requires s.host.Reset? ==> s.host.i == |s.x.g|
    ensures CountersOk(s') && WaitingOk(s')
  {}

  lemma PublishEdges(s: State, s': State, u: Unit)
    requires Shape(s) && EdgesOk(s) && Step(s, DoPublish(u), s') && Enqueues(s, s', At(s, u).gs[At(s, u).j].cid)
    ensures EdgesOk(s')
  {
    assert Sent(At(s', u)) == Sent(At(s, u));
    EdgesStay(s, s');
  }

  lemma PublishEnqueues(s: State, s': State, u: Unit)
    requires Shape(s) && HostOk(s) && ThreadOk(s, u) && Step(s, DoPublish(u), s')
    ensures Enqueues(s, s', At(s, u).gs[At(s, u).j].cid) && s'.host == s.host && !s.host.Reset?
  {
    var th := At(s, u);
    SameDest(s, th.gs[th.j].cid, u);
    assert s.phase[th.ids[0]] == Leaving(u);
  }

  lemma PublishThread(s: State, s': State, u: Unit)
    requires Shape(s) && ThreadOk(s, u) && Step(s, DoPublish(u), s')
    ensures By(s, s', u) && ThreadOk(s', u)
  {
    var th := At(s, u);
    StillLeaving(s, s', u, th.ids, th.gs[th.j].cid);
  }

  lemma StillLeaving(s: State, s': State, u: Unit, ids: seq<nat>, c: nat)
    requires AreLeaving(s, u, ids) && c < |s.phase| && !s.phase[c].Leaving? && s'.phase == s.phase[c := Queued]
    ensures AreLeaving(s', u, ids)
  {}

  lemma PublishTasks(s: State, s': State, u: Unit)
    requires By(s, s', u) && TasksOk(s) && Step(s, DoPublish(u), s')
    ensures TasksOk(s')
  {
    forall t: nat | t < |s.phase| && Touched(s, s', u, t) ensures TaskOk(s', t) { assert TaskOk(s, t); }
    TasksStay(s, s', u);
  }

  lemma PublishHost(s: State, s': State, u: Unit)
    requires HostOk0(s) && ThreadOk(s, u) && Step(s, DoPublish(u), s') && Enqueues(s, s', At(s, u).gs[At(s, u).j].cid)
    requires s'.host == s.host && !s.host.Reset? && s.phase[At(s, u).gs[At(s, u).j].cid] == Pending(On(u))
    ensures HostOk(s')
  {}

  ghost predicate HostOk0(s: State) { Shape(s) && HostOk(s) }

  lemma PublishKeeps(s: State, s': State, u: Unit)
    requires Inv(s) && Step(s, DoPublish(u), s')
    ensures Inv(s')
  {
    assert ThreadOk(s, u);
    var c := At(s, u).gs[At(s, u).j].cid;
    PublishEnqueues(s, s', u);
    PublishThread(s, s', u);
    PublishEdges(s, s', u);
    EnqueuesQueues(s, s', c);
    EnqueuesPubs(s, s', c);
    EnqueuesMem(s, s', c);
    EnqueuesCounters(s, s', c);
    PublishHost(s, s', u);
    ThreadsStay(s, s', u);
    PublishTasks(s, s', u);
  }

  // ------------------------------------------------------------- n_done add

  lemma CountThread(s: State, s': State, u: Unit)
    requires Shape(s) && ThreadOk(s, u) && Step(s, DoCount(u), s')
    ensures By(s, s', u) && ThreadOk(s', u)
    ensures forall t: nat :: t < |s.phase| ==> s'.phase[t] == if t in At(s, u).ids then Retired else s.phase[t]
    ensures forall t: nat :: t in At(s, u).ids ==> t < |s.phase| && s.phase[t] == Leaving(u)
  {
    forall t: nat | t in At(s, u).ids ensures t < |s.phase| && s.phase[t] == Leaving(u) { InBatch(At(s, u).ids, t); }
  }

  lemma CountTasks(s: State, s': State, u: Unit)
    requires By(s, s', u) && TasksOk(s) && Step(s, DoCount(u), s')
    requires forall t: nat :: t < |s.phase| ==> s'.phase[t] == if t in At(s, u).ids then Retired else s.phase[t]
    ensures TasksOk(s')
  {
    forall t: nat | t < |s.phase| && Touched(s, s', u, t) ensures TaskOk(s', t) { assert TaskOk(s, t); }
    TasksStay(s, s', u);
  }

  lemma CountEdges(s: State, s': State, u: Unit)
    requires Shape(s) && EdgesOk(s) && TasksOk(s) && ThreadOk(s, u) && Step(s, DoCount(u), s')
    ensures EdgesOk(s')
  {
    CountThread(s, s', u);
    var th := At(s, u);
    assert th.gs[..th.j] == th.gs;
    EpilogueCovers(s.x.g, th.ids, u.Gpu?);
    forall e: Edge | IsEdge(s.x.g, e) ensures AppliedNow(s', e) == AppliedNow(s, e) {
      CountEdge(s, s', u, e);
    }
    EdgesStay(s, s');
  }

  lemma CountEdge(s: State, s': State, u: Unit, e: Edge)
    requires At(s, u).Commit? && e.0 < |s.phase| == |s'.phase| && TaskOk(s, e.0) && By(s, s', u)
    requires s'.phase[e.0] == if e.0 in At(s, u).ids then Retired else s.phase[e.0]
    requires e.0 in At(s, u).ids ==> s.phase[e.0] == Leaving(u) && e in Sent(At(s, u))
    ensures AppliedNow(s', e) == AppliedNow(s, e)
  {}

  lemma CountDones(s: State, s': State, u: Unit)
    requires Shape(s) && FlagOk(s) && ThreadOk(s, u) && Step(s, DoCount(u), s')
    ensures FlagOk(s')
  {
    CountThread(s, s', u);
    DistinctSize(At(s, u).ids);
    RetiredGrows(s, s', At(s, u).ids);
  }

  lemma RetiredGrows(s: State, s': State, ids: seq<nat>)
    requires |s'.phase| == |s.phase| && forall t: nat :: t in ids ==> t < |s.phase| && s.phase[t] != Retired
    requires forall t: nat :: t < |s.phase| ==> s'.phase[t] == if t in ids then Retired else s.phase[t]
    ensures |RetiredSet(s')| == |RetiredSet(s)| + |Elems(ids)|
  {
    assert RetiredSet(s') == RetiredSet(s) + Elems(ids);
    assert RetiredSet(s) !! Elems(ids);
  }

  lemma CountMem(s: State, s': State, u: Unit)
    requires Shape(s) && MemOk(s) && SnapsOk(s) && QueuesOk(s) && ThreadOk(s, u) && Step(s, DoCount(u), s')
    ensures MemOk(s') && SnapsOk(s') && QueuesOk(s')
  {
    CountThread(s, s', u);
    QueuesStay(s, s');
  }

  lemma CountCounters(s: State, s': State, u: Unit)
    requires Shape(s) && CountersOk(s) && WaitingOk(s) && ThreadOk(s, u) && Step(s, DoCount(u), s')
    ensures CountersOk(s') && WaitingOk(s')
  {
    CountThread(s, s', u);
    forall c: nat | c < |s.x.g| ensures s'.phase[c] == Waiting <==> !Unblocked(s', c) {
      assert s.phase[c] == Waiting <==> !Unblocked(s, c);
    }
  }

  lemma CountHost(s: State, s': State, u: Unit)
    requires Shape(s) && HostOk(s) && ThreadOk(s, u) && Step(s, DoCount(u), s')
    ensures HostOk(s')
  {
    CountThread(s, s', u);
    assert At(s, u).ids[0] in At(s, u).ids;
  }

  lemma CountPubs(s: State, s': State, u: Unit)
    requires Shape(s) && PubsOk(s) && ThreadOk(s, u) && Step(s, DoCount(u), s')
    ensures PubsOk(s')
  {
    CountThread(s, s', u);
  }

  lemma CountKeeps(s: State, s': State, u: Unit)
    requires Inv(s) && Step(s, DoCount(u), s')
    ensures Inv(s')
  {
    assert ThreadOk(s, u);
    CountThread(s, s', u);
    CountEdges(s, s', u);
    CountTasks(s, s', u);
    ThreadsStay(s, s', u);
    CountDones(s, s', u);
    CountMem(s, s', u);
    CountCounters(s, s', u);
    CountHost(s, s', u);
    CountPubs(s, s', u);
  }

  // ------------------------------------------------------------------- host

  /** The host moves on, and no root becomes unscanned or scanned by it. */
  ghost predicate HostOnly(s: State, s': State) {
    && s' == s.(host := s'.host, dep := s'.dep)
    && forall t: nat :: t < |s.x.g| && Root(s.x.g, t) ==> Unscanned(s', t) == Unscanned(s, t)
  }

  lemma HostPlaces(s: State, s': State)
    requires Shape(s) && Shape(s') && HostOnly(s, s') && ThreadsOk(s) && TasksOk(s) && QueuesOk(s)
    ensures ThreadsOk(s') && TasksOk(s') && QueuesOk(s')
  {
    forall u ensures ThreadOk(s', u) { HostThread(s, s', u); }
    forall t: nat | t < |s'.phase| ensures TaskOk(s', t) { HostTask(s, s', t); }
    QueuesStay(s, s');
  }

  lemma HostThread(s: State, s': State, u: Unit)
    requires HostOnly(s, s') && ThreadsOk(s)
    ensures ThreadOk(s', u)
  {
    assert ThreadOk(s, u);
  }

  lemma HostTask(s: State, s': State, t: nat)
    requires Shape(s) && HostOnly(s, s') && TasksOk(s) && t < |s.phase|
    ensures TaskOk(s', t)
  {
    assert TaskOk(s, t);
  }

  lemma HostRest(s: State, s': State)
    requires Shape(s) && Shape(s') && HostOnly(s, s') && EdgesOk(s) && PubsOk(s) && FlagOk(s) && MemOk(s) && SnapsOk(s)
    ensures EdgesOk(s') && PubsOk(s') && FlagOk(s') && MemOk(s') && SnapsOk(s')
  {
    assert RetiredSet(s') == RetiredSet(s);
    EdgesStay(s, s');
  }

  lemma HostMoves(s: State, s': State)
    requires Inv(s) && HostOnly(s, s') && s'.dep == s.dep
    requires s.host.Reset? ==> s.host.i == |s.x.g|
    requires HostOk0(s') && !s'.host.Reset?
    ensures Inv(s')
  {
    HostPlaces(s, s');
    HostRest(s, s');
  }

  lemma ResetCounters(s: State, s': State)
    requires Shape(s) && EdgesOk(s) && CountersOk(s) && WaitingOk(s) && HostOk(s) && Step(s, DoReset, s')
      && s.host.i < |s.x.g|
    ensures CountersOk(s') && WaitingOk(s') && HostOk(s')
  {
    ResetApplied(s);
    var i := s.host.i;
    assert InEdges(s.x.g, i) - {} == InEdges(s.x.g, i);
  }

  lemma ResetKeeps(s: State, s': State)
    requires Inv(s) && Step(s, DoReset, s')
    ensures Inv(s')
  {
    if s.host.i < |s.x.g| {
      ResetCounters(s, s');
      HostPlaces(s, s');
      HostRest(s, s');
    } else {
      HostMoves(s, s');
    }
  }

  /** Nothing has been decremented while counters are being reset. */
  lemma ResetApplied(s: State)
    requires Shape(s) && EdgesOk(s) && HostOk(s) && s.host.Reset?
    ensures s.applied == {}
  {
    forall e: Edge ensures e !in s.applied {
      if e.0 < |s.phase| { assert s.phase[e.0].Waiting? || s.phase[e.0] == Pending(Host); }
    }
  }

  lemma ScanTasks(s: State, s': State)
    requires TasksOk(s) && Step(s, DoScan, s') && s.host.i < |s.x.g| == |s.phase| == |s'.phase|
    requires s'.threads == s.threads && s'.x == s.x && s'.host == Scan(s.host.i + 1)
    requires forall t: nat :: t < |s.phase| ==>
      s'.phase[t] == if t == s.host.i && Root(s.x.g, t) then Queued else s.phase[t]
    ensures TasksOk(s')
  {
    forall t: nat | t < |s'.phase| ensures TaskOk(s', t) { assert TaskOk(s, t); }
  }

  lemma ScanThreads(s: State, s': State, i: nat)
    requires ThreadsOk(s) && s'.threads == s.threads && s'.x == s.x
    requires i < |s.phase| == |s'.phase| && s.phase[i] == Pending(Host) && s'.phase == s.phase[i := Queued]
    ensures ThreadsOk(s')
  {
    forall u ensures ThreadOk(s', u) { assert ThreadOk(s, u); ScanThread(s, s', u, i); }
  }

  lemma ScanThread(s: State, s': State, u: Unit, i: nat)
    requires ThreadOk(s, u) && s'.threads == s.threads && s'.x == s.x
    requires i < |s.phase| == |s'.phase| && s.phase[i] == Pending(Host) && s'.phase == s.phase[i := Queued]
    ensures ThreadOk(s', u)
  {
    match At(s, u)
    case Idle =>
    case Exec(ids, bodies) => ScanExec(s, s', u, i, ids, bodies);
    case Commit(ids, gs, j) => StillLeaving(s, s', u, ids, i);
    case Push(ids, gs, j) => StillLeaving(s, s', u, ids, i);
  }

  lemma ScanExec(s: State, s': State, u: Unit, i: nat, ids: seq<nat>, bodies: seq<Body>)
    requires i < |s.phase| && !s.phase[i].Taken? && s'.phase == s.phase[i := Queued] && |ids| == |bodies|
    requires forall k :: 0 <= k < |ids| ==> ids[k] < |s.phase| && s.phase[ids[k]] == Taken(u, bodies[k])
    ensures forall k :: 0 <= k < |ids| ==> ids[k] < |s'.phase| && s'.phase[ids[k]] == Taken(u, bodies[k])
  {}

  lemma ScanPublishes(s: State, s': State)
    requires Inv(s) && Step(s, DoScan, s') && s.host.i < |s.x.g| && Root(s.x.g, s.host.i)
    ensures Inv(s')
  {
    var i := s.host.i;
    assert s.phase[i] == Pending(Host);
    assert Enqueues(s, s', i);
    EdgesStay(s, s');
    EnqueuesQueues(s, s', i);
    EnqueuesPubs(s, s', i);
    EnqueuesMem(s, s', i);
    EnqueuesCounters(s, s', i);
    ScanTasks(s, s');
    ScanThreads(s, s', i);
  }

  lemma ScanSkips(s: State, s': State)
    requires Inv(s) && Step(s, DoScan, s') && (s.host.i < |s.x.g| ==> !Root(s.x.g, s.host.i))
    ensures HostOnly(s, s') && s'.dep == s.dep && HostOk0(s') && !s'.host.Reset?
  {}

  lemma ScanKeeps(s: State, s': State)
    requires Inv(s) && Step(s, DoScan, s')
    ensures Inv(s')
  {
    if s.host.i < |s.x.g| && Root(s.x.g, s.host.i) {
      ScanPublishes(s, s');
    } else {
      ScanSkips(s, s');
      HostMoves(s, s');
    }
  }

  /** n_done == n means every task has been counted. */
  lemma AllRetired(s: State)
    requires Shape(s) && FlagOk(s) && s.nDone == |s.x.g|
    ensures forall t: nat :: t < |s.x.g| ==> s.phase[t] == Retired
  {
    SubsetSize(RetiredSet(s), Upto(|s.x.g|));
    forall t: nat | t < |s.x.g| ensures s.phase[t] == Retired { assert t in RetiredSet(s); }
  }

  lemma WaitKeeps(s: State, s': State)
    requires Inv(s) && (Step(s, LoadFlag, s') || Step(s, LoadCount, s'))
    ensures Inv(s')
  {
    if s' != s {
      if s'.host.Returned? { AllRetired(s); }
      HostMoves(s, s');
    }
  }

  /** A busy thread holds a task. */
  lemma BusyTask(s: State, u: Unit)
    requires ThreadsOk(s)
    ensures At(s, u) != Idle ==> exists t: nat :: t < |s.phase| && (s.phase[t].Taken? || s.phase[t].Leaving?)
  {
    assert ThreadOk(s, u);
    if At(s, u) != Idle {
      var t := At(s, u).ids[0];
      assert t < |s.phase| && (s.phase[t].Taken? || s.phase[t].Leaving?);
    }
  }

  /** When every task is retired no thread holds anything and the queues are empty. */
  lemma NothingHeld(s: State)
    requires Inv(s) && forall t: nat :: t < |s.x.g| ==> s.phase[t] == Retired
    ensures forall u :: At(s, u) == Idle
    ensures forall q :: In(s, q) == multiset{}
  {
    forall u ensures At(s, u) == Idle {
      BusyTask(s, u);
    }
    forall q ensures In(s, q) == multiset{} {
      forall t: nat ensures In(s, q)[t] == 0 {}
    }
  }

  /** A run may begin whenever no engine holds a task and the queues are empty. */
  lemma BeginInv(x: Setup, dep: seq<int>, queues: map<QueueId, multiset<nat>>, threads: map<Unit, Thread>, mem: Mem)
    requires SetupOk(x) && |dep| == |x.g|
    requires forall u :: u in threads ==> threads[u] == Idle
    requires forall q :: q in queues ==> queues[q] == multiset{}
    ensures Inv(Begin(x, dep, queues, threads, mem))
  {
    var s := Begin(x, dep, queues, threads, mem);
    forall c: nat | c < |x.g| ensures s.phase[c] == Waiting <==> !Unblocked(s, c) { RootIs(x.g, c); }
    assert RetiredSet(s) == {};
    assert EdgesOk(s);
  }

  lemma NextKeeps(s: State, s': State, x: Setup, dep: seq<int>)
    requires Inv(s) && Step(s, NextRun(x, dep), s')
    ensures Inv(s')
  {
    NothingHeld(s);
    forall u | u in s.threads ensures s.threads[u] == Idle { assert At(s, u) == Idle; }
    forall q | q in s.queues ensures s.queues[q] == multiset{} { assert In(s, q) == multiset{}; }
    BeginInv(x, dep, s.queues, s.threads, s.mem);
  }

  /** Every step of every actor keeps the invariant. */
  lemma StepKeepsInv(s: State, op: Op, s': State)
    requires Inv(s) && Step(s, op, s')
    ensures Inv(s')
  {
    match op
    case DoReset => ResetKeeps(s, s');
    case DoScan => ScanKeeps(s, s');
    case LoadFlag => WaitKeeps(s, s');
    case LoadCount => WaitKeeps(s, s');
    case NextRun(x, dep) => NextKeeps(s, s', x, dep);
    case DoClaim(u, q, ids) => ClaimKeeps(s, s', u, q, ids);
    case DoStart(u, i) => StartKeeps(s, s', u, i);
    case DoFinish(u, i) => FinishKeeps(s, s', u, i);
    case DoEnd(u) => EndKeeps(s, s', u);
    case DoDecrement(u) => DecrementKeeps(s, s', u);
    case DoPublish(u) => PublishKeeps(s, s', u);
    case DoCount(u) => CountKeeps(s, s', u);
  }
}
