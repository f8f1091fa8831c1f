/** On its real rings too the runtime can always finish: from any state of a run, it can be driven to the return. */
module RingedProgress {
  import opened TaskTypes
  import opened TaskGraph
  import opened Routing
  import opened MpmcRingTheorems
  import opened MpmcRingProgress
  import opened RingedDataflow
  import opened RingedSafety
  import opened RingedTheorems
  import opened RingedCapacity
  import D = Dataflow
  import R = MpmcRing
  import RS = MpmcRingSafety
  import DS = DataflowSafety
  import DT = DataflowTheorems

  // ------------------------------------------------------------------ stretches

  /** Steps of one run, from a to b. */
  ghost predicate Goes(tr: seq<State>, ops: seq<Op>, a: State, b: State) {
    Steps(tr, ops) && WithinOneRun(ops) && tr[0] == a && tr[|tr| - 1] == b
  }

  ghost predicate WithinOneRun(ops: seq<Op>) { forall i :: 0 <= i < |ops| ==> !IsNextRun(ops[i]) }

  predicate IsNextRun(op: Op) { op.Local? && op.o.NextRun? }

  ghost predicate Reaches(a: State, b: State) { exists tr, ops :: Goes(tr, ops, a, b) }

  lemma ReachesSelf(a: State)
    ensures Reaches(a, a)
  {
    assert Goes([a], [], a, a);
  }

  lemma ReachesBy(a: State, op: Op, b: State, c: State)
    requires Step(a, op, b) && !IsNextRun(op) && Reaches(b, c)
    ensures Reaches(a, c)
  {
    var tr, ops :| Goes(tr, ops, b, c);
    var tr', ops' := [a] + tr, [op] + ops;
    forall i | 0 <= i < |ops'| ensures Step(tr'[i], ops'[i], tr'[i + 1]) && !IsNextRun(ops'[i]) {
      if i > 0 { assert Step(tr[i - 1], ops[i - 1], tr[i]); }
    }
    assert Goes(tr', ops', a, c);
  }

  lemma {:induction false} ReachesOn(tr: seq<State>, ops: seq<Op>, a: State, b: State, c: State)
    requires Goes(tr, ops, a, b) && Reaches(b, c)
    ensures Reaches(a, c)
    decreases |ops|
  {
    if ops != [] {
      assert Step(tr[0], ops[0], tr[1]);
      forall i | 0 <= i < |ops| - 1 ensures Step(tr[1..][i], ops[1..][i], tr[1..][i + 1]) {
        assert Step(tr[i + 1], ops[i + 1], tr[i + 2]);
      }
      ReachesOn(tr[1..], ops[1..], tr[1], b, c);
      ReachesBy(a, ops[0], tr[1], c);
    }
  }

  lemma ReachesThen(a: State, b: State, c: State)
    requires Reaches(a, b) && Reaches(b, c)
    ensures Reaches(a, c)
  {
    var tr, ops :| Goes(tr, ops, a, b);
    ReachesOn(tr, ops, a, b, c);
  }

  // ------------------------------------------------------------------ one step

  /** A run that fits its rings and strands no task. */
  ghost predicate Sound(s: State, cap: nat) { Good(s, cap) && |s.d.x.g| <= cap && DT.AllServed(s.d.x) }

  ghost function Left(s: State): nat { DT.Measure(Abs(s)) }

  lemma LocalSetup(s: State, op: Op, s': State)
    requires Step(s, op, s') && !IsNextRun(op)
    ensures s'.d.x == s.d.x
  {
    match op
    case Local(o) => DT.SameSetup(s.d, o, s'.d);
    case Access(t, q) => AccessIs(s, t, q, s'); EffectConfig(s.d, ActorOf(t), q, s.rings[q], s.rings[q].pcs[t], s'.d);
    case _ =>
  }

  /** The protocol's own step, seen through the bags, never adds work. */
  lemma LeftFalls(s: State, op: Op, s': State)
    requires Inv(s) && Step(s, op, s') && !IsNextRun(op)
    ensures Left(s') <= Left(s)
  {
    StepRefines(s, op, s');
    if SeenAs(s, op).Seen? {
      var o := SeenAs(s, op).o;
      assert !o.NextRun?;
      DT.LastStep(Abs(s), o, Abs(s'));
    }
  }

  lemma StepSound(s: State, op: Op, s': State, cap: nat)
    requires Sound(s, cap) && Step(s, op, s') && !IsNextRun(op)
    ensures Sound(s', cap) && Left(s') <= Left(s)
  {
    StepKeepsInv(s, op, s');
    StaysRoomy(s, op, s', cap);
    StaysSized(s, op, s', cap);
    LocalSetup(s, op, s');
    LeftFalls(s, op, s');
  }

  // -------------------------------------------------------- finishing an operation

  /** Bulk pops ask for the engine's batch, which is at least one. */
  lemma LinkedSensible(s: State, q: QueueId, t: R.Tid)
    requires Inv(s) && q in s.rings
    ensures Sensible(PcAt(s, q, t))
  {
    assert LinkedAt(s, q, t);
  }

  ghost function RankAt(s: State, q: QueueId, t: R.Tid): int
    requires q in s.rings && 0 < |s.rings[q].cells|
  {
    SoloRank(s.rings[q], PcAt(s, q, t))
  }

  /** Only thread t's place in ring q is different. */
  ghost predicate OnlyAt(s: State, s': State, q: QueueId, t: R.Tid) {
    && s'.rings.Keys == s.rings.Keys
    && forall p, u {:trigger PcAt(s', p, u)} :: p != q || u != t ==> PcAt(s', p, u) == PcAt(s, p, u)
  }

  lemma AccessOnly(s: State, t: R.Tid, q: QueueId, s': State)
    requires Step(s, Access(t, q), s')
    ensures OnlyAt(s, s', q, t) && s'.d.host.Returned? == s.d.host.Returned?
  {
    AccessIs(s, t, q, s');
    StepShape(s.rings[q], t);
    EffectHost(s.d, ActorOf(t), q, s.rings[q], s.rings[q].pcs[t], s'.d);
  }

  /** The host returns by no access of a queue. */
  lemma EffectHost(d: D.State, a: D.Actor, q: QueueId, r: R.State, pc: R.Pc, d': D.State)
    requires Effect(d, a, q, r, pc, d')
    ensures d'.host.Returned? == d.host.Returned?
  {}

  /** The thread's next access: it brings the operation nearer to its end. */
  lemma NextAccess(s: State, q: QueueId, t: R.Tid, cap: nat) returns (s': State)
    requires Sound(s, cap) && q in s.rings && PcAt(s, q, t) != R.Idle
    ensures Step(s, Access(t, q), s') && Sound(s', cap) && Left(s') <= Left(s) && OnlyAt(s, s', q, t)
    ensures s'.d.host.Returned? == s.d.host.Returned?
    ensures 0 < |s.rings[q].cells| == |s'.rings[q].cells| && 0 <= RankAt(s', q, t) < RankAt(s, q, t)
  {
    s' := AccessNeverBlocked(s, q, t);
    StepSound(s, Access(t, q), s', cap);
    AccessOnly(s, t, q, s');
    AccessIs(s, t, q, s');
    LinkedSensible(s, q, t);
    assert R.Inv(s.rings[q]);
    SoloStep(s.rings[q], t);
  }

  /** A queue operation in progress ends when its thread runs alone. */
  lemma {:induction false} Finish(s: State, q: QueueId, t: R.Tid, cap: nat) returns (s': State)
    requires Sound(s, cap) && q in s.rings && R.Inv(s.rings[q])
    ensures Reaches(s, s') && Sound(s', cap) && Left(s') <= Left(s)
    ensures OnlyAt(s, s', q, t) && PcAt(s', q, t) == R.Idle && s'.d.host.Returned? == s.d.host.Returned?
    decreases RankAt(s, q, t)
  {
    if PcAt(s, q, t) == R.Idle {
      ReachesSelf(s);
      s' := s;
    } else {
      var n := NextAccess(s, q, t, cap);
      s' := Finish(n, q, t, cap);
      ReachesBy(s, Access(t, q), n, s');
    }
  }

  // ---------------------------------------------------------- nobody in a queue

  /** Threads inside a queue operation. */
  ghost function Busy(s: State): set<(QueueId, R.Tid)> {
    set q, t | q in s.rings && t in s.rings[q].pcs && PcAt(s, q, t) != R.Idle :: (q, t)
  }

  lemma BusyIs(s: State, q: QueueId, t: R.Tid)
    ensures (q, t) in Busy(s) <==> PcAt(s, q, t) != R.Idle
  {}

  lemma FewerBusy(s: State, s': State, q: QueueId, t: R.Tid)
    requires OnlyAt(s, s', q, t) && PcAt(s', q, t) == R.Idle && PcAt(s, q, t) != R.Idle
    ensures |Busy(s')| < |Busy(s)|
  {
    forall p: QueueId, u: R.Tid ensures (p, u) in Busy(s') <==> (p, u) in Busy(s) && (p, u) != (q, t) {
      BusyIs(s', p, u);
      BusyIs(s, p, u);
    }
    BusyIs(s, q, t);
    assert Busy(s') == Busy(s) - {(q, t)};
  }

  /** All queue operations in progress can be brought to their ends. */
  lemma {:induction false} Settle(s: State, cap: nat) returns (s': State)
    requires Sound(s, cap)
    ensures Reaches(s, s') && Sound(s', cap) && Left(s') <= Left(s) && AllFree(s')
    ensures s'.d.host.Returned? == s.d.host.Returned?
    decreases |Busy(s)|
  {
    if q, t :| PcAt(s, q, t) != R.Idle {
      assert R.Inv(s.rings[q]);
      var n := Finish(s, q, t, cap);
      FewerBusy(s, n, q, t);
      s' := Settle(n, cap);
      ReachesThen(s, n, s');
    } else {
      ReachesSelf(s);
      s' := s;
    }
  }

  // ----------------------------------------------------- an operation that acts

  /** Run alone, the operation publishes its task or claims the oldest one. */
  ghost predicate Acts(s: State, q: QueueId, t: R.Tid)
    requires q in s.rings && 0 < |s.rings[q].cells|
  {
    Making(PcAt(s, q, t)) || WillClaim(s.rings[q], PcAt(s, q, t))
  }

  /** The access at which it does. */
  ghost predicate ActsNow(s: State, q: QueueId, t: R.Tid)
    requires q in s.rings
  {
    PcAt(s, q, t).PushRel? || Claims(s.rings[q], PcAt(s, q, t))
  }

  lemma StepFalls(d: D.State, o: D.Op, d': D.State)
    requires D.Inv(d) && D.Step(d, o, d') && DT.Advances(d, o)
    ensures DT.Measure(d') < DT.Measure(d)
  {
    DT.LastStep(d, o, d');
  }

  lemma PublishFalls(s: State, q: QueueId, t: R.Tid, s': State)
    requires Inv(s) && q in s.rings && Step(s, Access(t, q), s') && PcAt(s, q, t).PushRel?
    ensures Left(s') < Left(s)
  {
    AccessPublishes(s, t, q, s');
    StepFalls(Abs(s), PublishOp(ActorOf(t)), Abs(s'));
  }

  lemma ClaimFalls(s: State, q: QueueId, t: R.Tid, s': State)
    requires Inv(s) && q in s.rings && Step(s, Access(t, q), s') && Claims(s.rings[q], PcAt(s, q, t))
    ensures Left(s') < Left(s)
  {
    IsClaiming(s, t, q);
    AccessIs(s, t, q, s');
    AccessClaims(s, t, q, R.Step(s.rings[q], t), s');
    ClaimSeen(s, t, q);
    StepFalls(Abs(s), SeenAs(s, Access(t, q)).o, Abs(s'));
  }

  lemma ActedFalls(s: State, q: QueueId, t: R.Tid, s': State)
    requires Inv(s) && q in s.rings && Step(s, Access(t, q), s') && ActsNow(s, q, t)
    ensures Left(s') < Left(s)
  {
    if PcAt(s, q, t).PushRel? { PublishFalls(s, q, t, s'); } else { ClaimFalls(s, q, t, s'); }
  }

  lemma StillActs(s: State, q: QueueId, t: R.Tid, s': State, cap: nat)
    requires Sound(s', cap) && q in s.rings && Step(s, Access(t, q), s') && Acts(s, q, t) && !ActsNow(s, q, t)
    ensures Acts(s', q, t)
  {
    AccessIs(s, t, q, s');
    var r := s.rings[q];
    if Making(PcAt(s, q, t)) {
      PushAhead(r, t);
      assert RoomIn(s', q);
    } else {
      StillWillClaim(r, t);
    }
  }

  /** The operation, run alone up to its effect. */
  lemma {:induction false} Drive(s: State, q: QueueId, t: R.Tid, cap: nat) returns (s': State)
    requires Sound(s, cap) && q in s.rings && R.Inv(s.rings[q]) && Acts(s, q, t)
    ensures Reaches(s, s') && Sound(s', cap) && Left(s') < Left(s)
    decreases RankAt(s, q, t)
  {
    var n := NextAccess(s, q, t, cap);
    if ActsNow(s, q, t) {
      ActedFalls(s, q, t, n);
      ReachesSelf(n);
      s' := n;
    } else {
      StillActs(s, q, t, n, cap);
      s' := Drive(n, q, t, cap);
    }
    ReachesBy(s, Access(t, q), n, s');
  }

  // ------------------------------------------------------------------ progress

  lemma NoneOwns(s: State, q: QueueId)
    requires AllFree(s) && q in s.rings
    ensures forall t :: t in s.rings[q].pcs ==> !R.Owner(s.rings[q].pcs[t])
  {
    forall t | t in s.rings[q].pcs ensures !R.Owner(s.rings[q].pcs[t]) { assert PcAt(s, q, t) == R.Idle; }
  }

  /** A pop of a ring that holds something, called while nobody is in a queue, will claim. */
  lemma PopActs(s: State, op: Op, s': State)
    requires Inv(s) && AllFree(s) && Step(s, op, s') && op.CallPop? && Contents(s.rings[op.q]) != multiset{}
    ensures 0 < |s'.rings[op.q].cells| && Acts(s', op.q, op.t)
  {
    var r := s.rings[op.q];
    RingShowsOldest(s, op.q);
    assert 1 <= s.d.x.cfg.batch;
    assert PcAt(s', op.q, op.t) == R.EntryPc(PopCall(s.d.x.cfg, ActorOf(op.t).u));
  }

  lemma RingShowsOldest(s: State, q: QueueId)
    requires RingsOk(s) && AllFree(s) && q in s.rings && Contents(s.rings[q]) != multiset{}
    ensures 0 < |s.rings[q].cells| && R.SeqAt(s.rings[q].cells, s.rings[q].tail) == s.rings[q].tail + 1
  {
    NoneOwns(s, q);
    NonEmptyContents(s.rings[q]);
    OldestVisible(s.rings[q]);
  }

  lemma NonEmptyContents(r: R.State)
    requires R.Inv(r) && Contents(r) != multiset{}
    ensures r.tail < r.head
  {
    if r.tail >= r.head { BagOfNone(Available(r), r.log, |r.log|); }
  }

  lemma {:induction false} BagOfNone(a: set<nat>, log: seq<R.Val>, n: nat)
    requires a == {} && n <= |log|
    ensures Bag(a, log, n) == multiset{}
  {
    if n > 0 { BagOfNone(a, log, n - 1); }
  }

  lemma PushActs(s: State, op: Op, s': State)
    requires Step(s, op, s') && op.CallPush? && 0 < |s'.rings[op.q].cells|
    ensures Acts(s', op.q, op.t)
  {
    assert PcAt(s', op.q, op.t) == R.PushHead(op.v);
  }

  lemma CallActs(s: State, op: Op, s': State)
    requires Inv(s) && AllFree(s) && Step(s, op, s') && (op.CallPush? || op.CallPop?) && R.Inv(s'.rings[op.q])
    requires op.CallPop? ==> Contents(s.rings[op.q]) != multiset{}
    ensures Acts(s', op.q, op.t)
  {
    if op.CallPop? { PopActs(s, op, s'); } else { PushActs(s, op, s'); }
  }

  /** A step the bags see as well, and not as polling. */
  lemma LocalFalls(s: State, o: D.Op, s': State)
    requires Inv(s) && Step(s, Local(o), s') && DT.Advances(Abs(s), o)
    ensures Left(s') < Left(s)
  {
    LocalLifts(s.d, o, s'.d, Bags(s.rings));
    StepFalls(Abs(s), o, Abs(s'));
  }

  /** With nobody in a queue, one more step, and if it is a call the operation run up to its effect. */
  lemma Advance(s: State, cap: nat) returns (s': State)
    requires Sound(s, cap) && AllFree(s) && !s.d.host.Returned?
    ensures Reaches(s, s') && Sound(s', cap) && Left(s') < Left(s)
  {
    var op, n := NoStall(s);
    StepSound(s, op, n, cap);
    s' := n;
    if op.Local? {
      LocalFalls(s, op.o, n);
      ReachesSelf(n);
    } else {
      assert R.Inv(n.rings[op.q]);
      CallActs(s, op, n);
      s' := Drive(n, op.q, op.t, cap);
    }
    ReachesBy(s, op, n, s');
  }

  /**
    Until run() returns, some stretch of steps brings it nearer: whatever the threads
    are in the middle of, finitely many accesses publish, claim or finish something.
   */
  lemma OneNearer(s: State, cap: nat) returns (s': State)
    requires Sound(s, cap) && !s.d.host.Returned?
    ensures Reaches(s, s') && Sound(s', cap) && Left(s') < Left(s)
  {
    var a := Settle(s, cap);
    s' := Advance(a, cap);
    ReachesThen(s, a, s');
  }

  lemma {:induction false} Returns(s: State, cap: nat) returns (s': State)
    requires Sound(s, cap)
    ensures Reaches(s, s') && s'.d.host.Returned?
    decreases Left(s)
  {
    if s.d.host.Returned? {
      ReachesSelf(s);
      s' := s;
    } else {
      var n := OneNearer(s, cap);
      s' := Returns(n, cap);
      ReachesThen(s, n, s');
    }
  }

  /** run() can return on its rings: from any state of a run that fits them and strands no task. */
  lemma RunCanReturn(s: State, cap: nat) returns (tr: seq<State>, ops: seq<Op>)
    requires Sound(s, cap)
    ensures Steps(tr, ops) && WithinOneRun(ops) && tr[0] == s && tr[|tr| - 1].d.host.Returned?
  {
    var s' := Returns(s, cap);
    tr, ops :| Goes(tr, ops, s, s');
  }

  /**
    So at any moment of any interleaving of any number of consecutive runs, each of a graph
    that fits the rings, the current run can still be completed.
   */
  lemma CanReturnFromAnywhere(cap: nat, tr: seq<State>, ops: seq<Op>, i: nat) returns (tr': seq<State>, ops': seq<Op>)
    requires 2 <= cap && Steps(tr, ops) && Boots(tr[0], cap) && i < |tr| && DT.AllServed(tr[i].d.x)
    requires forall k :: 0 <= k < |tr| ==> |tr[k].d.x.g| <= cap
    ensures Steps(tr', ops') && WithinOneRun(ops') && tr'[0] == tr[i] && tr'[|tr'| - 1].d.host.Returned?
  {
    AlwaysGood(cap, tr, ops, i);
    tr', ops' := RunCanReturn(tr[i], cap);
  }
}
