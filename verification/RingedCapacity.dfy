/** Over any number of runs with the cursors never reset, no push ever finds its ring full. */
module RingedCapacity {
  import opened TaskTypes
  import opened TaskGraph
  import opened Routing
  import opened MpmcRingTheorems
  import opened RingedDataflow
  import opened RingedSafety
  import opened RingedTheorems
  import D = Dataflow
  import R = MpmcRing
  import RS = MpmcRingSafety
  import DS = DataflowSafety
  import TT = TaskTable

  /** Tasks published to queue q in this run. */
  ghost function PubsTo(d: D.State, q: QueueId): set<nat> {
    set t | t in d.pubs && t < |d.x.info| && D.DestOf(d, t, false) == q
  }

  /** Threads that are pushing and have not yet published. */
  ghost function InFlight(r: R.State): set<R.Tid> { set t | t in r.pcs && Making(r.pcs[t]) }

  /** Push calls of this run in queue q. */
  ghost function Pushes(s: State, q: QueueId): nat
    requires q in s.rings
  {
    |PubsTo(s.d, q)| + |InFlight(s.rings[q])|
  }

  /** The ring has been pushed to once per published or pushed task since the run began, and has not refused. */
  ghost predicate RoomIn(s: State, q: QueueId)
    requires q in s.rings
  {
    q in s.starts && Epoch(s.rings[q], s.starts[q], Pushes(s, q)) && NoPushFailed(s.rings[q])
  }

  ghost predicate Roomy(s: State) { forall q :: q in s.rings ==> RoomIn(s, q) }

  // ------------------------------------------------ at most n pushes per run

  lemma {:induction false} ImageSize(m: map<nat, nat>)
    requires forall x, y :: x in m && y in m && x != y ==> m[x] != m[y]
    ensures |m.Values| == |m.Keys|
    decreases |m.Keys|
  {
    if m.Keys != {} {
      var x :| x in m.Keys;
      var m' := map y | y in m && y != x :: m[y];
      assert m'.Keys == m.Keys - {x};
      forall v ensures v in m'.Values <==> v in m.Values && v != m[x] {
        if v in m.Values && v != m[x] {
          var y :| y in m && m[y] == v;
          assert m'[y] == v;
        }
      }
      assert m'.Values == m.Values - {m[x]};
      ImageSize(m');
    }
  }

  /** A push in flight is for a task that is pending with the pushing actor. */
  lemma FlightTask(s: State, q: QueueId, t: R.Tid)
    requires Inv(s) && q in s.rings && t in s.rings[q].pcs && Making(s.rings[q].pcs[t])
    ensures var v := s.rings[q].pcs[t].v;
            && v < |s.d.x.g| == |s.d.phase| && s.d.phase[v] == D.Pending(ActorOf(t)) && v !in s.d.pubs
  {
    assert LinkedAt(s, q, t);
    assert PcAt(s, q, t) == s.rings[q].pcs[t];
    var a := ActorOf(t);
    if a.On? { assert D.ThreadOk(Abs(s), a.u); }
  }

  /** The tasks being pushed, by thread: one each. */
  ghost function FlightTasks(r: R.State): (m: map<nat, nat>)
    ensures m.Keys == InFlight(r)
  {
    map t | t in InFlight(r) :: r.pcs[t].v
  }

  lemma FlightInside(s: State, q: QueueId)
    requires Inv(s) && q in s.rings
    ensures var m := FlightTasks(s.rings[q]);
            |m.Values| == |InFlight(s.rings[q])| && forall v :: v in m.Values ==> v < |s.d.x.g| && v !in s.d.pubs
  {
    var m := FlightTasks(s.rings[q]);
    forall x, y | x in m && y in m && x != y ensures m[x] != m[y] {
      FlightTask(s, q, x);
      FlightTask(s, q, y);
    }
    ImageSize(m);
    forall v | v in m.Values ensures v < |s.d.x.g| && v !in s.d.pubs {
      var t :| t in m && m[t] == v;
      FlightTask(s, q, t);
    }
  }

  lemma PushesBound(s: State, q: QueueId)
    requires Inv(s) && q in s.rings
    ensures Pushes(s, q) <= |s.d.x.g|
  {
    FlightInside(s, q);
    PubsInside(s, q);
    DisjointInside(FlightTasks(s.rings[q]).Values, PubsTo(s.d, q), |s.d.x.g|);
  }

  lemma DisjointInside(a: set<nat>, b: set<nat>, n: nat)
    requires a !! b && forall v :: v in a || v in b ==> v < n
    ensures |a| + |b| <= n
  {
    TT.SubsetSize(a + b, Upto(n));
  }

  lemma PubsInside(s: State, q: QueueId)
    requires D.Inv(Abs(s))
    ensures forall t :: t in PubsTo(s.d, q) ==> t < |s.d.x.g|
  {}

  // ------------------------------------------------------------------- steps

  lemma LocalPubs(d: D.State, o: D.Op, d': D.State)
    requires D.Step(d, o, d') && !OnQueue(d, o) && !o.NextRun?
    ensures d'.pubs == d.pubs && d'.x == d.x
  {}

  lemma RingRoom(s: State, q: QueueId, calls: nat)
    requires q in s.rings && q in s.starts && Pushes(s, q) == calls
    requires Epoch(s.rings[q], s.starts[q], calls) && NoPushFailed(s.rings[q])
    ensures RoomIn(s, q)
  {}

  lemma FreshRoom(s: State, q: QueueId)
    requires q in s.rings && R.Inv(s.rings[q]) && Quiescent(s.rings[q]) && s.starts == Heads(s.rings) && s.d.pubs == []
    ensures RoomIn(s, q)
  {
    FreshEpoch(s.rings[q]);
    NoFlight(s.rings[q]);
    assert PubsTo(s.d, q) == {};
    RingRoom(s, q, 0);
  }

  lemma NextPubs(d: D.State, o: D.Op, d': D.State)
    requires D.Step(d, o, d') && o.NextRun?
    ensures d'.pubs == [] && d.host.Returned?
  {}

  /** The next run begins on recycled rings. */
  lemma NextRoom(s: State, o: D.Op, s': State)
    requires Inv(s) && Step(s, Local(o), s') && o.NextRun?
    ensures Roomy(s')
  {
    NextPubs(s.d, o, s'.d);
    forall q | q in s'.rings ensures RoomIn(s', q) {
      ReturnedIsQuiescent(s, q);
      FreshRoom(s', q);
    }
  }

  lemma NoFlight(r: R.State)
    requires Quiescent(r)
    ensures InFlight(r) == {}
  {}

  lemma CallFlight(r: R.State, t: R.Tid, op: R.Op)
    requires R.CanInvoke(r, t)
    ensures |InFlight(R.Invoke(r, t, op))| == |InFlight(r)| + (if op.Push? then 1 else 0)
  {
    assert Making(R.EntryPc(op)) == op.Push?;
    FlightAfter(r, R.Invoke(r, t, op), t, R.EntryPc(op));
  }

  /** Thread t, which was not pushing, moves to pc. */
  lemma FlightAfter(r: R.State, r': R.State, t: R.Tid, pc: R.Pc)
    requires r'.pcs == r.pcs[t := pc] && t !in InFlight(r)
    ensures |InFlight(r')| == |InFlight(r)| + (if Making(pc) then 1 else 0)
  {
    assert InFlight(r') == if Making(pc) then InFlight(r) + {t} else InFlight(r);
  }

  lemma OwnCall(s: State, t: R.Tid, q: QueueId, call: R.Op, s': State)
    requires q in s.rings && RoomIn(s, q) && PcAt(s, q, t) == R.Idle
      && s' == s.(rings := s.rings[q := R.Invoke(s.rings[q], t, call)])
    ensures RoomIn(s', q)
  {
    assert R.CanInvoke(s.rings[q], t);
    CallFlight(s.rings[q], t, call);
    EpochCall(s.rings[q], t, call, s.starts[q], Pushes(s, q));
    RingRoom(s', q, Pushes(s, q) + if call.Push? then 1 else 0);
  }

  lemma OtherRoom(s: State, s': State, p: QueueId)
    requires p in s.rings && p in s'.rings && RoomIn(s, p) && s'.rings[p] == s.rings[p] && s'.starts == s.starts
    requires |PubsTo(s'.d, p)| == |PubsTo(s.d, p)|
    ensures RoomIn(s', p)
  {
    RingRoom(s', p, Pushes(s, p));
  }

  lemma LocalRoom(s: State, o: D.Op, s': State)
    requires Roomy(s) && Step(s, Local(o), s') && !o.NextRun?
    ensures Roomy(s')
  {
    LocalPubs(s.d, o, s'.d);
    forall q | q in s'.rings ensures RoomIn(s', q) {
      assert RoomIn(s, q);
      SamePubs(s.d, s'.d, q);
      OtherRoom(s, s', q);
    }
  }

  lemma CallRoom(s: State, op: Op, s': State)
    requires Roomy(s) && Step(s, op, s') && (op.CallPush? || op.CallPop?)
    ensures Roomy(s')
  {
    var call := if op.CallPush? then R.Push(op.v) else PopCall(s.d.x.cfg, ActorOf(op.t).u);
    assert PcAt(s, op.q, op.t) == R.Idle;
    forall q | q in s'.rings ensures RoomIn(s', q) {
      assert RoomIn(s, q);
      if q == op.q { OwnCall(s, op.t, q, call, s'); } else { OtherRoom(s, s', q); }
    }
  }

  lemma AccessFlight(r: R.State, t: R.Tid)
    requires 0 < |r.cells| && t in r.pcs && R.Step(r, t).pcs[t] != R.PushRet(false)
    ensures |InFlight(R.Step(r, t))| == |InFlight(r)| - (if r.pcs[t].PushRel? then 1 else 0)
  {
    var r' := R.Step(r, t);
    StepShape(r, t);
    if r.pcs[t].PushRel? {
      assert InFlight(r') == InFlight(r) - {t};
    } else {
      FlightStays(r, t);
      assert InFlight(r') == InFlight(r);
    }
  }

  lemma FlightStays(r: R.State, t: R.Tid)
    requires 0 < |r.cells| && t in r.pcs && R.Step(r, t).pcs[t] != R.PushRet(false) && !r.pcs[t].PushRel?
    ensures Making(R.Step(r, t).pcs[t]) == Making(r.pcs[t])
  {}

  /** A publish adds its task to its own queue's count and to no other. */
  lemma PublishPubs(s: State, t: R.Tid, q: QueueId, d': D.State, p: QueueId)
    requires Inv(s) && q in s.rings && t in s.rings[q].pcs && s.rings[q].pcs[t].PushRel?
    requires CanPublish(s.d, ActorOf(t)) && d' == Published(s.d, ActorOf(t))
    ensures |PubsTo(d', p)| == |PubsTo(s.d, p)| + (if p == q then 1 else 0)
  {
    var v := s.rings[q].pcs[t].v;
    FlightTask(s, q, t);
    WantedDest(s, q, t);
    PublishedPubs(s.d, ActorOf(t), v, q);
    OneMorePub(s.d, d', v, p);
  }

  lemma OneMorePub(d: D.State, d': D.State, v: nat, p: QueueId)
    requires d'.x == d.x && d'.pubs == d.pubs + [v] && v !in d.pubs && v < |d.x.info|
    ensures |PubsTo(d', p)| == |PubsTo(d, p)| + (if p == D.DestOf(d, v, false) then 1 else 0)
  {
    assert PubsTo(d', p) == if p == D.DestOf(d, v, false) then PubsTo(d, p) + {v} else PubsTo(d, p);
  }

  lemma PublishedPubs(d: D.State, a: D.Actor, v: nat, q: QueueId)
    requires CanPublish(d, a) && Wants(d, a, v, q)
    ensures Published(d, a).pubs == d.pubs + [v] && Published(d, a).x == d.x
  {}

  lemma WantedDest(s: State, q: QueueId, t: R.Tid)
    requires Inv(s) && q in s.rings && t in s.rings[q].pcs && s.rings[q].pcs[t].PushRel?
    ensures var v := s.rings[q].pcs[t].v;
            Wants(s.d, ActorOf(t), v, q) && v < |s.d.x.info| && D.DestOf(s.d, v, false) == q
  {
    assert LinkedAt(s, q, t);
    assert PcAt(s, q, t) == s.rings[q].pcs[t];
    var a := ActorOf(t);
    if a.On? {
      assert D.ThreadOk(Abs(s), a.u);
      DS.SameDest(s.d, s.rings[q].pcs[t].v, a.u);
    }
  }

  lemma EffectPubs(d: D.State, a: D.Actor, q: QueueId, r: R.State, pc: R.Pc, d': D.State)
    requires Effect(d, a, q, r, pc, d') && !pc.PushRel?
    ensures d'.pubs == d.pubs && d'.x == d.x
  {}

  lemma SamePubs(d: D.State, d': D.State, p: QueueId)
    requires d'.pubs == d.pubs && d'.x == d.x
    ensures PubsTo(d', p) == PubsTo(d, p)
  {}

  lemma AccessPubs(s: State, t: R.Tid, q: QueueId, s': State, p: QueueId)
    requires Inv(s) && Step(s, Access(t, q), s')
    ensures |PubsTo(s'.d, p)| == |PubsTo(s.d, p)| + (if p == q && PcAt(s, q, t).PushRel? then 1 else 0)
  {
    AccessIs(s, t, q, s');
    if PcAt(s, q, t).PushRel? {
      PublishPubs(s, t, q, s'.d, p);
    } else {
      EffectPubs(s.d, ActorOf(t), q, s.rings[q], PcAt(s, q, t), s'.d);
      SamePubs(s.d, s'.d, p);
    }
  }

  lemma OwnAccess(s: State, t: R.Tid, q: QueueId, s': State)
    requires q in s.rings && RoomIn(s, q) && t in s.rings[q].pcs && Pushes(s, q) <= |s.rings[q].cells|
    requires s'.rings == s.rings[q := R.Step(s.rings[q], t)] && s'.starts == s.starts
    requires |PubsTo(s'.d, q)| == |PubsTo(s.d, q)| + (if s.rings[q].pcs[t].PushRel? then 1 else 0)
    ensures RoomIn(s', q)
  {
    EpochStep(s.rings[q], t, s.starts[q], Pushes(s, q));
    StepShape(s.rings[q], t);
    AccessFlight(s.rings[q], t);
    RingRoom(s', q, Pushes(s, q));
  }

  /** An access counts the same pushes, and refuses none while the run fits the ring. */
  lemma AccessRoom(s: State, t: R.Tid, q: QueueId, s': State)
    requires Inv(s) && Roomy(s) && Step(s, Access(t, q), s') && |s.d.x.g| <= |s.rings[q].cells|
    ensures Roomy(s')
  {
    PushesBound(s, q);
    AccessIs(s, t, q, s');
    forall p | p in s'.rings ensures RoomIn(s', p) {
      assert RoomIn(s, p);
      AccessPubs(s, t, q, s', p);
      if p == q { OwnAccess(s, t, q, s'); } else { OtherRoom(s, s', p); }
    }
  }

  // ---------------------------------------------------------------- theorem

  /** Every ring has the given number of cells. */
  predicate Sized(s: State, cap: nat) { forall q :: q in s.rings ==> |s.rings[q].cells| == cap }

  lemma StaysSized(s: State, op: Op, s': State, cap: nat)
    requires Sized(s, cap) && Step(s, op, s')
    ensures Sized(s', cap)
  {}

  lemma StaysRoomy(s: State, op: Op, s': State, cap: nat)
    requires Inv(s) && Roomy(s) && Sized(s, cap) && |s.d.x.g| <= cap && Step(s, op, s')
    ensures Roomy(s')
  {
    match op
    case Local(o) => if o.NextRun? { NextRoom(s, o, s'); } else { LocalRoom(s, o, s'); }
    case Access(t, q) => AccessRoom(s, t, q, s');
    case _ => CallRoom(s, op, s');
  }

  lemma BootRoom(s: State, cap: nat)
    requires Boots(s, cap) && 2 <= cap
    ensures Inv(s) && Roomy(s) && Sized(s, cap)
  {
    BootInv(s, cap);
    forall q | q in s.rings ensures RoomIn(s, q) {
      EmptyRing(s.rings[q].light, cap);
      FreshRoom(s, q);
    }
  }

  /** Good states: what every state of a run whose graphs fit the rings satisfies. */
  ghost predicate Good(s: State, cap: nat) { Inv(s) && Roomy(s) && Sized(s, cap) }

  lemma NextGood(tr: seq<State>, ops: seq<Op>, cap: nat, i: nat)
    requires Steps(tr, ops) && 0 < i < |tr| && Good(tr[i - 1], cap) && |tr[i - 1].d.x.g| <= cap
    ensures Good(tr[i], cap)
  {
    assert Step(tr[i - 1], ops[i - 1], tr[i - 1 + 1]);
    NextInv(tr, ops, i);
    StaysRoomy(tr[i - 1], ops[i - 1], tr[i], cap);
    StaysSized(tr[i - 1], ops[i - 1], tr[i], cap);
  }

  lemma {:induction false} AlwaysGood(cap: nat, tr: seq<State>, ops: seq<Op>, i: nat)
    requires 2 <= cap && Steps(tr, ops) && Boots(tr[0], cap) && i < |tr|
    requires forall k :: 0 <= k < |tr| ==> |tr[k].d.x.g| <= cap
    ensures Good(tr[i], cap)
  {
    if i == 0 {
      BootRoom(tr[0], cap);
    } else {
      AlwaysGood(cap, tr, ops, i - 1);
      NextGood(tr, ops, cap, i);
    }
  }

  /**
    Over any number of consecutive runs of graphs of at most `cap` tasks, at any
    moment of any interleaving, no push has returned false.
   */
  lemma PushNeverFails(cap: nat, tr: seq<State>, ops: seq<Op>, i: nat, q: QueueId, t: R.Tid)
    requires 2 <= cap && Steps(tr, ops) && Boots(tr[0], cap) && i < |tr|
    requires forall k :: 0 <= k < |tr| ==> |tr[k].d.x.g| <= cap
    ensures PcAt(tr[i], q, t) != R.PushRet(false)
  {
    AlwaysGood(cap, tr, ops, i);
    if q in tr[i].rings { assert RoomIn(tr[i], q); }
  }
}
