/** The dataflow protocol on rings refines the one on bags, step by step. */
module RingedSafety {
  import opened TaskTypes
  import opened TaskGraph
  import opened Routing
  import opened MpmcRingTheorems
  import opened RingedDataflow
  import D = Dataflow
  import R = MpmcRing
  import RS = MpmcRingSafety
  import DS = DataflowSafety

  // ----------------------------------------------------- lifting onto bags

  lemma ScanLifts(d: D.State, d': D.State, qs: BagMap)
    requires D.Step(d, D.DoScan, d') && !OnQueue(d, D.DoScan)
    ensures D.Step(d.(queues := qs), D.DoScan, d'.(queues := qs))
  {}

  lemma NextRunLifts(d: D.State, o: D.Op, d': D.State, qs: BagMap)
    requires D.Step(d, o, d') && o.NextRun?
    ensures D.Step(d.(queues := qs), o, d'.(queues := qs))
  {}

  lemma WaitLifts(d: D.State, o: D.Op, d': D.State, qs: BagMap)
    requires D.Step(d, o, d') && (o.DoReset? || o.LoadFlag? || o.LoadCount?)
    ensures D.Step(d.(queues := qs), o, d'.(queues := qs))
  {}

  lemma HostLifts(d: D.State, o: D.Op, d': D.State, qs: BagMap)
    requires D.Step(d, o, d') && !OnQueue(d, o) && Performer(o).Host?
    ensures D.Step(d.(queues := qs), o, d'.(queues := qs))
  {
    if o.DoScan? { ScanLifts(d, d', qs); } else if o.NextRun? { NextRunLifts(d, o, d', qs); }
        else { WaitLifts(d, o, d', qs); }
  }

  lemma BodyLifts(d: D.State, o: D.Op, d': D.State, qs: BagMap)
    requires D.Step(d, o, d') && (o.DoStart? || o.DoFinish?)
    ensures D.Step(d.(queues := qs), o, d'.(queues := qs))
  {
    assert D.At(d.(queues := qs), o.u) == D.At(d, o.u);
  }

  lemma EpilogueLifts(d: D.State, o: D.Op, d': D.State, qs: BagMap)
    requires D.Step(d, o, d') && (o.DoEnd? || o.DoDecrement? || o.DoCount?)
    ensures D.Step(d.(queues := qs), o, d'.(queues := qs))
  {
    assert D.At(d.(queues := qs), o.u) == D.At(d, o.u);
  }

  /** A step that uses no queue is the same step whatever the queues hold. */
  lemma LocalLifts(d: D.State, o: D.Op, d': D.State, qs: BagMap)
    requires D.Step(d, o, d') && !OnQueue(d, o)
    ensures D.Step(d.(queues := qs), o, d'.(queues := qs))
  {
    if Performer(o).Host? { HostLifts(d, o, d', qs); }
    else if o.DoStart? || o.DoFinish? { BodyLifts(d, o, d', qs); }
    else { EpilogueLifts(d, o, d', qs); }
  }

  ghost predicate Gains(qs: BagMap, qs': BagMap, q: QueueId, v: nat) {
    q in qs && qs' == qs[q := qs[q] + multiset{v}]
  }

  ghost predicate Loses(qs: BagMap, qs': BagMap, q: QueueId, ids: seq<nat>) {
    q in qs && multiset(ids) <= qs[q] && qs' == qs[q := qs[q] - multiset(ids)]
  }

  lemma PublishLifts(d: D.State, a: D.Actor, v: nat, q: QueueId, qs: BagMap, qs': BagMap)
    requires Wants(d, a, v, q) && CanPublish(d, a) && Gains(qs, qs', q, v)
    ensures D.Step(d.(queues := qs), PublishOp(a), Published(d, a).(queues := qs'))
  {
    if a.Host? {
      assert D.In(d.(queues := qs), q) == qs[q];
    } else {
      assert D.At(d.(queues := qs), a.u) == D.At(d, a.u);
    }
  }

  lemma ClaimLifts(d: D.State, u: Unit, q: QueueId, ids: seq<nat>, qs: BagMap, qs': BagMap)
    requires Polling(d, D.On(u), q) && 0 < |ids| <= ClaimLimit(d.x.cfg, u) && Loses(qs, qs', q, ids)
    ensures D.Step(d.(queues := qs), D.DoClaim(u, q, ids), Claimed(d, u, q, ids).(queues := qs'))
  {
    assert D.At(d.(queues := qs), u) == D.At(d, u);
  }

  // ------------------------------------------------------- links and frames

  /** Nothing actor a's queue operations depend on has changed. */
  ghost predicate SameView(d: D.State, d': D.State, a: D.Actor) {
    d'.x == d.x && if a.Host? then d'.host == d.host else D.At(d', a.u) == D.At(d, a.u)
  }

  lemma LinkStays(d: D.State, d': D.State, log: seq<R.Val>, log': seq<R.Val>, q: QueueId, a: D.Actor, pc: R.Pc)
    requires Linked(d, log, q, a, pc) && SameView(d, d', a) && log <= log'
    ensures Linked(d', log', q, a, pc)
  {
    if pc.Take? { assert log'[pc.pos..pc.pos + pc.m] == log[pc.pos..pc.pos + pc.m]; }
  }

  lemma HostLeavesUnits(d: D.State, o: D.Op, d': D.State, u: Unit)
    requires D.Step(d, o, d') && !o.NextRun? && Performer(o).Host?
    ensures d'.x == d.x && D.At(d', u) == D.At(d, u)
  {}

  lemma UnitLeavesOthers(d: D.State, o: D.Op, d': D.State, u: Unit)
    requires D.Step(d, o, d') && Performer(o).On?
    ensures d'.x == d.x && d'.host == d.host && (u != Performer(o).u ==> D.At(d', u) == D.At(d, u))
  {}

  lemma OthersSame(d: D.State, o: D.Op, d': D.State, a: D.Actor)
    requires D.Step(d, o, d') && !o.NextRun? && a != Performer(o)
    ensures SameView(d, d', a)
  {
    if Performer(o).Host? {
      HostLeavesUnits(d, o, d', a.u);
    } else {
      UnitLeavesOthers(d, o, d', if a.On? then a.u else Performer(o).u);
    }
  }

  lemma EffectOthers(d: D.State, a: D.Actor, q: QueueId, r: R.State, pc: R.Pc, d': D.State, b: D.Actor)
    requires Effect(d, a, q, r, pc, d') && b != a
    ensures SameView(d, d', b)
  {}

  /** An access outside the queues breaks no link: its own thread is in no queue operation. */
  lemma LocalLinks(s: State, o: D.Op, s': State)
    requires Links(s) && Step(s, Local(o), s') && !o.NextRun?
    ensures Links(s')
  {
    forall q, t | q in s'.rings ensures LinkedAt(s', q, t) {
      assert LinkedAt(s, q, t);
      if ActorOf(t) != Performer(o) {
        OthersSame(s.d, o, s'.d, ActorOf(t));
        LinkStays(s.d, s'.d, s.rings[q].log, s.rings[q].log, q, ActorOf(t), PcAt(s, q, t));
      } else {
        assert PcAt(s, q, t) == R.Idle;
      }
    }
  }

  lemma NextRunLinks(s: State, o: D.Op, s': State)
    requires Inv(s) && Step(s, Local(o), s') && o.NextRun?
    ensures Links(s')
  {
    DS.NothingHeld(Abs(s));
    forall q, t | q in s'.rings ensures LinkedAt(s', q, t) {
      assert LinkedAt(s, q, t);
      IdleLink(s, s', q, ActorOf(t), PcAt(s, q, t));
    }
  }

  lemma IdleLink(s: State, s': State, q: QueueId, a: D.Actor, pc: R.Pc)
    requires q in s.rings && Linked(s.d, s.rings[q].log, q, a, pc) && s.d.host.Returned?
    requires forall u :: D.At(Abs(s), u) == D.Idle
    requires s'.d.x.cfg == s.d.x.cfg && s'.d.threads == s.d.threads
    ensures Linked(s'.d, s.rings[q].log, q, a, pc)
  {
    if a.On? { assert D.At(Abs(s), a.u) == D.At(s.d, a.u) == D.At(s'.d, a.u); }
  }

  // ------------------------------------------------- an access of one thread

  lemma PushAhead(r: R.State, t: R.Tid)
    requires 0 < |r.cells| && t in r.pcs && Making(r.pcs[t])
    ensures var pc, pc' := r.pcs[t], R.Step(r, t).pcs[t];
            if pc.PushRel? then pc' == R.PushRet(true) else (Making(pc') && pc'.v == pc.v) || pc' == R.PushRet(false)
  {}

  lemma PublishedLink(d: D.State, log: seq<R.Val>, q: QueueId, a: D.Actor)
    requires CanPublish(d, a)
    ensures Linked(Published(d, a), log, q, a, R.PushRet(true))
  {}

  /** A thread that is pushing goes on with the same task until it is published. */
  lemma PushLink(d: D.State, d': D.State, q: QueueId, a: D.Actor, r: R.State, t: R.Tid)
    requires 0 < |r.cells| && t in r.pcs && Making(r.pcs[t]) && Linked(d, r.log, q, a, r.pcs[t])
    requires Effect(d, a, q, r, r.pcs[t], d')
    ensures Linked(d', R.Step(r, t).log, q, a, R.Step(r, t).pcs[t])
  {
    PushAhead(r, t);
    if r.pcs[t].PushRel? {
      PublishedLink(d, R.Step(r, t).log, q, a);
    } else {
      assert d' == d;
    }
  }

  lemma PopAhead(r: R.State, t: R.Tid)
    requires 0 < |r.cells| && t in r.pcs && (Popping(r.pcs[t]) || Scanning(r.pcs[t]))
    ensures var pc, pc' := r.pcs[t], R.Step(r, t).pcs[t];
            if Claims(r, pc) then pc' == R.Take(r.tail, ClaimSize(pc), 0, 0, [])
            else pc' == R.PopRet([]) || (Popping(pc) && Popping(pc'))
                 || (Scanning(pc) && Scanning(pc') && pc'.maxn == pc.maxn)
  {}

  lemma ClaimedThread(d: D.State, u: Unit, q: QueueId, ids: seq<nat>)
    ensures D.At(Claimed(d, u, q, ids), u) == D.Exec(ids, D.AllHeld(|ids|))
  {}

  lemma ClaimEffect(d: D.State, d': D.State, q: QueueId, a: D.Actor, r: R.State, pc: R.Pc)
    requires Claims(r, pc) && Effect(d, a, q, r, pc, d')
    ensures a.On? && r.tail + ClaimSize(pc) <= |r.log|
    ensures d' == Claimed(d, a.u, q, r.log[r.tail..r.tail + ClaimSize(pc)])
  {}

  lemma ClaimLink(d: D.State, d': D.State, q: QueueId, a: D.Actor, r: R.State, pc: R.Pc)
    requires Claims(r, pc) && Effect(d, a, q, r, pc, d')
    ensures Linked(d', r.log, q, a, R.Take(r.tail, ClaimSize(pc), 0, 0, []))
  {
    ClaimEffect(d, d', q, a, r, pc);
    ClaimedThread(d, a.u, q, r.log[r.tail..r.tail + ClaimSize(pc)]);
  }

  /** A pop that goes on, or found nothing, is still polling. */
  lemma StillPolling(d: D.State, log: seq<R.Val>, log': seq<R.Val>, q: QueueId, a: D.Actor, pc: R.Pc, pc': R.Pc)
    requires (Popping(pc) || Scanning(pc)) && Linked(d, log, q, a, pc)
    requires pc' == R.PopRet([]) || (Popping(pc) && Popping(pc'))
      || (Scanning(pc) && Scanning(pc') && pc'.maxn == pc.maxn)
    ensures Linked(d, log', q, a, pc')
  {}

  lemma NoEffect(d: D.State, a: D.Actor, q: QueueId, r: R.State, pc: R.Pc, d': D.State)
    requires Effect(d, a, q, r, pc, d') && !pc.PushRel? && !Claims(r, pc)
    ensures d' == d
  {}

  lemma PopLink(d: D.State, d': D.State, q: QueueId, a: D.Actor, r: R.State, t: R.Tid)
    requires 0 < |r.cells| && t in r.pcs && (Popping(r.pcs[t]) || Scanning(r.pcs[t]))
      && Linked(d, r.log, q, a, r.pcs[t])
    requires Effect(d, a, q, r, r.pcs[t], d')
    ensures Linked(d', R.Step(r, t).log, q, a, R.Step(r, t).pcs[t])
  {
    var pc, r' := r.pcs[t], R.Step(r, t);
    PopAhead(r, t);
    if Claims(r, pc) {
      ClaimLink(d, d', q, a, r, pc);
      StepLog(r, t);
    } else {
      NoEffect(d, a, q, r, pc, d');
      StillPolling(d, r.log, r'.log, q, a, pc, r'.pcs[t]);
    }
  }

  lemma TakeLink(d: D.State, d': D.State, q: QueueId, a: D.Actor, r: R.State, t: R.Tid)
    requires R.Inv(r) && t in r.pcs && r.pcs[t].Take? && Linked(d, r.log, q, a, r.pcs[t])
    requires Effect(d, a, q, r, r.pcs[t], d')
    ensures Linked(d', R.Step(r, t).log, q, a, R.Step(r, t).pcs[t])
  {
    var pc, pc' := r.pcs[t], R.Step(r, t).pcs[t];
    assert R.PcOk(r, pc);
    assert pc'.Take? ==> pc'.pos == pc.pos && pc'.m == pc.m;
    if pc'.PopRet? {
      ReturnedInOrder(r, t);
      assert |pc'.out| == pc.m;
    }
  }

  lemma SelfLink(d: D.State, d': D.State, q: QueueId, a: D.Actor, r: R.State, t: R.Tid)
    requires R.Inv(r) && t in r.pcs && r.pcs[t] != R.Idle && Linked(d, r.log, q, a, r.pcs[t])
    requires Effect(d, a, q, r, r.pcs[t], d')
    ensures Linked(d', R.Step(r, t).log, q, a, R.Step(r, t).pcs[t])
  {
    var pc := r.pcs[t];
    if Making(pc) { PushLink(d, d', q, a, r, t); }
    else if Popping(pc) || Scanning(pc) { PopLink(d, d', q, a, r, t); }
    else if pc.Take? { TakeLink(d, d', q, a, r, t); }
  }

  /** Every access keeps all links. */
  lemma AccessLinks(s: State, t: R.Tid, q: QueueId, s': State)
    requires RingsOk(s) && Links(s) && OneAtATime(s) && Step(s, Access(t, q), s')
    ensures Links(s')
  {
    var r := s.rings[q];
    StepShape(r, t);
    StepLog(r, t);
    forall p, u | p in s'.rings ensures LinkedAt(s', p, u) {
      assert LinkedAt(s, p, u) && LinkedAt(s, q, t);
      if u != t {
        EffectOthers(s.d, ActorOf(t), q, r, r.pcs[t], s'.d, ActorOf(u));
        assert PcAt(s', p, u) == PcAt(s, p, u);
        LinkStays(s.d, s'.d, s.rings[p].log, s'.rings[p].log, p, ActorOf(u), PcAt(s, p, u));
      } else if p == q {
        SelfLink(s.d, s'.d, q, ActorOf(t), r, t);
      }
    }
  }

  lemma CallLinks(s: State, op: Op, s': State)
    requires Links(s) && Step(s, op, s') && (op.CallPush? || op.CallPop?)
    ensures Links(s')
  {
    forall p, u | p in s'.rings ensures LinkedAt(s', p, u) {
      assert LinkedAt(s, p, u);
      if u != op.t || p != op.q { assert PcAt(s', p, u) == PcAt(s, p, u); }
    }
  }

  // ------------------------------------------------------ the other invariants

  /** A step moves at most one thread in one ring, and that thread is in no other. */
  lemma MovesOne(s: State, op: Op, s': State, p: QueueId, t: R.Tid)
    requires Step(s, op, s') && (op.Local? || t != op.t || p != op.q)
    ensures PcAt(s', p, t) == PcAt(s, p, t)
  {
    if op.Access? { StepShape(s.rings[op.q], op.t); }
  }

  lemma MoverIsAlone(s: State, op: Op, s': State, p: QueueId)
    requires OneAtATime(s) && Step(s, op, s') && !op.Local? && p != op.q
    ensures PcAt(s, p, op.t) == R.Idle
  {
    if op.Access? { assert PcAt(s, op.q, op.t) != R.Idle; }
  }

  lemma StaysSingle(s: State, op: Op, s': State)
    requires OneAtATime(s) && Step(s, op, s')
    ensures OneAtATime(s')
  {
    forall t, p, q | p != q && PcAt(s', p, t) != R.Idle ensures PcAt(s', q, t) == R.Idle {
      SinglePair(s, op, s', p, q, t);
    }
  }

  lemma SinglePair(s: State, op: Op, s': State, p: QueueId, q: QueueId, t: R.Tid)
    requires OneAtATime(s) && Step(s, op, s') && p != q && PcAt(s', p, t) != R.Idle
    ensures PcAt(s', q, t) == R.Idle
  {
    if op.Local? || t != op.t || p != op.q { MovesOne(s, op, s', p, t); } else { MoverIsAlone(s, op, s', q); }
    if op.Local? || t != op.t || q != op.q { MovesOne(s, op, s', q, t); } else { MoverIsAlone(s, op, s', p); }
  }

  lemma SameConfig(s: State, op: Op, s': State)
    requires Step(s, op, s')
    ensures s'.d.x.cfg == s.d.x.cfg
  {
    match op
    case Local(o) => LocalConfig(s.d, o, s'.d);
    case Access(t, q) => AccessIs(s, t, q, s'); EffectConfig(s.d, ActorOf(t), q, s.rings[q], s.rings[q].pcs[t], s'.d);
    case _ =>
  }

  lemma EffectConfig(d: D.State, a: D.Actor, q: QueueId, r: R.State, pc: R.Pc, d': D.State)
    requires Effect(d, a, q, r, pc, d')
    ensures d'.x == d.x
  {}

  lemma LocalConfig(d: D.State, o: D.Op, d': D.State)
    requires D.Step(d, o, d')
    ensures d'.x.cfg == d.x.cfg
  {}

  lemma StaysRings(s: State, op: Op, s': State)
    requires RingsOk(s) && Step(s, op, s')
    ensures RingsOk(s')
  {
    SameConfig(s, op, s');
    if op.Access? {
      RS.StepKeepsInv(s.rings[op.q], op.t);
    } else if !op.Local? {
      assert R.CanInvoke(s.rings[op.q], op.t) by { assert PcAt(s, op.q, op.t) == R.Idle; }
      var call := if op.CallPush? then R.Push(op.v) else PopCall(s.d.x.cfg, ActorOf(op.t).u);
      RS.InvokeKeepsInv(s.rings[op.q], op.t, call);
    }
  }

  // -------------------------------------------------------------- refinement

  /** Abstraction commutes with a ring's change. */
  lemma BagsAfter(rings: map<QueueId, R.State>, q: QueueId, r: R.State)
    requires q in rings
    ensures Bags(rings[q := r]) == Bags(rings)[q := Contents(r)]
  {}

  lemma SameBags(rings: map<QueueId, R.State>, q: QueueId, r: R.State)
    requires q in rings && Contents(r) == Contents(rings[q])
    ensures Bags(rings[q := r]) == Bags(rings)
  {
    BagsAfter(rings, q, r);
  }

  lemma CallContents(r: R.State, t: R.Tid, op: R.Op)
    ensures Contents(R.Invoke(r, t, op)) == Contents(r)
  {
    if 0 < |r.cells| { assert Available(R.Invoke(r, t, op)) == Available(r); }
  }

  /** A call changes no bag. */
  lemma CallHides(s: State, op: Op, s': State)
    requires Step(s, op, s') && (op.CallPush? || op.CallPop?)
    ensures Abs(s') == Abs(s)
  {
    var call := if op.CallPush? then R.Push(op.v) else PopCall(s.d.x.cfg, ActorOf(op.t).u);
    CallContents(s.rings[op.q], op.t, call);
    SameBags(s.rings, op.q, R.Invoke(s.rings[op.q], op.t, call));
  }

  lemma AccessPublishes(s: State, t: R.Tid, q: QueueId, s': State)
    requires RingsOk(s) && Links(s) && Step(s, Access(t, q), s') && s.rings[q].pcs[t].PushRel?
    ensures D.Step(Abs(s), PublishOp(ActorOf(t)), Abs(s'))
  {
    var r := s.rings[q];
    assert LinkedAt(s, q, t);
    StepContents(r, t);
    BagsAfter(s.rings, q, R.Step(r, t));
    PublishLifts(s.d, ActorOf(t), r.pcs[t].v, q, Bags(s.rings), Bags(s'.rings));
  }

  /** A claim takes at most what one claim of its unit may take. */
  lemma ClaimFits(s: State, t: R.Tid, q: QueueId)
    requires RingsOk(s) && Links(s) && q in s.rings && t in s.rings[q].pcs && Claims(s.rings[q], s.rings[q].pcs[t])
    ensures var a, pc := ActorOf(t), s.rings[q].pcs[t];
            Polling(s.d, a, q) && 0 < ClaimSize(pc) <= ClaimLimit(s.d.x.cfg, a.u)
  {
    assert LinkedAt(s, q, t);
    assert PcAt(s, q, t) == s.rings[q].pcs[t];
    assert R.PcOk(s.rings[q], s.rings[q].pcs[t]);
  }

  lemma TakenOut(c: multiset<nat>, c': multiset<nat>, m: multiset<nat>)
    requires c == c' + m
    ensures m <= c && c' == c - m
  {}

  lemma BagLoses(rings: map<QueueId, R.State>, q: QueueId, r': R.State, ids: seq<nat>)
    requires q in rings && Contents(rings[q]) == Contents(r') + multiset(ids)
    ensures Loses(Bags(rings), Bags(rings[q := r']), q, ids)
  {
    BagsAfter(rings, q, r');
    TakenOut(Contents(rings[q]), Contents(r'), multiset(ids));
  }

  lemma RingClaims(r: R.State, t: R.Tid)
    requires R.Inv(r) && t in r.pcs && Claims(r, r.pcs[t])
    ensures r.tail + ClaimSize(r.pcs[t]) <= |r.log|
    ensures Contents(r) == Contents(R.Step(r, t)) + multiset(r.log[r.tail..r.tail + ClaimSize(r.pcs[t])])
  {
    StepContents(r, t);
  }

  lemma ClaimSeen(s: State, t: R.Tid, q: QueueId)
    requires PcAt(s, q, t) != R.Idle && Claims(s.rings[q], PcAt(s, q, t)) && ActorOf(t).On?
    requires s.rings[q].tail + ClaimSize(PcAt(s, q, t)) <= |s.rings[q].log|
    ensures var r, m := s.rings[q], ClaimSize(PcAt(s, q, t));
            SeenAs(s, Access(t, q)) == Seen(D.DoClaim(ActorOf(t).u, q, r.log[r.tail..r.tail + m]))
  {}

  lemma AccessIs(s: State, t: R.Tid, q: QueueId, s': State)
    requires Step(s, Access(t, q), s')
    ensures q in s.rings && t in s.rings[q].pcs && 0 < |s.rings[q].cells|
    ensures s'.rings == s.rings[q := R.Step(s.rings[q], t)]
    ensures Effect(s.d, ActorOf(t), q, s.rings[q], s.rings[q].pcs[t], s'.d)
  {}

  /** What is known of a claim, the ring's new state aside. */
  ghost predicate Claiming(s: State, t: R.Tid, q: QueueId, r': R.State) {
    && PcAt(s, q, t) != R.Idle
    && var r, a, pc := s.rings[q], ActorOf(t), PcAt(s, q, t);
       && Claims(r, pc) && Polling(s.d, a, q) && 0 < ClaimSize(pc) <= ClaimLimit(s.d.x.cfg, a.u)
       && r.tail + ClaimSize(pc) <= |r.log|
       && Contents(r) == Contents(r') + multiset(r.log[r.tail..r.tail + ClaimSize(pc)])
  }

  lemma IsClaiming(s: State, t: R.Tid, q: QueueId)
    requires RingsOk(s) && Links(s) && PcAt(s, q, t) != R.Idle && Claims(s.rings[q], s.rings[q].pcs[t])
    ensures Claiming(s, t, q, R.Step(s.rings[q], t))
  {
    ClaimFits(s, t, q);
    RingClaims(s.rings[q], t);
  }

  lemma AccessClaims(s: State, t: R.Tid, q: QueueId, r': R.State, s': State)
    requires Claiming(s, t, q, r') && s'.rings == s.rings[q := r']
    requires Effect(s.d, ActorOf(t), q, s.rings[q], PcAt(s, q, t), s'.d)
    ensures SeenAs(s, Access(t, q)).Seen? && D.Step(Abs(s), SeenAs(s, Access(t, q)).o, Abs(s'))
  {
    ClaimSeen(s, t, q);
    var o := SeenAs(s, Access(t, q)).o;
    ClaimAbstracts(s.d, s.rings, o.u, q, o.ids, r', Abs(s), Abs(s'));
  }

  lemma ClaimAbstracts(d: D.State, rings: map<QueueId, R.State>, u: Unit, q: QueueId, ids: seq<nat>, r': R.State,
                       b: D.State, b': D.State)
    requires q in rings && Polling(d, D.On(u), q) && 0 < |ids| <= ClaimLimit(d.x.cfg, u)
    requires Contents(rings[q]) == Contents(r') + multiset(ids)
    requires b == d.(queues := Bags(rings)) && b' == Claimed(d, u, q, ids).(queues := Bags(rings[q := r']))
    ensures D.Step(b, D.DoClaim(u, q, ids), b')
  {
    BagLoses(rings, q, r', ids);
    ClaimLifts(d, u, q, ids, b.queues, b'.queues);
  }

  /** Every step on rings is no step, or one step, on bags. */
  lemma StepRefines(s: State, op: Op, s': State)
    requires RingsOk(s) && Links(s) && Step(s, op, s')
    ensures match SeenAs(s, op)
            case Nothing => Abs(s') == Abs(s)
            case Seen(o) => D.Step(Abs(s), o, Abs(s'))
  {
    match op
    case Local(o) => LocalLifts(s.d, o, s'.d, Bags(s.rings));
    case CallPush(_, _, _) => CallHides(s, op, s');
    case CallPop(_, _) => CallHides(s, op, s');
    case Access(t, q) =>
      var r := s.rings[q];
      if r.pcs[t].PushRel? { AccessPublishes(s, t, q, s'); }
      else if Claims(r, r.pcs[t]) {
        IsClaiming(s, t, q);
        AccessIs(s, t, q, s');
        AccessClaims(s, t, q, R.Step(r, t), s');
      }
      else {
        StepContents(r, t);
        SameBags(s.rings, q, R.Step(r, t));
      }
  }

  lemma StepKeepsInv(s: State, op: Op, s': State)
    requires Inv(s) && Step(s, op, s')
    ensures Inv(s')
  {
    StepRefines(s, op, s');
    if SeenAs(s, op).Seen? { DS.StepKeepsInv(Abs(s), SeenAs(s, op).o, Abs(s')); }
    StaysRings(s, op, s');
    StaysSingle(s, op, s');
    match op
    case Local(o) => if o.NextRun? { NextRunLinks(s, o, s'); } else { LocalLinks(s, o, s'); }
    case Access(t, q) => AccessLinks(s, t, q, s');
    case _ => CallLinks(s, op, s');
  }
}
