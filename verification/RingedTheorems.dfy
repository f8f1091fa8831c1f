/** What the runtime on real rings guarantees over whole runs. */
module RingedTheorems {
  import opened TaskTypes
  import opened TaskGraph
  import opened Routing
  import opened MpmcRingTheorems
  import opened RingedDataflow
  import opened RingedSafety
  import D = Dataflow
  import R = MpmcRing
  import RS = MpmcRingSafety
  import DS = DataflowSafety
  import DT = DataflowTheorems
  import SerialExec
  import RunMemory

  // ------------------------------------------------------------------ traces

  /** A fresh runtime: every ring newly initialised with the same capacity. */
  ghost predicate Boots(s: State, cap: nat) {
    && DT.Boots(s.d)
    && (forall q :: q in s.rings <==> HasRing(s.d.x.cfg, q))
    && (forall q :: q in s.rings ==> s.rings[q] == R.Init(s.rings[q].light, cap))
    && s.starts == Heads(s.rings)
  }

  ghost predicate Steps(tr: seq<State>, ops: seq<Op>) {
    |tr| == |ops| + 1 && forall i :: 0 <= i < |ops| ==> Step(tr[i], ops[i], tr[i + 1])
  }

  lemma EmptyRing(light: bool, cap: nat)
    requires 2 <= cap
    ensures R.Inv(R.Init(light, cap)) && Contents(R.Init(light, cap)) == multiset{}
    ensures Quiescent(R.Init(light, cap))
  {
    RS.InitInv(light, cap);
    assert R.Init(light, cap).log == [];
  }

  lemma BootInv(s: State, cap: nat)
    requires Boots(s, cap) && 2 <= cap
    ensures Inv(s)
  {
    forall q | q in s.rings ensures R.Inv(s.rings[q]) && Contents(s.rings[q]) == multiset{} && s.rings[q].pcs == map[] {
      EmptyRing(s.rings[q].light, cap);
    }
    var dep, mem :| |dep| == |s.d.x.g| && s.d == D.Begin(s.d.x, dep, map[], map[], mem);
    DS.BeginInv(s.d.x, dep, Bags(s.rings), map[], mem);
    assert Abs(s) == D.Begin(s.d.x, dep, Bags(s.rings), map[], mem);
    NobodyInside(s);
  }

  lemma NobodyInside(s: State)
    requires forall q :: q in s.rings ==> s.rings[q].pcs == map[]
    ensures Links(s) && OneAtATime(s)
  {
    forall q, t | q in s.rings ensures LinkedAt(s, q, t) { assert PcAt(s, q, t) == R.Idle; }
  }

  /** The invariant holds in every state reachable over any number of consecutive runs. */
  lemma {:induction false} AlwaysInv(cap: nat, tr: seq<State>, ops: seq<Op>, i: nat)
    requires 2 <= cap && Steps(tr, ops) && Boots(tr[0], cap) && i < |tr|
    ensures Inv(tr[i])
  {
    if i == 0 {
      BootInv(tr[0], cap);
    } else {
      AlwaysInv(cap, tr, ops, i - 1);
      NextInv(tr, ops, i);
    }
  }

  lemma NextInv(tr: seq<State>, ops: seq<Op>, i: nat)
    requires Steps(tr, ops) && 0 < i < |tr| && Inv(tr[i - 1])
    ensures Inv(tr[i])
  {
    assert Step(tr[i - 1], ops[i - 1], tr[i - 1 + 1]);
    StepKeepsInv(tr[i - 1], ops[i - 1], tr[i]);
  }

  /** A run on bags from a to b. */
  ghost predicate Leads(tr: seq<D.State>, ops: seq<D.Op>, a: D.State, b: D.State) {
    DT.Steps(tr, ops) && tr[0] == a && tr[|tr| - 1] == b
  }

  lemma LeadsOn(tr: seq<D.State>, ops: seq<D.Op>, a: D.State, b: D.State, o: D.Op, c: D.State)
    requires Leads(tr, ops, a, b) && D.Step(b, o, c)
    ensures Leads(tr + [c], ops + [o], a, c)
  {
    var tr', ops' := tr + [c], ops + [o];
    forall i | 0 <= i < |ops'| ensures D.Step(tr'[i], ops'[i], tr'[i + 1]) {
      if i < |ops| { assert D.Step(tr[i], ops[i], tr[i + 1]); }
    }
  }

  lemma LeadsNowhere(a: D.State) returns (tr: seq<D.State>, ops: seq<D.Op>)
    ensures Leads(tr, ops, a, a) && ops == []
  {
    tr, ops := [a], [];
  }

  lemma OneRefines(tr: seq<State>, ops: seq<Op>, i: nat) returns (seen: Seen)
    requires Steps(tr, ops) && 0 < i < |tr| && Inv(tr[i - 1])
    ensures if seen.Seen? then D.Step(Abs(tr[i - 1]), seen.o, Abs(tr[i])) else Abs(tr[i]) == Abs(tr[i - 1])
  {
    assert Step(tr[i - 1], ops[i - 1], tr[i - 1 + 1]);
    seen := SeenAs(tr[i - 1], ops[i - 1]);
    StepRefines(tr[i - 1], ops[i - 1], tr[i]);
  }

  lemma LeadsNext(tr: seq<State>, ops: seq<Op>, i: nat, btr: seq<D.State>, bops: seq<D.Op>)
    returns (btr': seq<D.State>, bops': seq<D.Op>)
    requires Steps(tr, ops) && 0 < i < |tr| && Inv(tr[i - 1]) && Leads(btr, bops, Abs(tr[0]), Abs(tr[i - 1]))
    ensures Leads(btr', bops', Abs(tr[0]), Abs(tr[i])) && |bops'| <= |bops| + 1
  {
    var seen := OneRefines(tr, ops, i);
    btr', bops' := btr, bops;
    if seen.Seen? {
      LeadsOn(btr, bops, Abs(tr[0]), Abs(tr[i - 1]), seen.o, Abs(tr[i]));
      btr', bops' := btr + [Abs(tr[i])], bops + [seen.o];
    }
  }

  /** What a run on rings does, a run on bags does. */
  lemma {:induction false} RunRefines(tr: seq<State>, ops: seq<Op>, i: nat) returns (btr: seq<D.State>, bops: seq<D.Op>)
    requires Steps(tr, ops) && Inv(tr[0]) && i < |tr|
    ensures Inv(tr[i]) && Leads(btr, bops, Abs(tr[0]), Abs(tr[i])) && |bops| <= i
  {
    if i == 0 {
      btr, bops := LeadsNowhere(Abs(tr[0]));
    } else {
      btr, bops := RunRefines(tr, ops, i - 1);
      NextInv(tr, ops, i);
      btr, bops := LeadsNext(tr, ops, i, btr, bops);
    }
  }

  // ------------------------------------------------------------ what carries over

  /** A finished pop returns the very tasks its unit has claimed, all of them still to be started. */
  lemma PoppedIsClaimed(s: State, q: QueueId, t: R.Tid)
    requires Inv(s) && q in s.rings && PcAt(s, q, t).PopRet?
    ensures ActorOf(t).On?
    ensures var out := PcAt(s, q, t).out;
            D.At(s.d, ActorOf(t).u) == if out == [] then D.Idle else D.Exec(out, D.AllHeld(|out|))
  {
    assert LinkedAt(s, q, t);
  }

  /** The effect of an access outside the ring is always defined. */
  lemma EffectDefined(s: State, q: QueueId, t: R.Tid) returns (d': D.State)
    requires D.Shape(Abs(s)) && RingsOk(s) && Links(s) && PcAt(s, q, t) != R.Idle
    ensures Effect(s.d, ActorOf(t), q, s.rings[q], PcAt(s, q, t), d')
  {
    var pc := PcAt(s, q, t);
    if pc.PushRel? {
      assert LinkedAt(s, q, t);
      WantsPublish(s, q, ActorOf(t), pc.v);
      d' := Published(s.d, ActorOf(t));
    } else if Claims(s.rings[q], pc) {
      IsClaiming(s, t, q);
      d' := ClaimDefined(s.d, ActorOf(t).u, q, s.rings[q], pc);
    } else {
      d' := s.d;
    }
  }

  lemma ClaimDefined(d: D.State, u: Unit, q: QueueId, r: R.State, pc: R.Pc) returns (d': D.State)
    requires Claims(r, pc) && r.tail + ClaimSize(pc) <= |r.log|
    ensures Effect(d, D.On(u), q, r, pc, d')
  {
    d' := Claimed(d, u, q, r.log[r.tail..r.tail + ClaimSize(pc)]);
  }

  lemma WantsPublish(s: State, q: QueueId, a: D.Actor, v: nat)
    requires D.Shape(Abs(s)) && Wants(s.d, a, v, q)
    ensures CanPublish(s.d, a)
  {}

  /** No access is ever blocked: whatever an operation in progress does next, it can do. */
  lemma AccessNeverBlocked(s: State, q: QueueId, t: R.Tid) returns (s': State)
    requires Inv(s) && PcAt(s, q, t) != R.Idle
    ensures Step(s, Access(t, q), s')
  {
    assert R.Inv(s.rings[q]);
    var d' := EffectDefined(s, q, t);
    s' := s.(d := d', rings := s.rings[q := R.Step(s.rings[q], t)]);
  }

  /** The memory a run leaves is the one run_serial leaves, with the queues' accesses interleaved in any way. */
  lemma MemoryIsSerial(s: State, order: seq<nat>)
    requires Inv(s) && s.d.host.Returned? && Topological(s.d.x.g, order)
    ensures SerialExec.AllTasks(s.d.x.work, order) && s.d.mem == SerialExec.Exec(s.d.x.work, s.d.start, order)
    ensures RunMemory.Leaves(s.d.x.work, s.d.start, order, s.d.mem)
  {
    DT.MemoryIsSerial(Abs(s), order);
  }

  // ---------------------------------------------------------------- no stall

  lemma DestHasRing(c: Config, t: TaskInfo, id: nat, fromGpu: bool)
    ensures HasRing(c, Destination(c, t, id, fromGpu))
  {}

  ghost predicate AllFree(s: State) { forall q, t {:trigger PcAt(s, q, t)} :: PcAt(s, q, t) == R.Idle }

  /** A publish the dataflow protocol could make can be begun on the ring. */
  lemma PushBegins(s: State, o: D.Op, b': D.State) returns (op: Op, s': State)
    requires Inv(s) && AllFree(s) && OnQueue(s.d, o) && !o.DoClaim? && D.Step(Abs(s), o, b')
    ensures op.CallPush? && Step(s, op, s')
  {
    var a := Performer(o);
    var v := if a.Host? then s.d.host.i else D.At(s.d, a.u).gs[D.At(s.d, a.u).j].cid;
    assert a.On? ==> D.At(Abs(s), a.u) == D.At(s.d, a.u);
    var q := D.DestOf(s.d, v, a.On? && a.u.Gpu?);
    DestHasRing(s.d.x.cfg, s.d.x.info[v], v, a.On? && a.u.Gpu?);
    assert Wants(s.d, a, v, q);
    ActorBack(a);
    op, s' := CallPush(TidOf(a), q, v), s.(rings := s.rings[q := R.Invoke(s.rings[q], TidOf(a), R.Push(v))]);
  }

  lemma ActorBack(a: D.Actor)
    ensures ActorOf(TidOf(a)) == a
  {}

  /** So can a claim, of a ring that holds something. */
  lemma PopBegins(s: State, o: D.Op, b': D.State) returns (op: Op, s': State)
    requires Inv(s) && AllFree(s) && o.DoClaim? && D.Step(Abs(s), o, b')
    ensures op.CallPop? && Step(s, op, s') && Contents(s.rings[op.q]) != multiset{}
  {
    var a := D.On(o.u);
    assert D.At(Abs(s), o.u) == D.At(s.d, o.u);
    assert o.ids[0] in multiset(o.ids);
    assert D.In(Abs(s), o.q) != multiset{};
    ActorBack(a);
    op := CallPop(TidOf(a), o.q);
    s' := s.(rings := s.rings[o.q := R.Invoke(s.rings[o.q], TidOf(a), PopCall(s.d.x.cfg, o.u))]);
  }

  lemma LocalBegins(s: State, o: D.Op, b': D.State) returns (s': State)
    requires AllFree(s) && !OnQueue(s.d, o) && D.Step(Abs(s), o, b')
    ensures Step(s, Local(o), s')
  {
    LocalLifts(Abs(s), o, b', s.d.queues);
    assert Abs(s).(queues := s.d.queues) == s.d;
    s' := State(b'.(queues := s.d.queues), s.rings, if o.NextRun? then Heads(s.rings) else s.starts);
  }

  /**
    While no thread is inside a queue operation and run() has not returned, a productive
    access outside the queues, a push, or a pop of a ring that holds something can begin.
   */
  lemma NoStall(s: State) returns (op: Op, s': State)
    requires Inv(s) && DT.AllServed(s.d.x) && !s.d.host.Returned? && AllFree(s)
    ensures Step(s, op, s') && !op.Access?
    ensures op.CallPop? ==> Contents(s.rings[op.q]) != multiset{}
    ensures op.Local? ==> DT.Advances(Abs(s), op.o)
  {
    var o, b' := DT.NoStall(Abs(s));
    if !OnQueue(s.d, o) {
      op := Local(o);
      s' := LocalBegins(s, o, b');
    } else if o.DoClaim? {
      op, s' := PopBegins(s, o, b');
    } else {
      op, s' := PushBegins(s, o, b');
    }
  }

  // -------------------------------------------------------------- quiescence

  /** After run() has returned no thread is between a push or claim and its end. */
  lemma ReturnedThreads(s: State, q: QueueId, t: R.Tid)
    requires Inv(s) && s.d.host.Returned? && q in s.rings
    ensures var pc := PcAt(s, q, t); !R.Owner(pc) && !Pushing(pc) && !pc.PushRet?
  {
    DT.ReturnedMeansRetired(Abs(s));
    assert LinkedAt(s, q, t);
    var a := ActorOf(t);
    if a.On? { assert D.At(s.d, a.u) == D.At(Abs(s), a.u) == D.Idle; }
  }

  /** After run() has returned every ring is drained and no cell of it is in use. */
  lemma ReturnedIsQuiescent(s: State, q: QueueId)
    requires Inv(s) && s.d.host.Returned? && q in s.rings
    ensures Quiescent(s.rings[q])
  {
    var r := s.rings[q];
    forall t | t in r.pcs ensures !R.Owner(r.pcs[t]) && !Pushing(r.pcs[t]) && !r.pcs[t].PushRet? {
      ReturnedThreads(s, q, t);
      assert PcAt(s, q, t) == r.pcs[t];
    }
    DT.ReturnedMeansRetired(Abs(s));
    assert D.In(Abs(s), q) == Contents(r) == multiset{};
    if r.tail < r.head {
      AllVisible(r, r.tail);
      BagHas(Available(r), r.log, |r.log|, r.tail);
      assert false;
    }
  }
}
