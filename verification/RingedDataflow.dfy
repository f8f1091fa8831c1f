/**
  The dataflow protocol on its real queues: one ring per queue id, and every
  publish and every claim runs through the ring's own loads, CASes and stores,
  interleaved with everything else (src/runtime/runtime_internal.h: fl_publish;
  the pop calls of runtime.cpp and gpu_exec.cu).
 */
module RingedDataflow {
  import opened TaskTypes
  import opened TaskGraph
  import opened Routing
  import opened MpmcRingTheorems
  import D = Dataflow
  import R = MpmcRing

  /**
    `d` is the state outside the queues; its own bags stay unused, the rings
    stand in their place.  `starts` is history: each ring's head when the current
    run began.
   */
  datatype State = State(d: D.State, rings: map<QueueId, R.State>, starts: map<QueueId, nat>)

  // ---------------------------------------------------------------- threads

  /** The ring's thread numbers: the host, then workers and blocks alternately. */
  function TidOf(a: D.Actor): R.Tid {
    match a
    case Host => 0
    case On(Cpu(w)) => 2 * w + 1
    case On(Gpu(b)) => 2 * b + 2
  }

  function ActorOf(t: R.Tid): (a: D.Actor)
    ensures TidOf(a) == t
  {
    if t == 0 then D.Host else if t % 2 == 1 then D.On(Cpu(t / 2)) else D.On(Gpu(t / 2 - 1))
  }

  predicate HasRing(c: Config, q: QueueId) {
    if q.Shared? then q.i < 4 else c.perblock && q.b < c.blocks
  }

  /** What thread t is doing in ring q. */
  function PcAt(s: State, q: QueueId, t: R.Tid): R.Pc {
    if q in s.rings && t in s.rings[q].pcs then s.rings[q].pcs[t] else R.Idle
  }

  /** The thread is in no queue operation. */
  ghost predicate Free(s: State, t: R.Tid) { forall q :: PcAt(s, q, t) == R.Idle }

  // ------------------------------------------------------- what threads want

  /** Actor a has task v to publish to queue q: a root under scan, or a consumer whose counter hit zero. */
  ghost predicate Wants(d: D.State, a: D.Actor, v: nat, q: QueueId) {
    && v < |d.x.info|
    && match a
       case Host => d.host == D.Scan(v) && v < |d.x.g| && D.Root(d.x.g, v) && q == D.DestOf(d, v, false)
       case On(u) =>
         var th := D.At(d, u);
         th.Push? && th.j < |th.gs| && th.gs[th.j].cid == v && q == D.DestOf(d, v, u.Gpu?)
  }

  /** Actor a is an idle unit that may pop queue q. */
  predicate Polling(d: D.State, a: D.Actor, q: QueueId) {
    a.On? && D.At(d, a.u) == D.Idle && Live(d.x.cfg, a.u) && MayPop(d.x.cfg, a.u, q)
  }

  /** A worker pops one task, a block up to its batch. */
  function PopCall(c: Config, u: Unit): R.Op { if u.Cpu? then R.Pop else R.PopBulk(c.batch) }

  // ------------------------------------------------------------------ steps

  /** Whose step a dataflow step is. */
  function Performer(o: D.Op): D.Actor {
    match o
    case DoClaim(u, _, _) => D.On(u)
    case DoStart(u, _) => D.On(u)
    case DoFinish(u, _) => D.On(u)
    case DoEnd(u) => D.On(u)
    case DoDecrement(u) => D.On(u)
    case DoPublish(u) => D.On(u)
    case DoCount(u) => D.On(u)
    case _ => D.Host
  }

  /** Steps that touch a queue; here they take many accesses. */
  predicate OnQueue(d: D.State, o: D.Op) {
    o.DoClaim? || o.DoPublish? || (o.DoScan? && d.host.Scan? && d.host.i < |d.x.g| && D.Root(d.x.g, d.host.i))
  }

  ghost predicate CanPublish(d: D.State, a: D.Actor) {
    match a
    case Host => d.host.Scan? && d.host.i < |d.x.info| && d.host.i < |d.phase|
    case On(u) =>
      var th := D.At(d, u);
      th.Push? && th.j < |th.gs| && th.gs[th.j].cid < |d.x.info| == |d.phase|
  }

  /** Everything a publish does outside the queue. */
  function Published(d: D.State, a: D.Actor): D.State
    requires CanPublish(d, a)
  {
    (match a case Host => D.ScanOne(d, d.host.i) case On(u) => D.Publish(d, u)).(queues := d.queues)
  }

  /** Everything a claim does outside the queue. */
  function Claimed(d: D.State, u: Unit, q: QueueId, ids: seq<nat>): D.State {
    D.Claim(d, u, q, ids).(queues := d.queues)
  }

  /**
    What an access of ring r means outside it: the store that publishes the cell
    completes the publish, a successful tail CAS is the claim.
   */
  ghost predicate Effect(d: D.State, a: D.Actor, q: QueueId, r: R.State, pc: R.Pc, d': D.State) {
    if pc.PushRel? then CanPublish(d, a) && d' == Published(d, a)
    else if Claims(r, pc) then
      a.On? && r.tail + ClaimSize(pc) <= |r.log| && d' == Claimed(d, a.u, q, r.log[r.tail..r.tail + ClaimSize(pc)])
    else d' == d
  }

  datatype Op =
    | Local(o: D.Op)                             // an access outside the queues
    | CallPush(t: R.Tid, q: QueueId, v: nat)     // also after a push that returned false
    | CallPop(t: R.Tid, q: QueueId)
    | Access(t: R.Tid, q: QueueId)               // the next access of a queue operation

  function Heads(rings: map<QueueId, R.State>): map<QueueId, nat> { map q | q in rings :: rings[q].head }

  ghost predicate Step(s: State, op: Op, s': State) {
    match op
    case Local(o) =>
      && Free(s, TidOf(Performer(o))) && !OnQueue(s.d, o) && D.Step(s.d, o, s'.d)
      && s'.rings == s.rings && s'.starts == (if o.NextRun? then Heads(s.rings) else s.starts)
    case CallPush(t, q, v) =>
      && q in s.rings && Free(s, t) && Wants(s.d, ActorOf(t), v, q)
      && s' == s.(rings := s.rings[q := R.Invoke(s.rings[q], t, R.Push(v))])
    case CallPop(t, q) =>
      && q in s.rings && Free(s, t) && Polling(s.d, ActorOf(t), q)
      && s' == s.(rings := s.rings[q := R.Invoke(s.rings[q], t, PopCall(s.d.x.cfg, ActorOf(t).u))])
    case Access(t, q) =>
      && PcAt(s, q, t) != R.Idle && 0 < |s.rings[q].cells|
      && s' == s.(d := s'.d, rings := s.rings[q := R.Step(s.rings[q], t)])
      && Effect(s.d, ActorOf(t), q, s.rings[q], s.rings[q].pcs[t], s'.d)
  }

  // ------------------------------------------------------------- abstraction

  type BagMap = map<QueueId, multiset<nat>>

  ghost function Bags(rings: map<QueueId, R.State>): BagMap {
    map q | q in rings :: Contents(rings[q])
  }

  /** The dataflow state with a bag for every queue. */
  ghost function Abs(s: State): D.State { s.d.(queues := Bags(s.rings)) }

  /** The dataflow step an operation amounts to, if any. */
  datatype Seen = Nothing | Seen(o: D.Op)

  function PublishOp(a: D.Actor): D.Op { match a case Host => D.DoScan case On(u) => D.DoPublish(u) }

  ghost function SeenAs(s: State, op: Op): Seen {
    match op
    case Local(o) => Seen(o)
    case CallPush(_, _, _) => Nothing
    case CallPop(_, _) => Nothing
    case Access(t, q) =>
      var pc, a := PcAt(s, q, t), ActorOf(t);
      if pc.PushRel? then Seen(PublishOp(a))
      else if pc == R.Idle || !Claims(s.rings[q], pc) then Nothing
      else
        var r, m := s.rings[q], ClaimSize(pc);
        if a.Host? || r.tail + m > |r.log| then Nothing else Seen(D.DoClaim(a.u, q, r.log[r.tail..r.tail + m]))
  }

  // --------------------------------------------------------------- invariant

  /** On the way to publishing, not yet visible. */
  predicate Making(pc: R.Pc) { pc.PushHead? || pc.PushSeq? || pc.PushCas? || pc.PushVal? || pc.PushRel? }

  predicate Popping(pc: R.Pc) { pc.PopTail? || pc.PopSeq? || pc.PopCas? }

  predicate Scanning(pc: R.Pc) { pc.BulkTail? || pc.BulkScan? || pc.BulkProbe? || pc.BulkCas? }

  /** What a thread inside a queue operation is doing outside it. */
  ghost predicate Linked(d: D.State, log: seq<R.Val>, q: QueueId, a: D.Actor, pc: R.Pc) {
    if pc == R.Idle then true
    else if Making(pc) then Wants(d, a, pc.v, q)
    else if pc.PushRet? then if a.Host? then d.host.Scan? else D.At(d, a.u) != D.Idle
    else if Popping(pc) then Polling(d, a, q) && a.u.Cpu?
    else if Scanning(pc) then Polling(d, a, q) && a.u.Gpu? && pc.maxn == d.x.cfg.batch
    else if pc.Take? then
      a.On? && pc.pos + pc.m <= |log| && D.At(d, a.u) == D.Exec(log[pc.pos..pc.pos + pc.m], D.AllHeld(pc.m))
    else
      a.On? && D.At(d, a.u) == if pc.out == [] then D.Idle else D.Exec(pc.out, D.AllHeld(|pc.out|))
  }

  ghost predicate LinkedAt(s: State, q: QueueId, t: R.Tid)
    requires q in s.rings
  {
    Linked(s.d, s.rings[q].log, q, ActorOf(t), PcAt(s, q, t))
  }

  ghost predicate Links(s: State) {
    forall q, t {:trigger PcAt(s, q, t)} :: q in s.rings ==> LinkedAt(s, q, t)
  }

  /** A thread is in one queue operation at a time. */
  ghost predicate OneAtATime(s: State) {
    forall t, p, q {:trigger PcAt(s, p, t), PcAt(s, q, t)} :: p != q && PcAt(s, p, t) != R.Idle ==>
        PcAt(s, q, t) == R.Idle
  }

  ghost predicate RingsOk(s: State) {
    && (forall q :: q in s.rings <==> HasRing(s.d.x.cfg, q))
    && (forall q :: q in s.rings ==> R.Inv(s.rings[q]))
  }

  ghost predicate Inv(s: State) {
    D.Inv(Abs(s)) && RingsOk(s) && Links(s) && OneAtATime(s)
  }
}
