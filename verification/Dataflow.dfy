/**
  The dataflow protocol (src/runtime/runtime.cpp, src/runtime/gpu_exec.cu) as a
  transition system: the host resets and waits, any number of CPU workers
  commit one task at a time, any number of GPU blocks commit batches.  Queues
  are bags here; RingedDataflow is the same protocol on the rings themselves,
  and refines this one step by step.
 */
module Dataflow {
  import opened TaskTypes
  import opened TaskGraph
  import opened TaskTable
  import opened SerialExec
  import opened Epilogue
  import opened Routing

  /** What one run executes. */
  datatype Setup = Setup(g: Graph, terminal: nat, work: Work, info: seq<TaskInfo>, cfg: Config)

  function Kinds(info: seq<TaskInfo>): seq<TaskKind> { seq(|info|, i requires 0 <= i < |info| => info[i].kind) }

  ghost predicate SetupOk(x: Setup) {
    Frozen(x.g, Kinds(x.info), x.terminal) && RaceFree(x.g, x.work) && ConfigOk(x.cfg)
  }

  /** Progress of one task inside a claimed batch: a body reads when it starts and writes when it finishes. */
  datatype Body = Held | Running(snap: Mem) | Done

  /** What a worker or block is doing. */
  datatype Thread =
    | Idle
    | Exec(ids: seq<nat>, bodies: seq<Body>)
    | Commit(ids: seq<nat>, gs: seq<Group>, j: nat)   // about to decrement for gs[j], or to count the batch done
    | Push(ids: seq<nat>, gs: seq<Group>, j: nat)     // gs[j]'s counter hit zero; about to publish its task

  datatype HostPc = Reset(i: nat) | Scan(i: nat) | AwaitFlag | AwaitCount | Returned

  datatype Actor = Host | On(u: Unit)

  /** Where a task is; a history variable that no step tests. */
  datatype Phase =
    | Waiting
    | Pending(owner: Actor)
    | Queued
    | Taken(u: Unit, body: Body)
    | Leaving(u: Unit)
    | Retired

  datatype State = State(
    x: Setup,
    dep: seq<int>,
    queues: map<QueueId, multiset<nat>>,
    threads: map<Unit, Thread>,
    flag: bool,
    nDone: nat,
    mem: Mem,
    host: HostPc,
    // history
    phase: seq<Phase>,
    applied: set<Edge>,
    order: seq<nat>,
    pubs: seq<nat>,
    start: Mem)

  function At(s: State, u: Unit): Thread { if u in s.threads then s.threads[u] else Idle }

  function In(s: State, q: QueueId): multiset<nat> { if q in s.queues then s.queues[q] else multiset{} }

  function DestOf(s: State, t: nat, fromGpu: bool): QueueId
    requires t < |s.x.info|
  {
    Destination(s.x.cfg, s.x.info[t], t, fromGpu)
  }

  function Mark(ph: seq<Phase>, ids: seq<nat>, p: Phase): (r: seq<Phase>)
    ensures |r| == |ph|
    ensures forall t: nat :: t < |ph| ==> r[t] == if t in ids then p else ph[t]
  {
    seq(|ph|, t requires 0 <= t < |ph| => if t in ids then p else ph[t])
  }

  // ------------------------------------------------------------------ host

  /** State at the start of run(): flags cleared, counters still those of an earlier run. */
  function Begin(x: Setup, dep: seq<int>, queues: map<QueueId, multiset<nat>>, threads: map<Unit, Thread>,
                 mem: Mem): State {
    State(x, dep, queues, threads, false, 0, mem, Reset(0),
          seq(|x.g|, t requires 0 <= t < |x.g| => if Root(x.g, t) then Pending(Host) else Waiting), {}, [], [], mem)
  }

  /** dep_init == 0. */
  predicate Root(g: Graph, t: nat) { forall p: nat :: p < |g| ==> t !in g[p] }

  ghost function DepInit(g: Graph, t: nat): nat { |InEdges(g, t)| }

  ghost function ResetOne(s: State, i: nat): State
    requires i < |s.dep|
  {
    s.(dep := s.dep[i := DepInit(s.x.g, i)], host := Reset(i + 1))
  }

  function Enqueue(s: State, t: nat, fromGpu: bool): State
    requires t < |s.x.info| && t < |s.phase|
  {
    var q := DestOf(s, t, fromGpu);
    s.(queues := s.queues[q := In(s, q) + multiset{t}], phase := s.phase[t := Queued], pubs := s.pubs + [t])
  }

  function ScanOne(s: State, i: nat): State
    requires i < |s.x.info| && i < |s.phase|
  {
    (if Root(s.x.g, i) then Enqueue(s, i, false) else s).(host := Scan(i + 1))
  }

  // --------------------------------------------------------------- engines

  function Goto(s: State, u: Unit, th: Thread): State { s.(threads := s.threads[u := th]) }

  function AllHeld(n: nat): (r: seq<Body>)
    ensures |r| == n && forall i :: 0 <= i < n ==> r[i] == Held
  {
    seq(n, i => Held)
  }

  function Claim(s: State, u: Unit, q: QueueId, ids: seq<nat>): State {
    Goto(s, u, Exec(ids, AllHeld(|ids|)))
      .(queues := s.queues[q := In(s, q) - multiset(ids)], phase := Mark(s.phase, ids, Taken(u, Held)))
  }

  function Start(s: State, u: Unit, i: nat): State
    requires At(s, u).Exec? && i < |At(s, u).ids| && i < |At(s, u).bodies|
    requires At(s, u).ids[i] < |s.phase| && At(s, u).ids[i] < |s.x.work.ins|
  {
    var th := At(s, u);
    var r := Running(Snapshot(s.x.work, s.mem, th.ids[i]));
    Goto(s, u, th.(bodies := th.bodies[i := r])).(phase := s.phase[th.ids[i] := Taken(u, r)])
  }

  function Finish(s: State, u: Unit, i: nat): State
    requires At(s, u).Exec? && i < |At(s, u).ids| && i < |At(s, u).bodies| && At(s, u).bodies[i].Running?
    requires At(s, u).ids[i] < |s.phase| && At(s, u).ids[i] < |s.x.work.outs|
  {
    var th := At(s, u);
    var t := th.ids[i];
    Goto(s, u, th.(bodies := th.bodies[i := Done]))
      .(mem := Store(s.x.work, s.mem, t, th.bodies[i].snap),
        phase := s.phase[t := Taken(u, Done)], order := s.order + [t])
  }

  /** The batch's bodies are over: the terminal's batch raises done_flag, then the decrements begin. */
  function EndBodies(s: State, u: Unit): State
    requires At(s, u).Exec? && Tasks(s.x.g, At(s, u).ids)
  {
    var ids := At(s, u).ids;
    Goto(s, u, Commit(ids, Groups(s.x.g, ids, u.Gpu?), 0))
      .(flag := s.flag || s.x.terminal in ids, phase := Mark(s.phase, ids, Leaving(u)))
  }

  /** One atomic fetch_sub. */
  function Decrement(s: State, u: Unit): State
    requires At(s, u).Commit? && At(s, u).j < |At(s, u).gs| && At(s, u).gs[At(s, u).j].cid < |s.dep| == |s.phase|
  {
    var th := At(s, u);
    var x := th.gs[th.j];
    var last := s.dep[x.cid] == x.cnt;
    Goto(s, u, if last then Push(th.ids, th.gs, th.j) else Commit(th.ids, th.gs, th.j + 1))
      .(dep := s.dep[x.cid := s.dep[x.cid] - x.cnt], applied := s.applied + x.edges,
        phase := if last then s.phase[x.cid := Pending(On(u))] else s.phase)
  }

  function Publish(s: State, u: Unit): State
    requires At(s, u).Push? && At(s, u).j < |At(s, u).gs|
    requires At(s, u).gs[At(s, u).j].cid < |s.x.info| == |s.phase|
  {
    var th := At(s, u);
    Enqueue(Goto(s, u, Commit(th.ids, th.gs, th.j + 1)), th.gs[th.j].cid, u.Gpu?)
  }

  /** n_done += batch. */
  function CountDone(s: State, u: Unit): State
    requires At(s, u).Commit?
  {
    Goto(s, u, Idle).(nDone := s.nDone + |At(s, u).ids|, phase := Mark(s.phase, At(s, u).ids, Retired))
  }

  // ------------------------------------------------------------ transitions

  datatype Op =
    | DoReset | DoScan | LoadFlag | LoadCount | NextRun(x: Setup, dep: seq<int>)
    | DoClaim(u: Unit, q: QueueId, ids: seq<nat>) | DoStart(u: Unit, i: nat) | DoFinish(u: Unit, i: nat)
    | DoEnd(u: Unit) | DoDecrement(u: Unit) | DoPublish(u: Unit) | DoCount(u: Unit)

  ghost predicate CanClaim(s: State, u: Unit, q: QueueId, ids: seq<nat>) {
    && At(s, u) == Idle && Live(s.x.cfg, u) && MayPop(s.x.cfg, u, q)
    && 0 < |ids| <= ClaimLimit(s.x.cfg, u) && multiset(ids) <= In(s, q)
  }

  ghost predicate AllDone(bodies: seq<Body>) { forall i :: 0 <= i < |bodies| ==> bodies[i] == Done }

  /** The step relation: which step a thread can take depends only on the shared and thread state, not on history. */
  ghost predicate Step(s: State, op: Op, s': State) {
    match op
    case DoReset =>
      && s.host.Reset?
      && if s.host.i < |s.x.g| then s.host.i < |s.dep| && s' == ResetOne(s, s.host.i) else s' == s.(host := Scan(0))
    case DoScan =>
      && s.host.Scan?
      && if s.host.i < |s.x.g| then s.host.i < |s.x.info| && s.host.i < |s.phase| && s' == ScanOne(s, s.host.i)
         else s' == s.(host := AwaitFlag)
    case LoadFlag => s.host.AwaitFlag? && s' == if s.flag then s.(host := AwaitCount) else s
    case LoadCount => s.host.AwaitCount? && s' == s.(host := if s.nDone == |s.x.g| then Returned else AwaitFlag)
    case NextRun(x, dep) =>
      && s.host.Returned? && SetupOk(x) && x.cfg == s.x.cfg && |dep| == |x.g|
      && s' == Begin(x, dep, s.queues, s.threads, s.mem)
    case DoClaim(u, q, ids) => CanClaim(s, u, q, ids) && s' == Claim(s, u, q, ids)
    case DoStart(u, i) =>
      var th := At(s, u);
      && th.Exec? && i < |th.ids| && i < |th.bodies| && th.bodies[i].Held?
      && th.ids[i] < |s.phase| && th.ids[i] < |s.x.work.ins| && s' == Start(s, u, i)
    case DoFinish(u, i) =>
      var th := At(s, u);
      && th.Exec? && i < |th.ids| && i < |th.bodies| && th.bodies[i].Running?
      && th.ids[i] < |s.phase| && th.ids[i] < |s.x.work.outs| && s' == Finish(s, u, i)
    case DoEnd(u) => At(s, u).Exec? && AllDone(At(s, u).bodies) && Tasks(s.x.g, At(s, u).ids) && s' == EndBodies(s, u)
    case DoDecrement(u) =>
      var th := At(s, u);
      th.Commit? && th.j < |th.gs| && th.gs[th.j].cid < |s.dep| == |s.phase| && s' == Decrement(s, u)
    case DoPublish(u) =>
      var th := At(s, u);
      th.Push? && th.j < |th.gs| && th.gs[th.j].cid < |s.x.info| == |s.phase| && s' == Publish(s, u)
    case DoCount(u) => At(s, u).Commit? && At(s, u).j >= |At(s, u).gs| && s' == CountDone(s, u)
  }

  // --------------------------------------------------------------- invariant

  predicate Ended(p: Phase) { p.Leaving? || p.Retired? }

  predicate Finished(p: Phase) { Ended(p) || (p.Taken? && p.body.Done?) }

  predicate Published(p: Phase) { !p.Waiting? && !p.Pending? }

  ghost predicate Shape(s: State) { SetupOk(s.x) && |s.dep| == |s.phase| == |s.x.g| == |s.x.info| }

  /** Edges a committing thread has already decremented for. */
  function Sent(th: Thread): set<Edge> {
    match th
    case Commit(_, gs, j) => if j <= |gs| then Covered(gs[..j]) else {}
    case Push(_, gs, j) => if j < |gs| then Covered(gs[..j + 1]) else {}
    case _ => {}
  }

  /** Has this edge's producer applied its decrement? */
  predicate AppliedNow(s: State, e: Edge)
    requires e.0 < |s.phase|
  {
    match s.phase[e.0]
    case Retired => true
    case Leaving(u) => e in Sent(At(s, u))
    case _ => false
  }

  ghost predicate EdgesOk(s: State)
    requires Shape(s)
  {
    forall e: Edge {:trigger e in s.applied} :: e in s.applied <==> IsEdge(s.x.g, e) && AppliedNow(s, e)
  }

  /** dep_count[c] is the number of edges into c whose producer has not decremented yet. */
  ghost predicate CountersOk(s: State)
    requires Shape(s)
  {
    forall c: nat :: c < |s.x.g| && (s.host.Reset? ==> c < s.host.i) ==> s.dep[c] == Left(s.x.g, c, s.applied)
  }

  ghost predicate Unblocked(s: State, c: nat) { InEdges(s.x.g, c) <= s.applied }

  ghost predicate WaitingOk(s: State)
    requires Shape(s)
  {
    forall c: nat :: c < |s.x.g| ==> (s.phase[c] == Waiting <==> !Unblocked(s, c))
  }

  ghost predicate BatchOk(s: State, u: Unit, ids: seq<nat>) {
    && Live(s.x.cfg, u) && ids != [] && Distinct(ids) && Tasks(s.x.g, ids)
    && (s.x.terminal in ids ==> ids == [s.x.terminal])
  }

  ghost predicate AreLeaving(s: State, u: Unit, ids: seq<nat>) {
    forall i :: 0 <= i < |ids| ==> ids[i] < |s.phase| && s.phase[ids[i]] == Leaving(u)
  }

  ghost predicate ThreadOk(s: State, u: Unit) {
    match At(s, u)
    case Idle => true
    case Exec(ids, bodies) =>
      && BatchOk(s, u, ids) && |bodies| == |ids|
      && forall i :: 0 <= i < |ids| ==> ids[i] < |s.phase| && s.phase[ids[i]] == Taken(u, bodies[i])
    case Commit(ids, gs, j) =>
      BatchOk(s, u, ids) && AreLeaving(s, u, ids) && gs == Groups(s.x.g, ids, u.Gpu?) && j <= |gs|
    case Push(ids, gs, j) =>
      && BatchOk(s, u, ids) && AreLeaving(s, u, ids) && gs == Groups(s.x.g, ids, u.Gpu?) && j < |gs|
      && gs[j].cid < |s.phase| && s.phase[gs[j].cid] == Pending(On(u))
  }

  predicate Holds(th: Thread, t: nat) { !th.Idle? && t in th.ids }

  /** The host has not reached root t yet. */
  predicate Unscanned(s: State, t: nat) { s.host.Reset? || (s.host.Scan? && s.host.i <= t) }

  ghost predicate TaskOk(s: State, t: nat)
    requires t < |s.phase|
  {
    match s.phase[t]
    case Pending(Host) => Root(s.x.g, t) && Unscanned(s, t)
    case Pending(On(u)) => var th := At(s, u); th.Push? && th.j < |th.gs| && th.gs[th.j].cid == t
    case Taken(u, b) => At(s, u).Exec? && Holds(At(s, u), t)
    case Leaving(u) => (At(s, u).Commit? || At(s, u).Push?) && Holds(At(s, u), t)
    case _ => true
  }

  ghost predicate ThreadsOk(s: State) { forall u :: ThreadOk(s, u) }

  ghost predicate TasksOk(s: State) { forall t: nat :: t < |s.phase| ==> TaskOk(s, t) }

  /** Every queued task sits once in its own queue, and nothing else does. */
  ghost predicate QueuesOk(s: State)
    requires Shape(s)
  {
    forall q: QueueId, t: nat {:trigger In(s, q)[t]} ::
      In(s, q)[t] == if t < |s.x.g| && s.phase[t] == Queued && q == DestOf(s, t, false) then 1 else 0
  }

  ghost predicate HostOk(s: State)
    requires Shape(s)
  {
    && (s.host.Reset? || s.host.Scan? ==> s.host.i <= |s.x.g|)
    && (s.host.Reset? ==> forall t: nat :: t < |s.x.g| ==> s.phase[t].Waiting? || s.phase[t] == Pending(Host))
    && (forall t: nat :: t < |s.x.g| && Root(s.x.g, t) && Unscanned(s, t) ==> s.phase[t] == Pending(Host))
    && (s.host.AwaitCount? ==> s.flag)
    && (s.host.Returned? ==> forall t: nat :: t < |s.x.g| ==> s.phase[t] == Retired)
  }

  ghost predicate PubsOk(s: State)
    requires Shape(s)
  {
    Distinct(s.pubs) && forall t: nat :: t in s.pubs <==> t < |s.x.g| && Published(s.phase[t])
  }

  ghost function RetiredSet(s: State): set<nat> { set t: nat | t < |s.phase| && s.phase[t] == Retired }

  ghost predicate FlagOk(s: State)
    requires Shape(s)
  {
    && (s.flag <==> Ended(s.phase[s.x.terminal]))
    && s.nDone == |RetiredSet(s)|
  }

  ghost predicate MemOk(s: State)
    requires Shape(s)
  {
    && AllTasks(s.x.work, s.order) && s.mem == SerialExec.Exec(s.x.work, s.start, s.order)
    && Linear(s.x.g, s.order)
    && (forall t: nat :: t in s.order <==> t < |s.x.g| && Finished(s.phase[t]))
  }

  /** What a running body has read is still what memory holds. */
  ghost predicate SnapsOk(s: State)
    requires Shape(s)
  {
    forall t: nat :: t < |s.x.g| && s.phase[t].Taken? && s.phase[t].body.Running? ==>
      s.phase[t].body.snap == Snapshot(s.x.work, s.mem, t)
  }

  ghost predicate Inv(s: State) {
    && Shape(s) && EdgesOk(s) && CountersOk(s) && WaitingOk(s) && ThreadsOk(s) && TasksOk(s)
    && QueuesOk(s) && HostOk(s) && PubsOk(s) && FlagOk(s) && MemOk(s) && SnapsOk(s)
  }
}
