/**
  Parking and waking the CPU workers (src/runtime/runtime.cpp: run, worker,
  stop).  One transition is one load, store, lock operation or notification;
  wake-ups may be spurious.
 */
module Parking {

  /** What worker i does next. */
  datatype Worker =
    | Top                 // load run_flag
    | LoadActive          // load active
    | Working             // claim and run a task
    | Spin                // idle window: load active, or give up spinning
    | SpinFlag            // idle window: load run_flag
    | Lock                // lock mu_
    | Snap                // gen = wake_gen_
    | TestGen(g: nat)     // wait predicate: wake_gen_ != gen ...
    | TestActive(g: nat)  // ... || active ...
    | TestRun(g: nat)     // ... || !run_flag
    | Doze(g: nat)        // predicate was false: release mu_ and sleep, atomically
    | Asleep(g: nat)
    | Relock(g: nat)      // woken: lock mu_ again
    | Unlock
    | Exited

  datatype HostPc =
    | Idle | RunLock | RunBump | RunUnlock | RunNotify | InRun
    | StopLock | StopBump | StopUnlock | StopNotify | Join | Stopped

  datatype Owner = Nobody | HostOwns | WorkerOwns(i: nat)

  datatype State = State(active: bool, runFlag: bool, gen: nat, owner: Owner, host: HostPc, ws: seq<Worker>)

  function Init(n: nat): State { State(false, true, 0, Nobody, Idle, seq(n, i => Top)) }

  // ------------------------------------------------------------------- steps

  datatype Op = CallRun | CallStop | HostStep | WorkerStep(i: nat) | GiveUp(i: nat) | Spurious(i: nat)

  function Set(s: State, i: nat, w: Worker): State
    requires i < |s.ws|
  {
    s.(ws := s.ws[i := w])
  }

  function Wake(ws: seq<Worker>): seq<Worker> {
    seq(|ws|, i requires 0 <= i < |ws| => if ws[i].Asleep? then Relock(ws[i].g) else ws[i])
  }

  predicate AllExited(ws: seq<Worker>) { forall i :: 0 <= i < |ws| ==> ws[i] == Exited }

  /** The host's next access; InRun ends the run whenever the graph is done. */
  predicate HostMoves(s: State, s': State) {
    match s.host
    case RunLock => s.owner == Nobody && s' == s.(owner := HostOwns, host := RunBump)
    case RunBump => s' == s.(gen := s.gen + 1, host := RunUnlock)
    case RunUnlock => s' == s.(owner := Nobody, host := RunNotify)
    case RunNotify => s' == s.(ws := Wake(s.ws), host := InRun)
    case InRun => s' == s.(active := false, host := Idle)
    case StopLock => s.owner == Nobody && s' == s.(owner := HostOwns, host := StopBump)
    case StopBump => s' == s.(gen := s.gen + 1, host := StopUnlock)
    case StopUnlock => s' == s.(owner := Nobody, host := StopNotify)
    case StopNotify => s' == s.(ws := Wake(s.ws), host := Join)
    case Join => AllExited(s.ws) && s' == s.(host := Stopped)
    case _ => false
  }

  /** The state after worker i's next access. */
  function Moved(s: State, i: nat): State
    requires i < |s.ws|
  {
    match s.ws[i]
    case Top => Set(s, i, if s.runFlag then LoadActive else Exited)
    case LoadActive => Set(s, i, if s.active then Working else Spin)
    case Working => Set(s, i, Top)
    case Spin => Set(s, i, if s.active then Top else SpinFlag)
    case SpinFlag => Set(s, i, if s.runFlag then Spin else Top)
    case Lock => Set(s, i, Snap).(owner := WorkerOwns(i))
    case Snap => Set(s, i, TestGen(s.gen))
    case TestGen(g) => Set(s, i, if s.gen != g then Unlock else TestActive(g))
    case TestActive(g) => Set(s, i, if s.active then Unlock else TestRun(g))
    case TestRun(g) => Set(s, i, if !s.runFlag then Unlock else Doze(g))
    case Doze(g) => Set(s, i, Asleep(g)).(owner := Nobody)
    case Relock(g) => Set(s, i, TestGen(g)).(owner := WorkerOwns(i))
    case Unlock => Set(s, i, Top).(owner := Nobody)
    case _ => s
  }

  /** Lock operations wait for the mutex; a sleeper waits for a notification. */
  predicate CanMove(s: State, i: nat)
    requires i < |s.ws|
  {
    match s.ws[i]
    case Lock => s.owner == Nobody
    case Relock(_) => s.owner == Nobody
    case Asleep(_) => false
    case Exited => false
    case _ => true
  }

  predicate WorkerMoves(s: State, i: nat, s': State)
    requires i < |s.ws|
  {
    CanMove(s, i) && s' == Moved(s, i)
  }

  predicate Step(s: State, op: Op, s': State) {
    match op
    case CallRun => s.host == Idle && s' == s.(active := true, host := RunLock)
    case CallStop => s.host == Idle && s' == s.(runFlag := false, host := StopLock)
    case HostStep => HostMoves(s, s')
    case WorkerStep(i) => i < |s.ws| && WorkerMoves(s, i, s')
    case GiveUp(i) => i < |s.ws| && s.ws[i] == Spin && s' == Set(s, i, Lock)
    case Spurious(i) => i < |s.ws| && s.ws[i].Asleep? && s' == Set(s, i, Relock(s.ws[i].g))
  }

  // --------------------------------------------------------------- invariant

  predicate Locked(w: Worker) {
    w.Snap? || w.TestGen? || w.TestActive? || w.TestRun? || w.Doze? || w.Unlock?
  }

  predicate HostLocked(h: HostPc) { h.RunBump? || h.RunUnlock? || h.StopBump? || h.StopUnlock? }

  /** run() has stored active and its notification is still to come. */
  predicate RunPending(h: HostPc) { h.RunLock? || h.RunBump? || h.RunUnlock? || h.RunNotify? }

  predicate StopPending(h: HostPc) { h.StopLock? || h.StopBump? || h.StopUnlock? || h.StopNotify? }

  ghost predicate WorkerOk(s: State, i: nat)
    requires i < |s.ws|
  {
    var w := s.ws[i];
    && (Locked(w) <==> s.owner == WorkerOwns(i))
    && (w.TestGen? || w.TestActive? || w.TestRun? || w.Doze? || w.Asleep? || w.Relock? ==> w.g <= s.gen)
    && (w.TestRun? || w.Doze? ==> (s.active ==> s.host == RunLock))
    && (w.Doze? ==> (!s.runFlag ==> s.host == StopLock))
    && (w.Asleep? ==> (s.active ==> RunPending(s.host)) && (!s.runFlag ==> StopPending(s.host)))
    && (w.Asleep? && (s.host == RunUnlock || s.host == RunNotify || s.host == StopUnlock || s.host == StopNotify) ==>
        w.g < s.gen)
    && (w.Exited? ==> !s.runFlag)
  }

  ghost predicate Inv(s: State) {
    && (s.active <==> RunPending(s.host) || s.host == InRun)
    && (s.runFlag <==> !(StopPending(s.host) || s.host == Join || s.host == Stopped))
    && (HostLocked(s.host) <==> s.owner == HostOwns)
    && (s.owner.WorkerOwns? ==> s.owner.i < |s.ws|)
    && (forall i: nat :: i < |s.ws| ==> WorkerOk(s, i))
  }

  lemma MoverKeeps(s: State, op: Op, s': State)
    requires Inv(s) && Step(s, op, s') && (op.WorkerStep? || op.GiveUp? || op.Spurious?)
    ensures op.i < |s'.ws| && WorkerOk(s', op.i)
  {
    assert WorkerOk(s, op.i);
  }

  /** A worker's step leaves the host, the flags and the other workers alone, and the mutex to whoever else held it. */
  lemma PeerKeeps(s: State, op: Op, s': State, i: nat)
    requires Inv(s) && Step(s, op, s') && (op.WorkerStep? || op.GiveUp? || op.Spurious?) && i < |s.ws| && i != op.i
    ensures i < |s'.ws| && WorkerOk(s', i)
  {
    assert WorkerOk(s, i) && WorkerOk(s, op.i);
    MoverFrame(s, op, s');
  }

  lemma MoverFrame(s: State, op: Op, s': State)
    requires Step(s, op, s') && (op.WorkerStep? || op.GiveUp? || op.Spurious?)
    ensures s' == s.(ws := s.ws[op.i := s'.ws[op.i]], owner := s'.owner)
    ensures s'.owner == s.owner || (s'.owner == WorkerOwns(op.i) && s.owner == Nobody)
      || (s'.owner == Nobody && Locked(s.ws[op.i]))
  {}

  lemma HostStepKeeps(s: State, op: Op, s': State, i: nat)
    requires Inv(s) && Step(s, op, s') && (op.CallRun? || op.CallStop? || op.HostStep?) && i < |s'.ws|
    ensures |s'.ws| == |s.ws| && WorkerOk(s', i)
  {
    assert WorkerOk(s, i);
    if s.owner.WorkerOwns? { assert WorkerOk(s, s.owner.i); }
  }

  lemma StepKeepsInv(s: State, op: Op, s': State)
    requires Inv(s) && Step(s, op, s')
    ensures Inv(s') && |s'.ws| == |s.ws|
  {
    if op.WorkerStep? || op.GiveUp? || op.Spurious? {
      assert WorkerOk(s, op.i);
      MoverFrame(s, op, s');
      MoverKeeps(s, op, s');
      forall i: nat | i < |s'.ws| ensures WorkerOk(s', i) {
        if i != op.i { PeerKeeps(s, op, s', i); }
      }
    } else {
      forall i: nat | i < |s'.ws| ensures WorkerOk(s', i) { HostStepKeeps(s, op, s', i); }
    }
  }

  // ---------------------------------------------------------------- theorems

  ghost predicate Steps(tr: seq<State>, ops: seq<Op>) {
    |tr| == |ops| + 1 && forall i :: 0 <= i < |ops| ==> Step(tr[i], ops[i], tr[i + 1])
  }

  lemma {:induction false} AlwaysInv(n: nat, tr: seq<State>, ops: seq<Op>, k: nat)
    requires Steps(tr, ops) && tr[0] == Init(n) && k < |tr|
    ensures Inv(tr[k]) && |tr[k].ws| == n
  {
    if k > 0 {
      AlwaysInv(n, tr, ops, k - 1);
      StepKeepsInv(tr[k - 1], ops[k - 1], tr[k]);
    }
  }

  /**
    No lost wake-up: in every reachable state a worker sleeps through an active
    run or a stop only while that call's notification is still to come.
   */
  lemma NoLostWakeup(n: nat, tr: seq<State>, ops: seq<Op>, k: nat, i: nat)
    requires Steps(tr, ops) && tr[0] == Init(n) && k < |tr| && i < n
    ensures |tr[k].ws| == n
    ensures tr[k].ws[i].Asleep? && tr[k].active ==> RunPending(tr[k].host)
    ensures tr[k].ws[i].Asleep? && !tr[k].runFlag ==> StopPending(tr[k].host)
    ensures tr[k].host == InRun || tr[k].host == Join ==> !tr[k].ws[i].Asleep? && !tr[k].ws[i].Doze?
  {
    AlwaysInv(n, tr, ops, k);
    assert WorkerOk(tr[k], i);
  }

  /**
    The notification wakes every sleeper, and none of them goes back to sleep on its old
    generation, even if the run is over by then.
   */
  lemma NotifiedLeavesTheWait(s: State, s': State, i: nat)
    requires Inv(s) && (s.host == RunNotify || s.host == StopNotify) && HostMoves(s, s') && i < |s.ws|
      && s.ws[i].Asleep?
    ensures s'.ws[i].Relock? && s'.ws[i].g < s'.gen
    ensures forall t: State, t': State ::
              t.gen >= s'.gen && i < |t.ws| && t.ws[i] == TestGen(s'.ws[i].g) && WorkerMoves(t, i, t') ==>
              t'.ws[i] == Unlock
  {
    assert WorkerOk(s, i);
  }

  // ------------------------------------------------------- a run wakes everyone

  /** How far a worker is from claiming tasks while a run is on. */
  function Distance(w: Worker): nat {
    match w
    case Working => 0
    case LoadActive => 1
    case Top => 2
    case Unlock => 3
    case TestActive(_) => 4
    case TestGen(_) => 5
    case Snap => 6
    case Relock(_) => 6
    case Lock => 7
    case Spin => 8
    case SpinFlag => 9
    case _ => 10
  }

  /** Once run() has notified, no worker sleeps or is about to: each is some steps from its claim loop. */
  lemma AwakeInRun(s: State, i: nat)
    requires Inv(s) && s.host == InRun && i < |s.ws|
    ensures Distance(s.ws[i]) <= 9
  {
    assert WorkerOk(s, i);
  }

  /** ... and every step it takes brings it nearer. */
  lemma AwakeProgress(s: State, op: Op, s': State)
    requires Inv(s) && s.host == InRun && Step(s, op, s') && (op.WorkerStep? || op.GiveUp? || op.Spurious?)
    requires s.ws[op.i] != Working
    ensures s'.host == InRun && Distance(s'.ws[op.i]) < Distance(s.ws[op.i])
  {
    assert WorkerOk(s, op.i);
  }

  /** A worker that waits for the mutex waits for another that can step: nobody is locked out of a run. */
  lemma AwakeNeverStuck(s: State, i: nat) returns (j: nat, s': State)
    requires Inv(s) && s.host == InRun && i < |s.ws| && s.ws[i] != Working
    ensures j < |s.ws| && s.ws[j] != Working && Step(s, WorkerStep(j), s')
    ensures j == i || s.owner == WorkerOwns(j)
  {
    AwakeInRun(s, i);
    j := if s.owner.WorkerOwns? then s.owner.i else i;
    assert WorkerOk(s, j);
    s' := Moved(s, j);
  }

  // ------------------------------------------------------------ stop returns

  function Rank(w: Worker): nat {
    match w
    case Exited => 0
    case Top => 1
    case Unlock => 2
    case Working => 2
    case SpinFlag => 2
    case Asleep(_) => 3
    case Doze(_) => 4
    case TestRun(_) => 5
    case TestActive(_) => 6
    case TestGen(_) => 7
    case Relock(_) => 8
    case Snap => 8
    case Lock => 9
    case Spin => 10
    case LoadActive => 11
  }

  function Ranks(ws: seq<Worker>): nat {
    if ws == [] then 0 else Rank(ws[0]) + Ranks(ws[1..])
  }

  lemma {:induction false} RanksSet(ws: seq<Worker>, i: nat, w: Worker)
    requires i < |ws|
    ensures Ranks(ws[i := w]) == Ranks(ws) - Rank(ws[i]) + Rank(w)
  {
    if i == 0 {
      assert ws[0 := w][1..] == ws[1..];
    } else {
      assert ws[i := w][1..] == ws[1..][i - 1 := w];
      RanksSet(ws[1..], i - 1, w);
    }
  }

  /** Once stop() is joining, every worker step brings that worker nearer to its exit. */
  lemma JoinProgress(s: State, op: Op, s': State)
    requires Inv(s) && s.host == Join && Step(s, op, s') && op != HostStep
    ensures s'.host == Join && Ranks(s'.ws) < Ranks(s.ws)
  {
    assert WorkerOk(s, op.i);
    RanksSet(s.ws, op.i, s'.ws[op.i]);
  }

  /** ... and until all have exited some worker can step, so the join returns. */
  lemma JoinNeverStuck(s: State) returns (i: nat, s': State)
    requires Inv(s) && s.host == Join && !AllExited(s.ws)
    ensures Step(s, WorkerStep(i), s')
  {
    if s.owner.WorkerOwns? {
      i := s.owner.i;
      assert WorkerOk(s, i);
    } else {
      i :| 0 <= i < |s.ws| && s.ws[i] != Exited;
      assert WorkerOk(s, i);
    }
    s' := Moved(s, i);
  }
}
