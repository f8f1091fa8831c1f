/** A queue operation whose thread runs alone ends: no access of src/runtime/queue.h waits for another thread. */
module MpmcRingProgress {
  import opened MpmcRing
  import opened MpmcRingSafety
  import opened MpmcRingTheorems

  /** A bulk pop of nothing loops for ever once there is something; no caller makes one. */
  predicate Sensible(pc: Pc) { pc.BulkTail? || pc.BulkScan? || pc.BulkProbe? || pc.BulkCas? ==> 1 <= pc.maxn }

  // Accesses a claim of m values, and a bulk pop of at most n, has ahead of it.

  function TakeRank(m: nat, rd: nat, rl: nat): int { (m - rd) + (m - rl) + 1 }

  function BulkRank(n: nat): nat { 3 * n + 5 }

  /** An upper bound on the accesses left when no other thread moves. */
  function SoloRank(s: State, pc: Pc): int
    requires 0 < |s.cells|
  {
    match pc
    case Idle => 0
    case PushRet(_) => 1
    case PushRel(_, _) => 2
    case PushVal(_, _) => 3
    case PushCas(_, pos) => if pos == s.head then 4 else 6
    case PushSeq(_, pos) => if pos == s.head then 5 else 7
    case PushHead(_) => 6
    case PopRet(_) => 1
    case PopCas(pos) => if pos == s.tail then 4 else 6
    case PopSeq(pos) => if pos == s.tail then 5 else 7
    case PopTail => 6
    case Take(_, m, rd, rl, _) => TakeRank(m, rd, rl)
    case BulkTail(n) => BulkRank(n)
    case BulkScan(n, pos, m) => if pos == s.tail then BulkRank(n) - 1 - m else BulkRank(n) + 2 + (n - m)
    case BulkCas(n, pos, m) => if pos == s.tail then 2 * m + 2 else BulkRank(n) + 1
    case BulkProbe(n, pos) => if SeqAt(s.cells, pos) < pos + 1 then 2 else BulkRank(n) + 1
  }

  /** The cell at head is not ahead of head, the one at tail is published at most for tail. */
  lemma EndCells(s: State)
    requires Cells(s)
    ensures SeqAt(s.cells, s.head) <= s.head && SeqAt(s.cells, s.tail) <= s.tail + 1
  {
    CellAt(s, s.tail);
    if s.head < s.tail + |s.cells| { CellAt(s, s.head); } else { SlotNext(s.tail, |s.cells|); }
  }

  lemma PushSolo(s: State, t: Tid)
    requires Cells(s) && t in s.pcs && (Pushing(s.pcs[t]) || s.pcs[t].PushVal? || s.pcs[t].PushRel?)
    requires PcOk(s, s.pcs[t])
    ensures 0 <= SoloRank(Step(s, t), Step(s, t).pcs[t]) < SoloRank(s, s.pcs[t])
  {
    EndCells(s);
  }

  lemma PopSolo(s: State, t: Tid)
    requires Cells(s) && t in s.pcs && (s.pcs[t].PopTail? || s.pcs[t].PopSeq? || s.pcs[t].PopCas?)
    requires PcOk(s, s.pcs[t])
    ensures 0 <= SoloRank(Step(s, t), Step(s, t).pcs[t]) < SoloRank(s, s.pcs[t])
  {
    EndCells(s);
  }

  lemma BulkSolo(s: State, t: Tid)
    requires Cells(s) && t in s.pcs
      && (s.pcs[t].BulkTail? || s.pcs[t].BulkScan? || s.pcs[t].BulkProbe? || s.pcs[t].BulkCas?)
    requires PcOk(s, s.pcs[t]) && Sensible(s.pcs[t])
    ensures 0 <= SoloRank(Step(s, t), Step(s, t).pcs[t]) < SoloRank(s, s.pcs[t])
  {
    EndCells(s);
  }

  lemma TakeSolo(s: State, t: Tid)
    requires Cells(s) && t in s.pcs && s.pcs[t].Take? && PcOk(s, s.pcs[t])
    ensures 0 <= SoloRank(Step(s, t), Step(s, t).pcs[t]) < SoloRank(s, s.pcs[t])
  {}

  /** Each access brings a thread that runs alone nearer to the end of its operation. */
  lemma SoloStep(s: State, t: Tid)
    requires Inv(s) && t in s.pcs && s.pcs[t] != Idle && Sensible(s.pcs[t])
    ensures 0 <= SoloRank(Step(s, t), Step(s, t).pcs[t]) < SoloRank(s, s.pcs[t]) && Sensible(Step(s, t).pcs[t])
  {
    var pc := s.pcs[t];
    assert PcOk(s, pc);
    if Pushing(pc) || pc.PushVal? || pc.PushRel? { PushSolo(s, t); }
    else if pc.PopTail? || pc.PopSeq? || pc.PopCas? { PopSolo(s, t); }
    else if pc.Take? { TakeSolo(s, t); }
    else if !pc.PushRet? && !pc.PopRet? { BulkSolo(s, t); }
  }

  /** n accesses of thread t in a row. */
  function Alone(s: State, t: Tid, n: nat): (r: State)
    requires 0 < |s.cells| && t in s.pcs
    ensures |r.cells| == |s.cells| && t in r.pcs
    decreases n
  {
    if n == 0 then s else Alone(Step(s, t), t, n - 1)
  }

  /** From any state of the queue, an operation left to run alone ends within its rank. */
  lemma {:induction false} EndsAlone(s: State, t: Tid) returns (n: nat)
    requires Inv(s) && t in s.pcs && Sensible(s.pcs[t])
    ensures n <= SoloRank(s, s.pcs[t]) && Alone(s, t, n).pcs == s.pcs[t := Idle]
    decreases SoloRank(s, s.pcs[t])
  {
    if s.pcs[t] == Idle {
      n := 0;
    } else {
      SoloStep(s, t);
      StepKeepsInv(s, t);
      StepShape(s, t);
      n := EndsAlone(Step(s, t), t);
      n := n + 1;
    }
  }

  // ------------------------------------------------------ pops that will claim

  /** The cell at tail is published, and the thread, if it runs alone, will claim it. */
  predicate WillClaim(s: State, pc: Pc)
    requires 0 < |s.cells|
  {
    && SeqAt(s.cells, s.tail) == s.tail + 1
    && match pc
       case PopTail => true
       case PopSeq(pos) => pos == s.tail
       case PopCas(pos) => pos == s.tail
       case BulkTail(n) => 1 <= n
       case BulkScan(n, pos, m) => pos == s.tail && m < n
       case BulkCas(n, pos, m) => pos == s.tail && 1 <= m
       case _ => false
  }

  lemma StillWillClaim(s: State, t: Tid)
    requires 0 < |s.cells| && t in s.pcs && WillClaim(s, s.pcs[t]) && !Claims(s, s.pcs[t])
    ensures WillClaim(Step(s, t), Step(s, t).pcs[t])
  {}

  /** With no thread holding a cell, the oldest value is there to be claimed. */
  lemma OldestVisible(s: State)
    requires Inv(s) && s.tail < s.head && forall t :: t in s.pcs ==> !Owner(s.pcs[t])
    ensures SeqAt(s.cells, s.tail) == s.tail + 1
  {
    CellAt(s, s.tail);
  }
}
