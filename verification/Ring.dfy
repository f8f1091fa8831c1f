/**
  The bounded MPMC ready queue (src/runtime/queue.h) as a transition system.

  One transition is one atomic load, CAS or store of one thread, under
  sequential consistency; any number of threads interleave freely.  Cursors and
  sequence numbers are unbounded here; the lemmas at the end of the file say
  when 32-bit cursors take the same branches.
 */
module MpmcRing {

  type Tid = nat
  type Val = nat

  datatype Cell = Cell(seqno: nat, val: Val)

  /** Program points.  Each names the access the thread performs NEXT. */
  datatype Pc =
    | Idle
    | PushHead(v: Val)                        // load head
    | PushSeq(v: Val, pos: nat)               // load cells[pos & mask].seq
    | PushCas(v: Val, pos: nat)               // CAS head: pos -> pos + 1
    | PushVal(v: Val, pos: nat)               // store val
    | PushRel(v: Val, pos: nat)               // store seq = pos + 1
    | PushRet(ok: bool)
    | PopTail                                 // load tail
    | PopSeq(pos: nat)                        // load cells[pos & mask].seq
    | PopCas(pos: nat)                        // CAS tail: pos -> pos + 1
    | BulkTail(maxn: nat)                     // load tail
    | BulkScan(maxn: nat, pos: nat, m: nat)   // load seq of cell pos + m
    | BulkProbe(maxn: nat, pos: nat)          // m == 0: reload seq of cell pos
    | BulkCas(maxn: nat, pos: nat, m: nat)    // CAS tail: pos -> pos + m
    | Take(pos: nat, m: nat, rd: nat, rl: nat, out: seq<Val>)
        // claimed [pos, pos+m): rd values read, rl cells recycled so far
    | PopRet(out: seq<Val>)

  /**
    `log` and `deliv` are history: log[k] is the value whose producer won
    position k, and deliv lists every (position, value) a consumer has read, in
    the order the reads happened.
   */
  datatype State = State(
    light: bool,                  // fence_light: read the whole claim before recycling any of it
    cells: seq<Cell>, head: nat, tail: nat,
    pcs: map<Tid, Pc>,
    log: seq<Val>, deliv: seq<(nat, Val)>)

  function Slot(pos: nat, cap: nat): (i: nat)
    requires 0 < cap
    ensures i < cap
  {
    pos % cap
  }

  function SeqAt(cells: seq<Cell>, pos: nat): nat
    requires 0 < |cells|
  {
    cells[Slot(pos, |cells|)].seqno
  }

  function Init(light: bool, cap: nat): State {
    State(light, seq(cap, i requires 0 <= i < cap => Cell(i, 0xFFFF_FFFF)), 0, 0, map[], [], [])
  }

  // ------------------------------------------------------------------ steps

  datatype Op = Push(v: Val) | Pop | PopBulk(maxn: nat)

  /** A thread that is idle (or unknown so far) calls an operation. */
  predicate CanInvoke(s: State, t: Tid) { t in s.pcs ==> s.pcs[t] == Idle }

  function EntryPc(op: Op): Pc {
    match op
    case Push(v) => PushHead(v)
    case Pop => PopTail
    case PopBulk(maxn) => BulkTail(maxn)
  }

  function Invoke(s: State, t: Tid, op: Op): State {
    s.(pcs := s.pcs[t := EntryPc(op)])
  }

  function Goto(s: State, t: Tid, pc: Pc): State { s.(pcs := s.pcs[t := pc]) }

  /** After the scan loop: m ready cells were seen. */
  function AfterScan(maxn: nat, pos: nat, m: nat): Pc {
    if m == 0 then BulkProbe(maxn, pos) else BulkCas(maxn, pos, m)
  }

  function ScanOrDone(maxn: nat, pos: nat, m: nat): Pc {
    if m < maxn then BulkScan(maxn, pos, m) else AfterScan(maxn, pos, m)
  }

  /**
    In a claim, is the next access a read of a value (or a recycling store)?
    `pop_bulk` alternates; the fence-light form reads the whole claim first.
   */
  predicate ReadsNext(light: bool, m: nat, rd: nat, rl: nat) {
    if light then rd < m else rd == rl
  }

  // The six accesses that change shared state.

  /** A successful head CAS. */
  function WinHead(s: State, t: Tid, v: Val): State {
    s.(head := s.head + 1, log := s.log + [v], pcs := s.pcs[t := PushVal(v, s.head)])
  }

  function StoreVal(s: State, t: Tid, v: Val, pos: nat): State
    requires 0 < |s.cells|
  {
    var i := Slot(pos, |s.cells|);
    s.(cells := s.cells[i := s.cells[i].(val := v)], pcs := s.pcs[t := PushRel(v, pos)])
  }

  function Publish(s: State, t: Tid, pos: nat): State
    requires 0 < |s.cells|
  {
    var i := Slot(pos, |s.cells|);
    s.(cells := s.cells[i := s.cells[i].(seqno := pos + 1)], pcs := s.pcs[t := PushRet(true)])
  }

  /** A successful tail CAS by m. */
  function Claim(s: State, t: Tid, m: nat): State {
    s.(tail := s.tail + m, pcs := s.pcs[t := Take(s.tail, m, 0, 0, [])])
  }

  function ReadOne(s: State, t: Tid, pc: Pc): State
    requires 0 < |s.cells| && pc.Take?
  {
    var v := s.cells[Slot(pc.pos + pc.rd, |s.cells|)].val;
    s.(deliv := s.deliv + [(pc.pos + pc.rd, v)],
       pcs := s.pcs[t := pc.(rd := pc.rd + 1, out := pc.out + [v])])
  }

  function Recycle(s: State, t: Tid, pc: Pc): State
    requires 0 < |s.cells| && pc.Take?
  {
    var i := Slot(pc.pos + pc.rl, |s.cells|);
    s.(cells := s.cells[i := s.cells[i].(seqno := pc.pos + pc.rl + |s.cells|)],
       pcs := s.pcs[t := if pc.rl + 1 < pc.m then pc.(rl := pc.rl + 1) else PopRet(pc.out)])
  }

  /** Where a load, a failed CAS or a return takes the thread. */
  function After(s: State, pc: Pc): Pc
    requires 0 < |s.cells|
  {
    match pc
    case PushHead(v) => PushSeq(v, s.head)
    case PushSeq(v, pos) =>
      var q := SeqAt(s.cells, pos);
      if q == pos then PushCas(v, pos) else if q < pos then PushRet(false) else PushHead(v)
    case PushCas(v, pos) => PushSeq(v, s.head)
    case PopTail => PopSeq(s.tail)
    case PopSeq(pos) =>
      var q := SeqAt(s.cells, pos);
      if q == pos + 1 then PopCas(pos) else if q < pos + 1 then PopRet([]) else PopTail
    case PopCas(pos) => PopSeq(s.tail)
    case BulkTail(maxn) => ScanOrDone(maxn, s.tail, 0)
    case BulkScan(maxn, pos, m) =>
      if SeqAt(s.cells, pos + m) == pos + m + 1 then ScanOrDone(maxn, pos, m + 1) else AfterScan(maxn, pos, m)
    case BulkProbe(maxn, pos) => if SeqAt(s.cells, pos) < pos + 1 then PopRet([]) else BulkTail(maxn)
    case BulkCas(maxn, pos, m) => BulkTail(maxn)
    case _ => Idle
  }

  /** The next atomic access of thread t. */
  function Step(s: State, t: Tid): State
    requires 0 < |s.cells| && t in s.pcs
    ensures |Step(s, t).cells| == |s.cells|
  {
    var pc := s.pcs[t];
    if pc.PushCas? && s.head == pc.pos then WinHead(s, t, pc.v)
    else if pc.PushVal? then StoreVal(s, t, pc.v, pc.pos)
    else if pc.PushRel? then Publish(s, t, pc.pos)
    else if pc.PopCas? && s.tail == pc.pos then Claim(s, t, 1)
    else if pc.BulkCas? && s.tail == pc.pos then Claim(s, t, pc.m)
    else if pc.Take? then if ReadsNext(s.light, pc.m, pc.rd, pc.rl) then ReadOne(s, t, pc) else Recycle(s, t, pc)
    else Goto(s, t, After(s, pc))
  }

  datatype Action = Call(t: Tid, op: Op) | Run(t: Tid)

  predicate Enabled(s: State, a: Action) {
    match a
    case Call(t, op) => CanInvoke(s, t)
    case Run(t) => t in s.pcs
  }

  function Apply(s: State, a: Action): State
    requires 0 < |s.cells| && Enabled(s, a)
    ensures |Apply(s, a).cells| == |s.cells|
  {
    match a
    case Call(t, op) => Invoke(s, t, op)
    case Run(t) => Step(s, t)
  }

  // ------------------------------------------------------ ownership of cells

  /** Position a producer has won and not yet published. */
  predicate OwnsPush(pc: Pc, p: nat) {
    (pc.PushVal? && pc.pos == p) || (pc.PushRel? && pc.pos == p)
  }

  /** Position a consumer has claimed and not yet recycled. */
  predicate OwnsPop(pc: Pc, p: nat) {
    pc.Take? && pc.pos + pc.rl <= p < pc.pos + pc.m
  }

  /** Position a consumer has claimed and not yet read. */
  predicate WillRead(pc: Pc, p: nat) {
    pc.Take? && pc.pos + pc.rd <= p < pc.pos + pc.m
  }

  predicate Owns(pc: Pc, p: nat) { OwnsPush(pc, p) || OwnsPop(pc, p) }

  predicate Owner(pc: Pc) { pc.PushVal? || pc.PushRel? || pc.Take? }

  ghost predicate PushOwned(s: State, p: nat) {
    exists t :: t in s.pcs && OwnsPush(s.pcs[t], p)
  }

  ghost predicate PopOwned(s: State, p: nat) {
    exists t :: t in s.pcs && OwnsPop(s.pcs[t], p)
  }

  /** The values of positions lo .. hi are in their cells and visible. */
  predicate Ready(cells: seq<Cell>, lo: nat, hi: nat)
    requires 0 < |cells|
  {
    forall p {:trigger SeqAt(cells, p)} :: lo <= p < hi ==> SeqAt(cells, p) == p + 1
  }

  // -------------------------------------------------------------- invariant

  predicate Cursors(s: State) {
    2 <= |s.cells| && |s.log| == s.head && s.tail <= s.head <= s.tail + |s.cells|
  }

  /** Cell i waits for, or is being filled for, position q. */
  ghost predicate FreeAt(s: State, i: nat, q: nat)
    requires 2 <= |s.cells| && i < |s.cells|
  {
    && s.cells[i].seqno == q && Slot(q, |s.cells|) == i
    && s.head <= q + |s.cells| && q < s.tail + |s.cells|
    && (q < s.head ==> s.tail <= q && PushOwned(s, q))
  }

  /** Cell i holds the published value of position p. */
  ghost predicate FullAt(s: State, i: nat, p: nat)
    requires Cursors(s) && i < |s.cells|
  {
    && s.cells[i].seqno == p + 1 && Slot(p, |s.cells|) == i
    && p < s.head <= p + |s.cells|
    && s.cells[i].val == s.log[p]
    && (p < s.tail ==> PopOwned(s, p))
  }

  ghost predicate CellOk(s: State, i: nat)
    requires Cursors(s) && i < |s.cells|
  {
    var q := s.cells[i].seqno;
    FreeAt(s, i, q) || (0 < q && FullAt(s, i, q - 1))
  }

  ghost predicate Cells(s: State) {
    Cursors(s) && forall i :: 0 <= i < |s.cells| ==> CellOk(s, i)
  }

  predicate PcOk(s: State, pc: Pc)
    requires Cursors(s)
  {
    match pc
    case PushSeq(v, pos) => pos <= s.head
    case PushCas(v, pos) => pos <= s.head && (pos == s.head ==> SeqAt(s.cells, pos) == pos)
    case PushVal(v, pos) => s.tail <= pos < s.head && SeqAt(s.cells, pos) == pos && s.log[pos] == v
    case PushRel(v, pos) =>
      s.tail <= pos < s.head && SeqAt(s.cells, pos) == pos && s.log[pos] == v
      && s.cells[Slot(pos, |s.cells|)].val == v
    case PopSeq(pos) => pos <= s.tail
    case PopCas(pos) => pos <= s.tail && (pos == s.tail ==> pos < s.head && SeqAt(s.cells, pos) == pos + 1)
    case BulkScan(maxn, pos, m) =>
      m < maxn && pos <= s.tail && (pos == s.tail ==> pos + m <= s.head && Ready(s.cells, pos, pos + m))
    case BulkProbe(maxn, pos) => pos <= s.tail
    case BulkCas(maxn, pos, m) =>
      0 < m <= maxn && pos <= s.tail && (pos == s.tail ==> pos + m <= s.head && Ready(s.cells, pos, pos + m))
    case Take(pos, m, rd, rl, out) =>
      && rl <= rd <= m && 0 < m && |out| == rd && rl < m
      && (s.light ==> 0 < rl ==> rd == m) && (!s.light ==> rd <= rl + 1)
      && pos + m <= s.tail
      && out == s.log[pos..pos + rd]
      && Ready(s.cells, pos + rl, pos + m)
    case _ => true
  }

  ghost predicate Threads(s: State) {
    Cursors(s) && forall t :: t in s.pcs ==> PcOk(s, s.pcs[t])
  }

  ghost predicate Exclusive(s: State) {
    forall t, u, p :: t in s.pcs && u in s.pcs && t != u && Owns(s.pcs[t], p) ==> !Owns(s.pcs[u], p)
  }

  ghost predicate Listed(deliv: seq<(nat, Val)>, p: nat) {
    exists k :: 0 <= k < |deliv| && deliv[k].0 == p
  }

  /** Every read so far is of a distinct claimed position and returned its value. */
  ghost predicate Deliveries(s: State) {
    && |s.log| == s.head && s.tail <= s.head
    && (forall k :: 0 <= k < |s.deliv| ==> s.deliv[k].0 < s.tail && s.deliv[k].1 == s.log[s.deliv[k].0])
    && (forall j, k :: 0 <= j < k < |s.deliv| ==> s.deliv[j].0 != s.deliv[k].0)
    && (forall t, p :: t in s.pcs && WillRead(s.pcs[t], p) ==> !Listed(s.deliv, p))
    && (forall p :: 0 <= p < s.tail ==> Listed(s.deliv, p) || exists t :: t in s.pcs && WillRead(s.pcs[t], p))
  }

  ghost predicate Inv(s: State) {
    Cells(s) && Threads(s) && Exclusive(s) && Deliveries(s)
  }
}
