/** How far the scan of pop_bulk goes (src/runtime/queue.h), and what a pop_bulk that nobody disturbs returns. */
module MpmcRingBulk {
  import opened MpmcRing
  import opened MpmcRingSafety
  import opened MpmcRingTheorems
  import opened MpmcRingProgress

  /** Thread t's scan is at a cell that is not published for its position. */
  predicate SeesEnd(s: State, t: Tid, n: nat, pos: nat, m: nat)
    requires 0 < |s.cells|
  {
    t in s.pcs && s.pcs[t] == BulkScan(n, pos, m) && SeqAt(s.cells, pos + m) != pos + m + 1
  }

  /** At some moment of the run it was there. */
  ghost predicate SawEnd(s: State, acts: seq<Action>, t: Tid, n: nat, pos: nat, m: nat)
    requires 0 < |s.cells| && Runs(s, acts)
  {
    exists i :: 0 <= i <= |acts| && SeesEndAt(s, acts, i, t, n, pos, m)
  }

  ghost predicate SeesEndAt(s: State, acts: seq<Action>, i: nat, t: Tid, n: nat, pos: nat, m: nat)
    requires 0 < |s.cells| && i <= |acts|
  {
    Runs(s, acts[..i]) && SeesEnd(Final(s, acts[..i]), t, n, pos, m)
  }

  predicate AtCas(s: State, t: Tid, n: nat, pos: nat, m: nat) { t in s.pcs && s.pcs[t] == BulkCas(n, pos, m) }

  /** A thread comes to the tail CAS only with a full batch, or from an unpublished cell. */
  lemma ComesToCas(s: State, a: Action, t: Tid, n: nat, pos: nat, m: nat)
    requires 0 < |s.cells| && Enabled(s, a) && AtCas(Apply(s, a), t, n, pos, m)
    ensures AtCas(s, t, n, pos, m) || n <= m || SeesEnd(s, t, n, pos, m)
  {}

  /** Whoever stands at the tail CAS has scanned a full batch or up to a cell it saw unpublished. */
  lemma {:induction false} ScanIsMaximal(s: State, acts: seq<Action>, t: Tid, n: nat, pos: nat, m: nat)
    requires 0 < |s.cells| && Runs(s, acts) && AtCas(Final(s, acts), t, n, pos, m)
    ensures AtCas(s, t, n, pos, m) || n <= m || SawEnd(s, acts, t, n, pos, m)
    decreases |acts|
  {
    if acts != [] {
      var s1 := Apply(s, acts[0]);
      ScanIsMaximal(s1, acts[1..], t, n, pos, m);
      if AtCas(s1, t, n, pos, m) {
        ComesToCas(s, acts[0], t, n, pos, m);
        if SeesEnd(s, t, n, pos, m) { assert SeesEndAt(s, acts, 0, t, n, pos, m); }
      } else if m < n {
        var i :| 0 <= i <= |acts[1..]| && SeesEndAt(s1, acts[1..], i, t, n, pos, m);
        assert acts[..i + 1][0] == acts[0] && acts[..i + 1][1..] == acts[1..][..i];
        assert SeesEndAt(s, acts, i + 1, t, n, pos, m);
      }
    }
  }

  /** In every run of a fresh ring. */
  lemma ScanStopsAtTheEnd(light: bool, cap: nat, acts: seq<Action>, t: Tid, n: nat, pos: nat, m: nat)
    requires 2 <= cap && Runs(Init(light, cap), acts) && AtCas(Final(Init(light, cap), acts), t, n, pos, m)
    ensures m == n || SawEnd(Init(light, cap), acts, t, n, pos, m)
  {
    InitInv(light, cap);
    RunKeepsInv(Init(light, cap), acts);
    assert PcOk(Final(Init(light, cap), acts), BulkCas(n, pos, m));
    ScanIsMaximal(Init(light, cap), acts, t, n, pos, m);
  }

  // ------------------------------------------------------------ run alone

  /** Left to run alone, t takes the ring from s to r. */
  ghost predicate Comes(s: State, t: Tid, r: State)
    requires 0 < |s.cells| && t in s.pcs
  {
    exists c: nat :: Alone(s, t, c) == r
  }

  lemma ComesNowhere(s: State, t: Tid)
    requires 0 < |s.cells| && t in s.pcs
    ensures Comes(s, t, s)
  {
    assert Alone(s, t, 0) == s;
  }

  lemma ComesStep(s: State, t: Tid, r: State)
    requires 0 < |s.cells| && t in s.pcs && Comes(Step(s, t), t, r)
    ensures Comes(s, t, r)
  {
    var c: nat :| Alone(Step(s, t), t, c) == r;
    assert Alone(s, t, c + 1) == r;
  }

  /** The next k positions are published, and the one after them is not. */
  predicate Stock(s: State, k: nat)
    requires 0 < |s.cells|
  {
    Ready(s.cells, s.tail, s.tail + k) && SeqAt(s.cells, s.tail + k) != s.tail + k + 1
  }

  function Min(a: nat, b: nat): nat { if a <= b then a else b }

  /** What a pop that nobody disturbs leaves: the m oldest values are returned, and only they are claimed. */
  predicate Popped(s: State, r: State, t: Tid, m: nat) {
    && s.tail + m <= |s.log| && r.pcs == s.pcs[t := PopRet(s.log[s.tail..s.tail + m])]
    && r.tail == s.tail + m && r.log == s.log
  }

  /** The state s, with t standing at pc. */
  predicate At(s: State, s': State, t: Tid, pc: Pc) { s' == Goto(s, t, pc) }

  /** The place of t does not count. */
  lemma AtPopped(s: State, s': State, t: Tid, pc: Pc, r: State, m: nat)
    requires At(s, s', t, pc) && Popped(s', r, t, m)
    ensures Popped(s, r, t, m)
  {}

  /** One access of a drain: the claim stays the same claim. */
  lemma DrainStep(s: State, t: Tid)
    requires 0 < |s.cells| && t in s.pcs && s.pcs[t].Take?
    ensures var s', pc, pc' := Step(s, t), s.pcs[t], Step(s, t).pcs[t];
            && s'.tail == s.tail && s'.log == s.log && (pc'.Take? || pc'.PopRet?)
            && (pc'.Take? ==> pc'.pos == pc.pos && pc'.m == pc.m)
  {}

  /** The claim of t has been drained into r. */
  predicate Drained(s: State, t: Tid, r: State)
    requires t in s.pcs && s.pcs[t].Take?
  {
    var pc := s.pcs[t];
    && pc.pos + pc.m <= |s.log| && r.pcs == s.pcs[t := PopRet(s.log[pc.pos..pc.pos + pc.m])]
    && r.tail == s.tail && r.log == s.log
  }

  lemma DrainedLast(s: State, t: Tid)
    requires Inv(s) && t in s.pcs && s.pcs[t].Take? && !Step(s, t).pcs[t].Take?
    ensures Drained(s, t, Step(s, t))
  {
    assert PcOk(s, s.pcs[t]);
    StepShape(s, t);
    DrainStep(s, t);
    ReturnedInOrder(s, t);
  }

  lemma DrainedMore(s: State, t: Tid, r: State)
    requires 0 < |s.cells| && t in s.pcs && s.pcs[t].Take? && Step(s, t).pcs[t].Take? && Drained(Step(s, t), t, r)
    ensures Drained(s, t, r)
  {
    StepShape(s, t);
    DrainStep(s, t);
  }

  /** A claim, drained alone, returns the pushed values of its positions. */
  lemma {:induction false} DrainAlone(s: State, t: Tid) returns (r: State)
    requires Inv(s) && t in s.pcs && s.pcs[t].Take?
    ensures Comes(s, t, r) && Drained(s, t, r)
    decreases SoloRank(s, s.pcs[t])
  {
    var s1 := Step(s, t);
    SoloStep(s, t);
    StepKeepsInv(s, t);
    if s1.pcs[t].Take? {
      r := DrainAlone(s1, t);
      DrainedMore(s, t, r);
    } else {
      r := s1;
      DrainedLast(s, t);
      ComesNowhere(s1, t);
    }
    ComesStep(s, t, r);
  }

  lemma ClaimedDrain(s: State, t: Tid, m: nat, r: State)
    requires t in s.pcs && Drained(Claim(s, t, m), t, r)
    ensures Popped(s, r, t, m)
  {}

  /** From the tail CAS, undisturbed. */
  lemma ClaimAlone(s: State, t: Tid, m: nat) returns (r: State)
    requires Inv(s) && t in s.pcs && Claims(s, s.pcs[t]) && ClaimSize(s.pcs[t]) == m
    ensures Comes(s, t, r) && Popped(s, r, t, m)
  {
    StepKeepsInv(s, t);
    assert Step(s, t) == Claim(s, t, m);
    r := DrainAlone(Step(s, t), t);
    ClaimedDrain(s, t, m, r);
    ComesStep(s, t, r);
  }

  /** With nothing published at tail the probe answers empty. */
  lemma EmptyAlone(s: State, t: Tid, n: nat) returns (r: State)
    requires Inv(s) && t in s.pcs && s.pcs[t] == BulkProbe(n, s.tail) && Stock(s, 0)
    ensures Comes(s, t, r) && Popped(s, r, t, 0)
  {
    EndCells(s);
    r := Step(s, t);
    assert At(s, r, t, PopRet([]));
    assert s.log[s.tail..s.tail + 0] == [];
    ComesNowhere(r, t);
    ComesStep(s, t, r);
  }

  /** Where the scan of a stock of k cells ends. */
  function ScanEnd(s: State, n: nat, k: nat): Pc { AfterScan(n, s.tail, Min(n, k)) }

  lemma EndAlone(s: State, t: Tid, n: nat, k: nat) returns (r: State)
    requires Inv(s) && Stock(s, k) && t in s.pcs && 1 <= n && s.pcs[t] == ScanEnd(s, n, k)
    ensures Comes(s, t, r) && Popped(s, r, t, Min(n, k))
  {
    if k == 0 { r := EmptyAlone(s, t, n); } else { r := ClaimAlone(s, t, Min(n, k)); }
  }

  lemma ScanStep(s: State, t: Tid, n: nat, m: nat, k: nat)
    requires 0 < |s.cells| && Stock(s, k) && t in s.pcs && s.pcs[t] == BulkScan(n, s.tail, m) && m < n && m <= k
    ensures At(s, Step(s, t), t, if m == k || m + 1 == n then ScanEnd(s, n, k) else BulkScan(n, s.tail, m + 1))
  {
    assert m < k ==> SeqAt(s.cells, s.tail + m) == s.tail + m + 1;
  }

  /** The scan, left alone, comes to its end and pops all there is, or all that was asked for. */
  lemma {:induction false} ScanAlone(s: State, t: Tid, n: nat, m: nat, k: nat) returns (r: State)
    requires Inv(s) && Stock(s, k) && t in s.pcs && s.pcs[t] == BulkScan(n, s.tail, m) && m < n && m <= k
    ensures Comes(s, t, r) && Popped(s, r, t, Min(n, k))
    decreases n - m
  {
    var s1 := Step(s, t);
    StepKeepsInv(s, t);
    ScanStep(s, t, n, m, k);
    if m < k && m + 1 < n {
      r := ScanAlone(s1, t, n, m + 1, k);
      AtPopped(s, s1, t, BulkScan(n, s.tail, m + 1), r, Min(n, k));
    } else {
      r := EndAlone(s1, t, n, k);
      AtPopped(s, s1, t, ScanEnd(s, n, k), r, Min(n, k));
    }
    ComesStep(s, t, r);
  }

  lemma BulkBegins(s: State, t: Tid, n: nat)
    requires 0 < |s.cells| && 1 <= n
    ensures At(s, Step(Invoke(s, t, PopBulk(n)), t), t, BulkScan(n, s.tail, 0))
  {}

  lemma PopBegins(s: State, t: Tid)
    requires 0 < |s.cells|
    ensures At(s, Step(Invoke(s, t, Pop), t), t, PopSeq(s.tail))
  {}

  lemma PushBegins(s: State, t: Tid, v: Val)
    requires 0 < |s.cells|
    ensures At(s, Step(Invoke(s, t, Push(v)), t), t, PushSeq(v, s.head))
  {}

  /**
    A pop_bulk that runs alone takes exactly the oldest values, as many as are published in a
    row, but no more than it was asked for.
   */
  lemma PopBulkAlone(s: State, t: Tid, n: nat, k: nat) returns (r: State)
    requires Inv(s) && CanInvoke(s, t) && 1 <= n && Stock(s, k)
    ensures Comes(Invoke(s, t, PopBulk(n)), t, r) && Popped(s, r, t, Min(n, k))
  {
    var s0 := Invoke(s, t, PopBulk(n));
    InvokeKeepsInv(s, t, PopBulk(n));
    StepKeepsInv(s0, t);
    BulkBegins(s, t, n);
    r := ScanAlone(Step(s0, t), t, n, 0, k);
    AtPopped(s, Step(s0, t), t, BulkScan(n, s.tail, 0), r, Min(n, k));
    ComesStep(s0, t, r);
  }

  lemma SeqAlone(s: State, t: Tid) returns (r: State)
    requires Inv(s) && t in s.pcs && s.pcs[t] == PopSeq(s.tail)
    ensures Comes(s, t, r) && Popped(s, r, t, if SeqAt(s.cells, s.tail) == s.tail + 1 then 1 else 0)
  {
    EndCells(s);
    r := Step(s, t);
    if SeqAt(s.cells, s.tail) == s.tail + 1 {
      assert At(s, r, t, PopCas(s.tail));
      StepKeepsInv(s, t);
      r := ClaimAlone(r, t, 1);
    } else {
      assert At(s, r, t, PopRet([]));
      assert s.log[s.tail..s.tail + 0] == [];
      ComesNowhere(r, t);
    }
    ComesStep(s, t, r);
  }

  /** A pop that runs alone takes the oldest value if it is published, and nothing otherwise. */
  lemma PopAlone(s: State, t: Tid) returns (r: State)
    requires Inv(s) && CanInvoke(s, t)
    ensures Comes(Invoke(s, t, Pop), t, r)
    ensures Popped(s, r, t, if SeqAt(s.cells, s.tail) == s.tail + 1 then 1 else 0)
  {
    var s0 := Invoke(s, t, Pop);
    InvokeKeepsInv(s, t, Pop);
    StepKeepsInv(s0, t);
    PopBegins(s, t);
    r := SeqAlone(Step(s0, t), t);
    AtPopped(s, Step(s0, t), t, PopSeq(s.tail), r, if SeqAt(s.cells, s.tail) == s.tail + 1 then 1 else 0);
    ComesStep(s0, t, r);
  }

  /** A push that runs alone: ok says whether it entered v as the newest value. */
  predicate Pushed(s: State, r: State, t: Tid, v: Val, ok: bool)
    requires 0 < |s.cells|
  {
    && r.pcs == s.pcs[t := PushRet(ok)] && r.tail == s.tail && r.head == |r.log|
    && (if ok then r.log == s.log + [v] && r.cells == s.cells[Slot(s.head, |s.cells|) := Cell(s.head + 1, v)]
        else r.log == s.log && r.cells == s.cells)
  }

  lemma WonAlone(s: State, t: Tid, v: Val) returns (r: State)
    requires 0 < |s.cells| && t in s.pcs && s.pcs[t] == PushCas(v, s.head) && |s.log| == s.head
    ensures Comes(s, t, r) && Pushed(s, r, t, v, true)
  {
    var s1 := Step(s, t);
    var s2 := Step(s1, t);
    r := Step(s2, t);
    assert s1 == WinHead(s, t, v) && s2 == StoreVal(s1, t, v, s.head) && r == Publish(s2, t, s.head);
    ComesNowhere(r, t);
    ComesStep(s2, t, r);
    ComesStep(s1, t, r);
    ComesStep(s, t, r);
  }

  /** A push that runs alone succeeds exactly when the cell at head is free for it. */
  lemma PushAlone(s: State, t: Tid, v: Val) returns (r: State)
    requires Inv(s) && CanInvoke(s, t)
    ensures Comes(Invoke(s, t, Push(v)), t, r) && Pushed(s, r, t, v, SeqAt(s.cells, s.head) == s.head)
  {
    var s0 := Invoke(s, t, Push(v));
    var s1 := Step(s0, t);
    var s2 := Step(s1, t);
    EndCells(s);
    PushBegins(s, t, v);
    if SeqAt(s.cells, s.head) == s.head {
      assert At(s, s2, t, PushCas(v, s.head));
      r := WonAlone(s2, t, v);
    } else {
      assert At(s, s2, t, PushRet(false));
      r := s2;
      ComesNowhere(s2, t);
    }
    ComesStep(s1, t, r);
    ComesStep(s0, t, r);
  }
}
