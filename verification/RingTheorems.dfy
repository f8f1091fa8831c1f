/** What the ring promises its callers, over every interleaving. */
module MpmcRingTheorems {
  import opened MpmcRing
  import opened MpmcRingSafety

  // ------------------------------------------------------------------- runs

  /** A schedule: the next action is always one its thread can take. */
  ghost predicate Runs(s: State, acts: seq<Action>)
    requires 0 < |s.cells|
    decreases |acts|
  {
    acts == [] || (Enabled(s, acts[0]) && Runs(Apply(s, acts[0]), acts[1..]))
  }

  function Final(s: State, acts: seq<Action>): State
    requires 0 < |s.cells| && Runs(s, acts)
    ensures |Final(s, acts).cells| == |s.cells|
    decreases |acts|
  {
    if acts == [] then s else Final(Apply(s, acts[0]), acts[1..])
  }

  lemma ActionKeepsInv(s: State, a: Action)
    requires Inv(s) && Enabled(s, a)
    ensures Inv(Apply(s, a))
  {
    match a
    case Call(t, op) => InvokeKeepsInv(s, t, op);
    case Run(t) => StepKeepsInv(s, t);
  }

  /** Every state reachable from a good one is good. */
  lemma {:induction false} RunKeepsInv(s: State, acts: seq<Action>)
    requires Inv(s) && Runs(s, acts)
    ensures Inv(Final(s, acts))
    decreases |acts|
  {
    if acts != [] {
      ActionKeepsInv(s, acts[0]);
      RunKeepsInv(Apply(s, acts[0]), acts[1..]);
    }
  }

  // ----------------------------------------------------- exactly-once, FIFO

  function Values(d: seq<(nat, Val)>): seq<Val> {
    seq(|d|, i requires 0 <= i < |d| => d[i].1)
  }

  function Without<T>(d: seq<T>, k: nat): seq<T>
    requires k < |d|
  {
    d[..k] + d[k + 1..]
  }

  lemma WithoutValue(d: seq<(nat, Val)>, k: nat)
    requires k < |d|
    ensures multiset(Values(d)) == multiset(Values(Without(d, k))) + multiset{d[k].1}
  {
    var v := Values(d);
    assert v == v[..k] + [v[k]] + v[k + 1..];
    assert Values(Without(d, k)) == v[..k] + v[k + 1..];
  }

  lemma WithoutListed(d: seq<(nat, Val)>, k: nat, p: nat)
    requires k < |d| && d[k].0 != p && Listed(d, p)
    ensures Listed(Without(d, k), p)
  {
    var j :| 0 <= j < |d| && d[j].0 == p;
    assert Without(d, k)[if j < k then j else j - 1].0 == p;
  }

  /** A list of (position, value) pairs covering 0 .. |log| once each is a permutation of log. */
  lemma {:induction false} CoverIsPermutation(d: seq<(nat, Val)>, log: seq<Val>)
    requires forall k :: 0 <= k < |d| ==> d[k].0 < |log| && d[k].1 == log[d[k].0]
    requires forall j, k :: 0 <= j < k < |d| ==> d[j].0 != d[k].0
    requires forall p :: 0 <= p < |log| ==> Listed(d, p)
    ensures multiset(Values(d)) == multiset(log)
    decreases |d|
  {
    if |d| == 0 {
      var any := Listed(d, 0);
    } else {
      assert d[0].0 < |log|;
      var n := |log| - 1;
      assert Listed(d, n);
      var k :| 0 <= k < |d| && d[k].0 == n;
      forall p | 0 <= p < n ensures Listed(Without(d, k), p) {
        assert Listed(d, p);
        WithoutListed(d, k, p);
      }
      CoverIsPermutation(Without(d, k), log[..n]);
      WithoutValue(d, k);
      assert log == log[..n] + [log[n]];
    }
  }

  /**
    After any schedule from the initial ring: no position is delivered twice,
    what was delivered for position k is what was pushed at position k, every
    claimed position is delivered or its claimer is about to read it; so once
    no claim is half read, the delivered values are exactly the claimed prefix
    of the pushed values, as multisets.
   */
  lemma ExactlyOnce(light: bool, cap: nat, acts: seq<Action>)
    requires 2 <= cap && Runs(Init(light, cap), acts)
    ensures var s := Final(Init(light, cap), acts);
            && s.tail <= s.head == |s.log|
            && (forall k :: 0 <= k < |s.deliv| ==> s.deliv[k].0 < s.tail && s.deliv[k].1 == s.log[s.deliv[k].0])
            && (forall j, k :: 0 <= j < k < |s.deliv| ==> s.deliv[j].0 != s.deliv[k].0)
            && (forall p :: 0 <= p < s.tail ==> Listed(s.deliv, p) || exists t :: t in s.pcs && WillRead(s.pcs[t], p))
            && ((forall t, p :: t in s.pcs ==> !WillRead(s.pcs[t], p)) ==>
                  multiset(Values(s.deliv)) == multiset(s.log[..s.tail]))
  {
    InitInv(light, cap);
    RunKeepsInv(Init(light, cap), acts);
    var s := Final(Init(light, cap), acts);
    assert Deliveries(s);
    if forall t, p :: t in s.pcs ==> !WillRead(s.pcs[t], p) {
      CoverIsPermutation(s.deliv, s.log[..s.tail]);
    }
  }

  /** What a finished pop returned: the values pushed at the positions it claimed, in order. */
  lemma ReturnedInOrder(s: State, t: Tid)
    requires Inv(s) && t in s.pcs && s.pcs[t].Take? && Step(s, t).pcs[t].PopRet?
    ensures var pc := s.pcs[t];
            Step(s, t).pcs[t].out == s.log[pc.pos..pc.pos + pc.m]
  {
    assert PcOk(s, s.pcs[t]);
  }

  /** A producer's value store never hits a cell some consumer has yet to read or recycle. */
  lemma NoOverwriteBeforeRead(s: State, t: Tid, u: Tid, p: nat)
    requires Inv(s) && t in s.pcs && s.pcs[t].PushVal? && u in s.pcs && OwnsPop(s.pcs[u], p)
    ensures Slot(p, |s.cells|) != Slot(s.pcs[t].pos, |s.cells|)
    ensures Step(s, t).cells[Slot(p, |s.cells|)] == s.cells[Slot(p, |s.cells|)]
  {
    assert PcOk(s, s.pcs[t]) && PcOk(s, s.pcs[u]);
    assert SeqAt(s.cells, p) == p + 1;
    SlotDiffers(p, |s.cells|);
  }

  // -------------------------------------------------------------- bulk claim

  /**
    If the tail CAS of a bulk pop succeeds, all m cells it scanned, one by one
    and at earlier times, still hold the values pushed at their positions; the
    claim fits in the ring even when maxn does not; nobody else owns any of it.
   */
  lemma BulkClaimIsSound(s: State, t: Tid)
    requires Inv(s) && t in s.pcs && s.pcs[t].BulkCas? && s.tail == s.pcs[t].pos
    ensures var pc := s.pcs[t];
            && pc.m <= pc.maxn && pc.m <= |s.cells| && pc.pos + pc.m <= s.head
            && (forall j :: pc.pos <= j < pc.pos + pc.m ==> s.cells[Slot(j, |s.cells|)] == Cell(j + 1, s.log[j]))
            && (forall u, j :: u in s.pcs && pc.pos <= j < pc.pos + pc.m ==> !Owns(s.pcs[u], j))
            && (forall j :: pc.pos <= j < pc.pos + pc.m ==> OwnsPop(Step(s, t).pcs[t], j))
  {
    var pc := s.pcs[t];
    assert PcOk(s, pc);
    forall j | pc.pos <= j < pc.pos + pc.m ensures s.cells[Slot(j, |s.cells|)] == Cell(j + 1, s.log[j]) {
      assert SeqAt(s.cells, j) == j + 1;
      PublishedIsFull(s, j);
    }
    forall u, j | u in s.pcs && pc.pos <= j < pc.pos + pc.m ensures !Owns(s.pcs[u], j) {
      assert PcOk(s, s.pcs[u]);
      assert SeqAt(s.cells, j) == j + 1;
    }
  }

  /** Shared memory seen by consumers: what one complete single pop does to it. */
  datatype Mem = Mem(cells: seq<Cell>, tail: nat, deliv: seq<(nat, Val)>)

  function MemOf(s: State): Mem { Mem(s.cells, s.tail, s.deliv) }

  function PopOne(m: Mem): Mem
    requires 0 < |m.cells|
    ensures |PopOne(m).cells| == |m.cells|
  {
    var i := Slot(m.tail, |m.cells|);
    Mem(m.cells[i := m.cells[i].(seqno := m.tail + |m.cells|)], m.tail + 1, m.deliv + [(m.tail, m.cells[i].val)])
  }

  function PopMany(m: Mem, k: nat): Mem
    requires 0 < |m.cells|
    ensures |PopMany(m, k).cells| == |m.cells| && PopMany(m, k).tail == m.tail + k
  {
    if k == 0 then m else PopOne(PopMany(m, k - 1))
  }

  /** Let thread t run, undisturbed, from its claim to its return. */
  function Drain(s: State, t: Tid): State
    requires 0 < |s.cells| && t in s.pcs
    requires s.pcs[t].Take? ==> var pc := s.pcs[t]; pc.rl <= pc.rd <= pc.m && pc.rl < pc.m
    decreases if s.pcs[t].Take? then (s.pcs[t].m - s.pcs[t].rd) + (s.pcs[t].m - s.pcs[t].rl) else 0
  {
    if s.pcs[t].Take? then Drain(Step(s, t), t) else s
  }

  /** Memory while t is rd reads and rl recyclings into a claim of base memory b. */
  ghost predicate Partial(s: State, t: Tid, b: Mem)
    requires 0 < |s.cells| == |b.cells| && t in s.pcs && s.pcs[t].Take?
  {
    var pc := s.pcs[t];
    && pc.pos == b.tail && pc.rl <= pc.rd <= pc.m && pc.rl < pc.m <= |b.cells|
    && (s.light ==> 0 < pc.rl ==> pc.rd == pc.m) && (!s.light ==> pc.rd <= pc.rl + 1)
    && s.tail == b.tail + pc.m
    && s.cells == PopMany(b, pc.rl).cells
    && s.deliv == PopMany(b, pc.rd).deliv
  }

  lemma {:induction false} PopManyCells(b: Mem, k: nat, j: nat)
    requires 0 < |b.cells| && k <= j < |b.cells|
    ensures PopMany(b, k).cells[Slot(b.tail + j, |b.cells|)] == b.cells[Slot(b.tail + j, |b.cells|)]
  {
    if k > 0 {
      PopManyCells(b, k - 1, j);
      if Slot(b.tail + k - 1, |b.cells|) == Slot(b.tail + j, |b.cells|) {
        SlotUnique(b.tail + k - 1, b.tail + j, |b.cells|);
      }
    }
  }

  lemma PartialRead(s: State, t: Tid, b: Mem)
    requires 0 < |s.cells| == |b.cells| && t in s.pcs && s.pcs[t].Take? && Partial(s, t, b)
    requires ReadsNext(s.light, s.pcs[t].m, s.pcs[t].rd, s.pcs[t].rl)
    ensures Partial(ReadOne(s, t, s.pcs[t]), t, b)
  {
    var pc := s.pcs[t];
    PopManyCells(b, pc.rl, pc.rd);
    PopManyCells(b, pc.rd, pc.rd);
    assert PopMany(b, pc.rd + 1) == PopOne(PopMany(b, pc.rd));
  }

  lemma PartialRecycle(s: State, t: Tid, b: Mem)
    requires 0 < |s.cells| == |b.cells| && t in s.pcs && s.pcs[t].Take? && Partial(s, t, b)
    requires !ReadsNext(s.light, s.pcs[t].m, s.pcs[t].rd, s.pcs[t].rl)
    ensures var s' := Recycle(s, t, s.pcs[t]);
            if s'.pcs[t].Take? then Partial(s', t, b) else MemOf(s') == PopMany(b, s.pcs[t].m)
  {
    RecycleCell(s, t, b);
    if s.pcs[t].rl + 1 == s.pcs[t].m { assert s.pcs[t].rd == s.pcs[t].m; }
  }

  lemma RecycleCell(s: State, t: Tid, b: Mem)
    requires 0 < |s.cells| == |b.cells| && t in s.pcs && s.pcs[t].Take? && Partial(s, t, b)
    ensures var s' := Recycle(s, t, s.pcs[t]); var pc := s.pcs[t];
            s'.cells == PopMany(b, pc.rl + 1).cells && s'.deliv == PopMany(b, pc.rd).deliv && s'.tail == s.tail
  {
    var pc := s.pcs[t];
    assert PopMany(b, pc.rl + 1) == PopOne(PopMany(b, pc.rl));
  }

  lemma {:induction false} DrainIsPopMany(s: State, t: Tid, b: Mem)
    requires 0 < |s.cells| == |b.cells| && t in s.pcs && s.pcs[t].Take? && Partial(s, t, b)
    ensures MemOf(Drain(s, t)) == PopMany(b, s.pcs[t].m)
    decreases (s.pcs[t].m - s.pcs[t].rd) + (s.pcs[t].m - s.pcs[t].rl)
  {
    var pc := s.pcs[t];
    if ReadsNext(s.light, pc.m, pc.rd, pc.rl) {
      PartialRead(s, t, b);
      DrainIsPopMany(ReadOne(s, t, pc), t, b);
    } else {
      PartialRecycle(s, t, b);
      if pc.rl + 1 < pc.m { DrainIsPopMany(Recycle(s, t, pc), t, b); }
    }
  }

  /** One bulk claim of m leaves shared memory as m consecutive single pops do, in both variants. */
  lemma BulkIsManySingles(s: State, t: Tid, m: nat)
    requires Inv(s) && t in s.pcs && 0 < m && s.tail + m <= s.head
    ensures MemOf(Drain(Claim(s, t, m), t)) == PopMany(MemOf(s), m)
    ensures MemOf(Drain(Claim(s, t, 1), t)) == PopOne(MemOf(s))
  {
    DrainIsPopMany(Claim(s, t, m), t, MemOf(s));
    DrainIsPopMany(Claim(s, t, 1), t, MemOf(s));
    assert PopMany(MemOf(s), 1) == PopOne(PopMany(MemOf(s), 0));
  }

  // -------------------------------------------------- the ring is a shared bag

  /** Positions whose values a consumer could claim now, or once those before them are published. */
  ghost function Available(s: State): set<nat>
    requires 0 < |s.cells|
  {
    set p | s.tail <= p < s.head && SeqAt(s.cells, p) == p + 1
  }

  /** Seen from outside, one access either publishes one value, takes a run of published ones, or does nothing. */
  lemma StepRefinesBag(s: State, t: Tid)
    requires Inv(s) && t in s.pcs
    ensures var s' := Step(s, t); var pc := s.pcs[t];
            if pc.PushRel? then
              Available(s') == Available(s) + {pc.pos} && pc.pos !in Available(s) && s.log[pc.pos] == pc.v
            else if (pc.PopCas? || pc.BulkCas?) && s.tail == pc.pos then
              && s.tail < s'.tail <= s'.head == s.head
              && (forall p :: s.tail <= p < s'.tail ==> p in Available(s))
              && (forall p :: p in Available(s') <==> p in Available(s) && s'.tail <= p)
            else
              Available(s') == Available(s)
  {
    var pc := s.pcs[t];
    assert PcOk(s, pc);
    if pc.PushCas? && s.head == pc.pos { SlotDiffers(s.head, |s.cells|); }
    else if pc.PushVal? { StoreValBag(s, t, pc.v, pc.pos); }
    else if pc.PushRel? { PublishBag(s, t); }
    else if pc.PopCas? && s.tail == pc.pos { ClaimBag(s, t, 1); }
    else if pc.BulkCas? && s.tail == pc.pos { ClaimBag(s, t, pc.m); }
    else if pc.Take? && !ReadsNext(s.light, pc.m, pc.rd, pc.rl) { RecycleBag(s, t); }
  }

  lemma StoreValBag(s: State, t: Tid, v: Val, pos: nat)
    requires 0 < |s.cells|
    ensures Available(StoreVal(s, t, v, pos)) == Available(s)
  {
    forall p: nat ensures SeqAt(StoreVal(s, t, v, pos).cells, p) == SeqAt(s.cells, p) {}
  }

  lemma ClaimBag(s: State, t: Tid, m: nat)
    requires 0 < |s.cells| && 0 < m && s.tail + m <= s.head && Ready(s.cells, s.tail, s.tail + m)
    ensures forall p :: s.tail <= p < s.tail + m ==> p in Available(s)
    ensures forall p :: p in Available(Claim(s, t, m)) <==> p in Available(s) && s.tail + m <= p
  {
    forall p: nat | s.tail <= p < s.tail + m ensures p in Available(s) { assert SeqAt(s.cells, p) == p + 1; }
  }

  lemma PublishBag(s: State, t: Tid)
    requires Inv(s) && t in s.pcs && s.pcs[t].PushRel?
    ensures var pos := s.pcs[t].pos;
            Available(Publish(s, t, pos)) == Available(s) + {pos} && pos !in Available(s)
  {
    var pos := s.pcs[t].pos;
    var s' := Publish(s, t, pos);
    assert PcOk(s, s.pcs[t]);
    forall p: nat | p != pos ensures SeqAt(s'.cells, p) == p + 1 <==> SeqAt(s.cells, p) == p + 1 {
      if Slot(p, |s.cells|) == Slot(pos, |s.cells|) {
        if p + 1 == pos { SlotDiffers(p, |s.cells|); }
      }
    }
  }

  lemma RecycleBag(s: State, t: Tid)
    requires Inv(s) && t in s.pcs && s.pcs[t].Take? && !ReadsNext(s.light, s.pcs[t].m, s.pcs[t].rd, s.pcs[t].rl)
    ensures Available(Recycle(s, t, s.pcs[t])) == Available(s)
  {
    var pc := s.pcs[t];
    var s' := Recycle(s, t, pc);
    var cap := |s.cells|;
    assert PcOk(s, pc);
    var q := pc.pos + pc.rl;
    assert SeqAt(s.cells, q) == q + 1;
    PublishedIsFull(s, q);
    forall p: nat | s.tail <= p < s.head ensures SeqAt(s'.cells, p) == p + 1 <==> SeqAt(s.cells, p) == p + 1 {
      if Slot(p, cap) == Slot(q, cap) {
        if p + 1 == q + cap {
          SlotNext(q, cap);
          SlotDiffers(p, cap);
        }
      }
    }
  }

  // The bag of values themselves.

  /** The values log holds at the positions of a below n. */
  ghost function Bag(a: set<nat>, log: seq<Val>, n: nat): multiset<Val>
    requires n <= |log|
  {
    if n == 0 then multiset{}
    else Bag(a, log, n - 1) + (if n - 1 in a then multiset{log[n - 1]} else multiset{})
  }

  /** What the ring holds: the values published and not yet claimed. */
  ghost function Contents(s: State): multiset<Val> {
    if |s.cells| == 0 then multiset{} else Bag(Available(s), s.log, |s.log|)
  }

  lemma {:induction false} BagSame(a: set<nat>, log: seq<Val>, b: set<nat>, log': seq<Val>, n: nat)
    requires n <= |log| && n <= |log'| && log[..n] == log'[..n]
    requires forall p: nat :: p < n ==> (p in a <==> p in b)
    ensures Bag(a, log, n) == Bag(b, log', n)
  {
    if n > 0 {
      assert log[..n - 1] == log[..n][..n - 1] && log'[..n - 1] == log'[..n][..n - 1];
      assert log[n - 1] == log[..n][n - 1] && log'[n - 1] == log'[..n][n - 1];
      BagSame(a, log, b, log', n - 1);
    }
  }

  lemma {:induction false} BagAdd(a: set<nat>, log: seq<Val>, n: nat, p: nat)
    requires p < n <= |log| && p !in a
    ensures Bag(a + {p}, log, n) == Bag(a, log, n) + multiset{log[p]}
  {
    if p < n - 1 {
      BagAdd(a, log, n - 1, p);
    } else {
      BagSame(a + {p}, log, a, log, n - 1);
    }
  }

  predicate Within(lo: nat, p: nat, hi: nat) { lo <= p < hi }

  ghost function Run(lo: nat, hi: nat): set<nat> { set p: nat | p < hi && Within(lo, p, hi) }

  /** Taking a run of positions takes their values. */
  lemma {:induction false} BagTake(a: set<nat>, log: seq<Val>, n: nat, lo: nat, hi: nat)
    requires lo <= hi <= n <= |log| && Run(lo, hi) <= a
    ensures Bag(a, log, n) == Bag(a - Run(lo, hi), log, n) + multiset(log[lo..hi])
    decreases hi
  {
    if lo == hi {
      assert a - Run(lo, hi) == a;
    } else {
      var b, p := a - Run(lo, hi), hi - 1;
      assert p in Run(lo, hi);
      BagTake(a, log, n, lo, p);
      OneLess(a, lo, hi);
      BagAdd(b, log, n, p);
      assert log[lo..hi] == log[lo..p] + [log[p]];
    }
  }

  lemma OneLess(a: set<nat>, lo: nat, hi: nat)
    requires lo < hi && hi - 1 in a
    ensures a - Run(lo, hi - 1) == (a - Run(lo, hi)) + {hi - 1}
  {}

  lemma {:induction false} BagHas(a: set<nat>, log: seq<Val>, n: nat, p: nat)
    requires p < n <= |log| && p in a
    ensures log[p] in Bag(a, log, n)
  {
    if p < n - 1 { BagHas(a, log, n - 1, p); }
  }

  /** The tail CAS of pc, about to succeed, claims this many positions. */
  predicate Claims(s: State, pc: Pc) { (pc.PopCas? || pc.BulkCas?) && s.tail == pc.pos }

  function ClaimSize(pc: Pc): nat { if pc.BulkCas? then pc.m else 1 }

  /** One access adds the pushed value, takes the claimed ones, or leaves the bag alone. */
  lemma StepContents(s: State, t: Tid)
    requires Inv(s) && t in s.pcs
    ensures Claims(s, s.pcs[t]) ==> s.tail + ClaimSize(s.pcs[t]) <= |s.log|
    ensures var s' := Step(s, t); var pc := s.pcs[t];
            if pc.PushRel? then Contents(s') == Contents(s) + multiset{pc.v}
            else if Claims(s, pc) then Contents(s) == Contents(s') + multiset(s.log[s.tail..s.tail + ClaimSize(pc)])
            else Contents(s') == Contents(s)
  {
    var pc, s' := s.pcs[t], Step(s, t);
    assert PcOk(s, pc);
    StepRefinesBag(s, t);
    StepLog(s, t);
    if pc.PushRel? {
      BagAdd(Available(s), s.log, |s.log|, pc.pos);
    } else if Claims(s, pc) {
      ClaimContents(s, s', ClaimSize(pc));
    } else {
      SameContents(s, s');
    }
  }

  lemma StepLog(s: State, t: Tid)
    requires 0 < |s.cells| && t in s.pcs
    ensures s.log <= Step(s, t).log
    ensures s.pcs[t].PushRel? || Claims(s, s.pcs[t]) ==> Step(s, t).log == s.log
    ensures Claims(s, s.pcs[t]) ==> Step(s, t).tail == s.tail + ClaimSize(s.pcs[t])
  {}

  lemma ClaimContents(s: State, s': State, m: nat)
    requires 0 < |s.cells| && s'.log == s.log && |s'.cells| == |s.cells| && s.tail + m <= |s.log|
      && s'.tail == s.tail + m
    requires forall p :: s.tail <= p < s'.tail ==> p in Available(s)
    requires forall p :: p in Available(s') <==> p in Available(s) && s'.tail <= p
    ensures Contents(s) == Contents(s') + multiset(s.log[s.tail..s.tail + m])
  {
    BagTake(Available(s), s.log, |s.log|, s.tail, s.tail + m);
    assert Available(s') == Available(s) - Run(s.tail, s'.tail);
  }

  lemma SameContents(s: State, s': State)
    requires 0 < |s.cells| == |s'.cells| && Available(s') == Available(s) && |s.log| == s.head && s.log <= s'.log
    ensures Contents(s') == Contents(s)
  {
    BagSame(Available(s'), s'.log, Available(s), s.log, |s.log|);
    BagRest(Available(s'), s'.log, |s.log|, |s'.log|);
  }

  lemma {:induction false} BagRest(a: set<nat>, log: seq<Val>, n: nat, m: nat)
    requires n <= m <= |log| && forall p :: p in a ==> p < n
    ensures Bag(a, log, m) == Bag(a, log, n)
    decreases m
  {
    if n < m { BagRest(a, log, n, m - 1); }
  }

  /** With no producer between its CAS and its store, everything pushed and not claimed is there to be claimed. */
  lemma AllVisible(s: State, p: nat)
    requires Cells(s) && s.tail <= p < s.head && !PushOwned(s, p)
    ensures p in Available(s)
  {
    CellAt(s, p);
  }

  /** The cell of an overtaken position is not behind it. */
  lemma OvertakenCell(s: State, p: nat)
    requires Cells(s)
    ensures p < s.tail ==> p < SeqAt(s.cells, p)
    ensures p < s.head ==> p <= SeqAt(s.cells, p)
  {
    var i := Slot(p, |s.cells|);
    var q := s.cells[i].seqno;
    assert CellOk(s, i);
    if p < s.head && q <= p {
      if FreeAt(s, i, q) { SlotUnique(q, p, |s.cells|); } else { SlotUnique(q - 1, p, |s.cells|); }
    }
  }

  /**
    "Empty", from either pop, means that the cell at tail is not published at that moment: nothing
    was pushed there, or its producer is still at work.  A consumer that was overtaken never says so.
   */
  lemma EmptyMeansUnpublished(s: State, t: Tid)
    requires Inv(s) && t in s.pcs && (s.pcs[t].PopSeq? || s.pcs[t].BulkProbe?)
    ensures Step(s, t).pcs[t] == PopRet([]) <==>
            s.pcs[t].pos == s.tail && (s.tail == s.head || PushOwned(s, s.tail))
    ensures s.pcs[t] == PopSeq(s.tail) && Step(s, t).pcs[t] != PopRet([]) ==> Step(s, t).pcs[t] == PopCas(s.tail)
  {
    assert PcOk(s, s.pcs[t]);
    CellAt(s, s.tail);
    OvertakenCell(s, s.pcs[t].pos);
  }

  /** "Full" means that the cell at head still holds a value nobody claimed, or one its consumer has not recycled. */
  lemma FullMeansOccupied(s: State, t: Tid)
    requires Inv(s) && t in s.pcs && s.pcs[t].PushSeq?
    ensures Step(s, t).pcs[t] == PushRet(false) <==>
            && s.pcs[t].pos == s.head
            && (s.head == s.tail + |s.cells| || (|s.cells| <= s.head && PopOwned(s, s.head - |s.cells|)))
  {
    assert PcOk(s, s.pcs[t]);
    OvertakenCell(s, s.pcs[t].pos);
    HeadBehind(s);
  }

  lemma HeadBehind(s: State)
    requires Cells(s) && Threads(s)
    ensures SeqAt(s.cells, s.head) < s.head <==>
            s.head == s.tail + |s.cells| || (|s.cells| <= s.head && PopOwned(s, s.head - |s.cells|))
  {
    var cap := |s.cells|;
    var i := Slot(s.head, cap);
    var q := s.cells[i].seqno;
    assert CellOk(s, i);
    if cap <= s.head {
      var p := s.head - cap;
      SlotNext(p, cap);
      if PopOwned(s, p) {
        var u :| u in s.pcs && OwnsPop(s.pcs[u], p);
        assert PcOk(s, s.pcs[u]);
        assert SeqAt(s.cells, p) == p + 1;
      }
      if s.tail == p { CellAt(s, p); }
      if FreeAt(s, i, q) && q < s.head { SlotUnique(p, q, cap); }
      if 0 < q && FullAt(s, i, q - 1) { SlotUnique(p, q - 1, cap); }
    } else {
      if FreeAt(s, i, q) && q < s.head { SlotUnique(q, s.head, cap); }
      if 0 < q && FullAt(s, i, q - 1) { SlotUnique(q - 1, s.head, cap); }
    }
  }

  // -------------------------------------- pushes never fail, run after run

  /** Has called push and not yet won a position. */
  predicate Pushing(pc: Pc) { pc.PushHead? || pc.PushSeq? || pc.PushCas? }

  ghost function Pushers(s: State): set<Tid> { set t | t in s.pcs && Pushing(s.pcs[t]) }

  /** No push is in flight and everything pushed was popped and recycled; consumers may still be polling. */
  ghost predicate Quiescent(s: State) {
    s.head == s.tail && forall t :: t in s.pcs ==> !Owner(s.pcs[t]) && !Pushing(s.pcs[t]) && !s.pcs[t].PushRet?
  }

  /** All slots used by earlier runs are free again, at the very next positions. */
  lemma QuiescentIsRecycled(s: State, p: nat)
    requires Inv(s) && Quiescent(s) && s.head <= p < s.head + |s.cells|
    ensures SeqAt(s.cells, p) == p
  {
    var cap := |s.cells|;
    var i := Slot(p, cap);
    var q := s.cells[i].seqno;
    assert CellOk(s, i);
    forall x: nat ensures !PushOwned(s, x) && !PopOwned(s, x) {}
    assert FreeAt(s, i, q);
    if q <= p { SlotUnique(q, p, cap); } else { SlotUnique(p, q, cap); }
  }

  function PushCall(a: Action): nat { if a.Call? && a.op.Push? then 1 else 0 }

  ghost function PushCalls(acts: seq<Action>): nat
    decreases |acts|
  {
    if acts == [] then 0 else PushCall(acts[0]) + PushCalls(acts[1..])
  }

  /** State during a run that began with both cursors at start, after `calls` pushes were called. */
  ghost predicate Epoch(s: State, start: nat, calls: nat) {
    && Inv(s) && start <= s.head
    && s.head + |Pushers(s)| <= start + calls
    && (forall p {:trigger SeqAt(s.cells, p)} :: start <= p < start + |s.cells| ==> p <= SeqAt(s.cells, p))
    && (forall t :: t in s.pcs && (s.pcs[t].PushSeq? || s.pcs[t].PushCas?) ==> start <= s.pcs[t].pos)
  }

  lemma PushersAfter(s: State, t: Tid, pc: Pc)
    ensures Pushers(Goto(s, t, pc)) == if Pushing(pc) then Pushers(s) + {t} else Pushers(s) - {t}
  {}

  /** Cell sequence numbers only grow. */
  lemma SeqGrows(s: State, t: Tid, p: nat)
    requires Inv(s) && t in s.pcs
    ensures SeqAt(s.cells, p) <= SeqAt(Step(s, t).cells, p)
  {
    var pc := s.pcs[t];
    assert PcOk(s, pc);
    if pc.Take? {
      assert !ReadsNext(s.light, pc.m, pc.rd, pc.rl) ==> SeqAt(s.cells, pc.pos + pc.rl) == pc.pos + pc.rl + 1;
    }
  }

  /** Nothing but an invocation starts a push, and winning a position ends one. */
  lemma StepShape(s: State, t: Tid)
    requires 0 < |s.cells| && t in s.pcs
    ensures var s' := Step(s, t); var pc, pc' := s.pcs[t], Step(s, t).pcs[t];
            && s'.pcs == s.pcs[t := pc'] && (Pushing(pc') ==> Pushing(pc))
            && (s'.head == s.head || (s'.head == s.head + 1 && Pushing(pc) && !Pushing(pc')))
  {}

  lemma PushersStep(s: State, s': State, t: Tid)
    requires t in s.pcs && t in s'.pcs && s'.pcs == s.pcs[t := s'.pcs[t]]
    requires Pushing(s'.pcs[t]) ==> Pushing(s.pcs[t])
    ensures |Pushers(s')| == |Pushers(s)| - (if Pushing(s.pcs[t]) && !Pushing(s'.pcs[t]) then 1 else 0)
  {
    if Pushing(s.pcs[t]) && !Pushing(s'.pcs[t]) {
      assert Pushers(s') == Pushers(s) - {t};
    } else {
      assert Pushers(s') == Pushers(s);
    }
  }

  /** A push that is still scanning looks at a slot the epoch has recycled. */
  lemma EpochScan(s: State, t: Tid, start: nat, calls: nat)
    requires Epoch(s, start, calls) && calls <= |s.cells| && t in s.pcs && Pushing(s.pcs[t])
    ensures s.pcs[t].PushSeq? ==> start <= s.pcs[t].pos <= SeqAt(s.cells, s.pcs[t].pos)
    ensures var pc' := Step(s, t).pcs[t];
            (pc'.PushSeq? || pc'.PushCas? ==> start <= pc'.pos) && pc' != PushRet(false)
  {
    var pc := s.pcs[t];
    assert PcOk(s, pc);
    assert t in Pushers(s);
    assert |Pushers(s) - {t}| == |Pushers(s)| - 1;
    assert s.head < start + |s.cells|;
  }

  lemma EpochStep(s: State, t: Tid, start: nat, calls: nat)
    requires Epoch(s, start, calls) && calls <= |s.cells| && t in s.pcs
    ensures Epoch(Step(s, t), start, calls)
    ensures Step(s, t).pcs[t] != PushRet(false)
  {
    StepShape(s, t);
    PushersStep(s, Step(s, t), t);
    assert start <= Step(s, t).head && Step(s, t).head + |Pushers(Step(s, t))| <= start + calls;
    EpochThreads(s, t, start, calls);
    EpochNoneFails(s, t, start, calls);
    EpochCells(s, t, start, calls);
    StepKeepsInv(s, t);
  }

  lemma EpochThreads(s: State, t: Tid, start: nat, calls: nat)
    requires Epoch(s, start, calls) && calls <= |s.cells| && t in s.pcs
    ensures forall u :: u in Step(s, t).pcs && (Step(s, t).pcs[u].PushSeq? || Step(s, t).pcs[u].PushCas?) ==>
      start <= Step(s, t).pcs[u].pos
  {
    StepShape(s, t);
    if Pushing(s.pcs[t]) { EpochScan(s, t, start, calls); }
  }

  lemma EpochNoneFails(s: State, t: Tid, start: nat, calls: nat)
    requires Epoch(s, start, calls) && calls <= |s.cells| && t in s.pcs
    ensures Step(s, t).pcs[t] != PushRet(false)
  {
    StepShape(s, t);
    if Pushing(s.pcs[t]) { EpochScan(s, t, start, calls); }
  }

  lemma EpochCells(s: State, t: Tid, start: nat, calls: nat)
    requires Epoch(s, start, calls) && t in s.pcs
    ensures |Step(s, t).cells| == |s.cells|
    ensures forall p {:trigger SeqAt(Step(s, t).cells, p)} :: start <= p < start + |s.cells| ==>
      p <= SeqAt(Step(s, t).cells, p)
  {
    forall p | start <= p < start + |s.cells| ensures p <= SeqAt(Step(s, t).cells, p) {
      SeqGrows(s, t, p);
      assert p <= SeqAt(s.cells, p);
    }
  }

  /** No thread is returning "full" from a push. */
  ghost predicate NoPushFailed(s: State) { forall t :: t in s.pcs ==> s.pcs[t] != PushRet(false) }

  lemma PushersCall(s: State, t: Tid, op: Op)
    requires CanInvoke(s, t)
    ensures |Pushers(Invoke(s, t, op))| == |Pushers(s)| + (if op.Push? then 1 else 0)
  {
    PushersAfter(s, t, EntryPc(op));
    assert Pushers(s) - {t} == Pushers(s);
  }

  lemma EpochCall(s: State, t: Tid, op: Op, start: nat, calls: nat)
    requires Epoch(s, start, calls) && CanInvoke(s, t) && NoPushFailed(s)
    ensures Epoch(Invoke(s, t, op), start, calls + (if op.Push? then 1 else 0)) && NoPushFailed(Invoke(s, t, op))
  {
    var s' := Invoke(s, t, op);
    PushersCall(s, t, op);
    assert s'.head == s.head && s'.cells == s.cells;
    assert forall u :: u in s'.pcs && (s'.pcs[u].PushSeq? || s'.pcs[u].PushCas?) ==> start <= s'.pcs[u].pos;
    InvokeKeepsInv(s, t, op);
  }

  lemma EpochAction(s: State, a: Action, start: nat, calls: nat)
    requires Epoch(s, start, calls) && Enabled(s, a) && calls <= |s.cells| && NoPushFailed(s)
    ensures Epoch(Apply(s, a), start, calls + PushCall(a)) && NoPushFailed(Apply(s, a))
    ensures |Apply(s, a).cells| == |s.cells|
  {
    match a
    case Call(t, op) => EpochCall(s, t, op, start, calls);
    case Run(t) =>
      StepShape(s, t);
      EpochStep(s, t, start, calls);
  }

  lemma {:induction false} EpochRun(s: State, acts: seq<Action>, start: nat, calls: nat)
    requires Epoch(s, start, calls) && Runs(s, acts) && calls + PushCalls(acts) <= |s.cells|
    requires NoPushFailed(s)
    ensures Epoch(Final(s, acts), start, calls + PushCalls(acts)) && NoPushFailed(Final(s, acts))
    decreases |acts|
  {
    if acts != [] {
      EpochAction(s, acts[0], start, calls);
      EpochRun(Apply(s, acts[0]), acts[1..], start, calls + PushCall(acts[0]));
    }
  }

  lemma FreshEpoch(s: State)
    requires Inv(s) && Quiescent(s)
    ensures Epoch(s, s.head, 0) && NoPushFailed(s)
  {
    forall p | s.head <= p < s.head + |s.cells| ensures p <= SeqAt(s.cells, p) {
      QuiescentIsRecycled(s, p);
    }
    assert Pushers(s) == {};
  }

  /**
    From a quiescent ring, whatever its cursors, no schedule with at most
    `capacity` pushes makes a push return false.
   */
  lemma PushNeverFails(s: State, acts: seq<Action>)
    requires Inv(s) && Quiescent(s) && Runs(s, acts) && PushCalls(acts) <= |s.cells|
    ensures NoPushFailed(Final(s, acts))
  {
    FreshEpoch(s);
    EpochRun(s, acts, s.head, 0);
  }

  // --------------------------------------------------------- 32-bit cursors

  const WORD := 0x1_0000_0000

  function Low(x: nat): nat { x % WORD }

  /** (int32_t)(a - b) of two 32-bit words. */
  function Diff32(a: nat, b: nat): int
    requires a < WORD && b < WORD
  {
    var d := (a - b) % WORD;
    if d < 0x8000_0000 then d else d - WORD
  }

  lemma WrappedDifference(q: nat, pos: nat)
    requires -0x8000_0000 <= q - pos < 0x8000_0000
    ensures Diff32(Low(q), Low(pos)) == q - pos
  {
    var a, b := q / WORD, pos / WORD;
    assert q - pos == (a - b) * WORD + (Low(q) - Low(pos));
  }

  /**
    Wrapped cursors take the branches of unbounded ones while the true
    difference fits 31 bits: same sign of the difference, same CAS outcome,
    same cell (capacities are powers of two, so they divide 2^32).
   */
  lemma WrappedBranches(q: nat, pos: nat, cap: nat, k: nat)
    requires -0x8000_0000 <= q - pos < 0x8000_0000
    requires 0 < cap && cap * k == WORD
    ensures Diff32(Low(q), Low(pos)) == q - pos
    ensures Low(q) == Low(pos) <==> q == pos
    ensures Low(pos) % cap == Slot(pos, cap)
  {
    WrappedDifference(q, pos);
    var b := pos / WORD;
    assert pos == (b * k) * cap + Low(pos) by {
      assert pos == b * WORD + Low(pos);
      assert b * (cap * k) == (b * k) * cap;
    }
    SameSlot(Low(pos), b * k, cap);
  }

  lemma {:induction false} SameSlot(x: nat, n: nat, cap: nat)
    requires 0 < cap
    ensures Slot(n * cap + x, cap) == Slot(x, cap)
  {
    if n > 0 {
      SameSlot(x, n - 1, cap);
      SlotNext((n - 1) * cap + x, cap);
      assert (n - 1) * cap + x + cap == n * cap + x;
    }
  }

  /**
    How far a capacity-bounded ring's fresh reads can be apart: a fresh cursor and the
    cell it names differ by less than the capacity.
   */
  lemma FreshDifferenceFits(s: State, pos: nat)
    requires Inv(s) && (pos == s.head || pos == s.tail)
    ensures -(|s.cells| as int) <= SeqAt(s.cells, pos) - pos <= |s.cells|
  {
    var i := Slot(pos, |s.cells|);
    assert CellOk(s, i);
  }
}
