/**
  The ready queue as an object updated in place, used by one thread at a time
  (src/runtime/queue.h).  Without a competitor every CAS succeeds at once, so
  each operation is one pass of its retry loop; the concurrent passes are the
  transition system's.
 */
module RingQueue {
  import opened MpmcRing
  import opened MpmcRingSafety
  import opened MpmcRingTheorems

  const QUEUE_EMPTY := 0xFFFF_FFFF

  /** Positions in [lo, hi) are published; the rest of the lap starting at lo is free. */
  ghost predicate Laid(seqnos: seq<nat>, lo: nat, hi: nat) {
    && 2 <= |seqnos| && lo <= hi <= lo + |seqnos|
    && forall p: nat {:trigger Slot(p, |seqnos|)} :: lo <= p < lo + |seqnos| ==>
         seqnos[Slot(p, |seqnos|)] == if p < hi then p + 1 else p
  }

  lemma LaidAt(seqnos: seq<nat>, lo: nat, hi: nat, p: nat)
    requires Laid(seqnos, lo, hi) && lo <= p <= lo + |seqnos|
    ensures var q := seqnos[Slot(p, |seqnos|)];
            q <= p + 1 && (q == p + 1 <==> p < hi) && (q == p <==> hi <= p < lo + |seqnos|)
  {
    SlotNext(lo, |seqnos|);
    var s := Slot(lo, |seqnos|);
  }

  lemma OtherSlots(lo: nat, cap: nat, p: nat)
    requires 0 < cap && lo <= p < lo + cap
    ensures forall q: nat {:trigger Slot(q, cap)} :: lo <= q < lo + cap && q != p ==> Slot(q, cap) != Slot(p, cap)
  {
    forall q: nat | lo <= q < lo + cap && q != p ensures Slot(q, cap) != Slot(p, cap) {
      if Slot(q, cap) == Slot(p, cap) {
        if q <= p { SlotUnique(q, p, cap); } else { SlotUnique(p, q, cap); }
      }
    }
  }

  lemma Published(seqnos: seq<nat>, lo: nat, hi: nat)
    requires Laid(seqnos, lo, hi) && hi < lo + |seqnos|
    ensures Laid(seqnos[Slot(hi, |seqnos|) := hi + 1], lo, hi + 1)
  {
    OtherSlots(lo, |seqnos|, hi);
  }

  lemma Recycled(seqnos: seq<nat>, lo: nat, hi: nat)
    requires Laid(seqnos, lo, hi) && lo < hi
    ensures Laid(seqnos[Slot(lo, |seqnos|) := lo + |seqnos|], lo + 1, hi)
  {
    var cap := |seqnos|;
    OtherSlots(lo, cap, lo);
    SlotNext(lo, cap);
  }

  /** The values at positions [lo, hi). */
  function Slice(vals: seq<nat>, lo: nat, hi: nat): (r: seq<nat>)
    requires 0 < |vals| && lo <= hi
    ensures |r| == hi - lo
  {
    seq(hi - lo, i requires 0 <= i < hi - lo => vals[Slot(lo + i, |vals|)])
  }

  lemma SliceSplit(vals: seq<nat>, lo: nat, mid: nat, hi: nat)
    requires 0 < |vals| && lo <= mid <= hi
    ensures Slice(vals, lo, hi) == Slice(vals, lo, mid) + Slice(vals, mid, hi)
  {
    forall i | 0 <= i < hi - lo ensures Slice(vals, lo, hi)[i] == (Slice(vals, lo, mid) + Slice(vals, mid, hi))[i] {
      if i >= mid - lo { assert mid + (i - (mid - lo)) == lo + i; }
    }
  }

  lemma SliceOne(vals: seq<nat>, lo: nat)
    requires 0 < |vals|
    ensures Slice(vals, lo, lo + 1) == [vals[Slot(lo, |vals|)]]
  {}

  /** Writing the cell of position hi does not disturb the positions before it in the lap. */
  lemma SlicePush(vals: seq<nat>, lo: nat, hi: nat, v: nat)
    requires 0 < |vals| && lo <= hi < lo + |vals|
    ensures Slice(vals[Slot(hi, |vals|) := v], lo, hi + 1) == Slice(vals, lo, hi) + [v]
  {
    OtherSlots(lo, |vals|, hi);
  }

  class Queue {
    const seqno: array<nat>
    const val: array<nat>
    const fenceLight: bool
    var head: nat
    var tail: nat

    ghost predicate Shaped()
      reads this
    {
      seqno != val && seqno.Length == val.Length >= 2 && tail <= head <= tail + seqno.Length
    }

    ghost predicate Valid()
      reads this, seqno
    {
      Shaped() && Laid(seqno[..], tail, head)
    }

    /** Pushed and not yet popped, oldest first. */
    ghost function Contents(): seq<nat>
      requires Shaped()
      reads this, val
    {
      Slice(val[..], tail, head)
    }

    constructor (capacity: nat, light: bool)
      requires capacity >= 2
      ensures Valid() && Contents() == [] && fresh(seqno) && fresh(val)
      ensures seqno.Length == capacity && fenceLight == light && head == tail == 0
    {
      seqno, val := new nat[capacity], new nat[capacity];
      fenceLight, head, tail := light, 0, 0;
      new;
      for i := 0 to capacity
        invariant head == tail == 0 && seqno != val && fresh(seqno) && fresh(val)
        invariant forall j :: 0 <= j < i ==> seqno[j] == j
      {
        seqno[i], val[i] := i, QUEUE_EMPTY;
      }
      forall p: nat | p < capacity ensures Slot(p, capacity) == p { Small(p, capacity); }
    }

    /** Appends, and refuses exactly when the ring is full. */
    method Push(v: nat) returns (ok: bool)
      requires Valid()
      modifies this`head, seqno, val
      ensures Valid()
      ensures ok <==> |old(Contents())| < seqno.Length
      ensures Contents() == if ok then old(Contents()) + [v] else old(Contents())
    {
      var pos := head;
      var i := Slot(pos, seqno.Length);
      LaidAt(seqno[..], tail, head, pos);
      var dif: int := seqno[i] as int - pos;
      if dif == 0 {
        Published(seqno[..], tail, pos);
        SlicePush(val[..], tail, pos, v);
        head := pos + 1;
        val[i] := v;
        seqno[i] := pos + 1;
        assert seqno[..] == old(seqno[..])[i := pos + 1] && val[..] == old(val[..])[i := v];
        return true;
      } else {
        return false;
      }
    }

    /** Hands the claimed cell of position p to the producers' next lap. */
    method Recycle(p: nat)
      requires Laid(seqno[..], p, head) && p < head
      modifies seqno
      ensures Laid(seqno[..], p + 1, head)
    {
      Recycled(seqno[..], p, head);
      var lap: nat := p + seqno.Length;
      seqno[Slot(p, seqno.Length)] := lap;
      assert seqno[..] == old(seqno[..])[Slot(p, seqno.Length) := lap];
    }

    /** Takes the oldest, and reports empty exactly when there is none. */
    method Pop() returns (ok: bool, out: nat)
      requires Valid()
      modifies this`tail, seqno
      ensures Valid()
      ensures ok <==> old(Contents()) != []
      ensures ok ==> out == old(Contents())[0] && Contents() == old(Contents())[1..]
      ensures !ok ==> Contents() == old(Contents())
    {
      var pos := tail;
      var i := Slot(pos, seqno.Length);
      LaidAt(seqno[..], tail, head, pos);
      var dif: int := seqno[i] as int - (pos + 1);
      if dif == 0 {
        SliceSplit(val[..], pos, pos + 1, head);
        SliceOne(val[..], pos);
        tail := pos + 1;
        out := val[i];
        Recycle(pos);
        return true, out;
      } else {
        return false, QUEUE_EMPTY;
      }
    }

    /** The scan shared by both bulk forms: the ready cells from tail on, at most maxn. */
    method Scan(maxn: nat) returns (m: nat)
      requires Valid()
      ensures m == if maxn <= head - tail then maxn else head - tail
    {
      m := 0;
      LaidAt(seqno[..], tail, head, tail);
      while m < maxn && seqno[Slot(tail + m, seqno.Length)] == tail + m + 1
        invariant m <= head - tail && m <= maxn
      {
        LaidAt(seqno[..], tail, head, tail + m);
        m := m + 1;
      }
      LaidAt(seqno[..], tail, head, tail + m);
    }

    /**
      Takes the oldest maxn, or all there are: more than the capacity never.
      With maxn == 0 the source returns only from an empty ring; otherwise its
      retry loop never ends.
     */
    method PopBulk(maxn: nat) returns (out: seq<nat>)
      requires Valid() && (maxn == 0 ==> Contents() == [])
      modifies this`tail, seqno
      ensures Valid() && |out| <= seqno.Length
      ensures |out| == if maxn <= |old(Contents())| then maxn else |old(Contents())|
      ensures old(Contents()) == out + Contents()
    {
      var pos := tail;
      var m := Scan(maxn);
      SliceSplit(val[..], pos, pos + m, head);
      tail := pos + m;
      if fenceLight {
        out := ReadAll(pos, m);
        RecycleAll(pos, m);
      } else {
        out := TakeEach(pos, m);
      }
    }

    /** The acquire form: read a value, recycle its cell, next. */
    method TakeEach(pos: nat, m: nat) returns (out: seq<nat>)
      requires Shaped() && Laid(seqno[..], pos, head) && pos + m <= head
      modifies seqno
      ensures Laid(seqno[..], pos + m, head) && out == Slice(val[..], pos, pos + m)
    {
      out := [];
      for i := 0 to m
        invariant Laid(seqno[..], pos + i, head)
        invariant out == Slice(val[..], pos, pos + i)
      {
        SliceSplit(val[..], pos, pos + i, pos + i + 1);
        SliceOne(val[..], pos + i);
        out := out + [val[Slot(pos + i, seqno.Length)]];
        Recycle(pos + i);
      }
    }

    method ReadAll(pos: nat, m: nat) returns (out: seq<nat>)
      requires 0 < val.Length
      ensures out == Slice(val[..], pos, pos + m)
    {
      out := [];
      for i := 0 to m
        invariant out == Slice(val[..], pos, pos + i)
      {
        SliceSplit(val[..], pos, pos + i, pos + i + 1);
        SliceOne(val[..], pos + i);
        out := out + [val[Slot(pos + i, val.Length)]];
      }
    }

    method RecycleAll(pos: nat, m: nat)
      requires Laid(seqno[..], pos, head) && pos + m <= head
      modifies seqno
      ensures Laid(seqno[..], pos + m, head)
    {
      for i := 0 to m
        invariant Laid(seqno[..], pos + i, head)
      {
        Recycle(pos + i);
      }
    }
  }

  lemma Small(p: nat, cap: nat)
    requires p < cap
    ensures Slot(p, cap) == p
  {}

  // ------------------------------------------------------ capacity one fails

  function RunOnce(s: State, t: Tid, n: nat): (r: State)
    requires 0 < |s.cells| && t in s.pcs
    ensures |r.cells| == |s.cells| && t in r.pcs
    decreases n
  {
    if n == 0 then s else RunOnce(Step(s, t), t, n - 1)
  }

  /** One solo push: five accesses. */
  lemma SoloPush(s: State, t: Tid, v: MpmcRing.Val)
    requires |s.cells| == 1 && CanInvoke(s, t) && s.cells[0].seqno == s.head
    ensures var r := RunOnce(Invoke(s, t, Push(v)), t, 5);
            && r.pcs[t] == PushRet(true) && r.head == s.head + 1 && r.tail == s.tail && r.log == s.log + [v]
            && r.cells == [Cell(s.head + 1, v)] && r.deliv == s.deliv
  {
    var s0 := Invoke(s, t, Push(v));
    assert Slot(s.head, 1) == 0;
    var s1 := Step(s0, t);
    assert s1.pcs[t] == PushSeq(v, s.head);
    var s2 := Step(s1, t);
    assert s2.pcs[t] == PushCas(v, s.head);
    var s3 := Step(s2, t);
    assert s3.pcs[t] == PushVal(v, s.head);
    var s4 := Step(s3, t);
    assert s4.pcs[t] == PushRel(v, s.head);
    var s5 := Step(s4, t);
    assert RunOnce(s4, t, 1) == RunOnce(s5, t, 0);
    assert RunOnce(s3, t, 2) == RunOnce(s4, t, 1);
    assert RunOnce(s2, t, 3) == RunOnce(s3, t, 2);
  }

  /**
    Why the capacity must be at least 2: with one cell "published" and
    "recycled" carry the same sequence number, so a second push is accepted
    while the first value is still unread, and overwrites it.
   */
  lemma CapacityOneLosesAValue(light: bool, a: MpmcRing.Val, b: MpmcRing.Val)
    ensures var s := RunOnce(Invoke(Init(light, 1), 0, Push(a)), 0, 5);
            var r := RunOnce(Invoke(s, 1, Push(b)), 1, 5);
            && s.pcs[0] == PushRet(true) && r.pcs[1] == PushRet(true)
            && r.log == [a, b] && r.deliv == [] && r.cells == [Cell(2, b)]
  {
    var s0 := Init(light, 1);
    SoloPush(s0, 0, a);
    SoloPush(RunOnce(Invoke(s0, 0, Push(a)), 0, 5), 1, b);
  }
}
