/** The ring invariant is kept by every atomic access. */
module MpmcRingSafety {
  import opened Arithmetic
  import opened MpmcRing

  // ------------------------------------------------------------ slot algebra

  lemma SlotUnique(p: nat, q: nat, cap: nat)
    requires 0 < cap && p <= q < p + cap && Slot(p, cap) == Slot(q, cap)
    ensures p == q
  {
    var k := q / cap - p / cap;
    assert q - p == k * cap;
    Multiple(k, cap);
  }

  lemma SlotNext(p: nat, cap: nat)
    requires 0 < cap
    ensures Slot(p + cap, cap) == Slot(p, cap)
  {
    var k := (p + cap) / cap - p / cap - 1;
    assert k * cap == p % cap - (p + cap) % cap;
    Multiple(k, cap);
  }

  /** The cell of an unclaimed or live position is at that very position. */
  lemma CellAt(s: State, p: nat)
    requires Cells(s) && s.tail <= p < s.tail + |s.cells| && p < s.head + |s.cells|
    ensures p < s.head ==> FreeAt(s, Slot(p, |s.cells|), p) || FullAt(s, Slot(p, |s.cells|), p)
    ensures s.head <= p ==> SeqAt(s.cells, p) <= p
    ensures s.head <= p && SeqAt(s.cells, p) == p ==> FreeAt(s, Slot(p, |s.cells|), p)
  {
    var cap := |s.cells|;
    var i := Slot(p, cap);
    var q := s.cells[i].seqno;
    assert CellOk(s, i);
    if FreeAt(s, i, q) {
      if q <= p {
        if p < s.head {
          SlotUnique(q, p, cap);
        }
      } else {
        SlotUnique(p, q, cap);
      }
    } else {
      if q - 1 <= p {
        if p < s.head {
          SlotUnique(q - 1, p, cap);
        } else if q == p + 1 {
          assert false;
        }
      } else {
        SlotUnique(p, q - 1, cap);
      }
    }
  }

  // ------------------------------------------------------- private accesses

  lemma LocalStep(s: State, t: Tid, pc: Pc)
    requires Inv(s) && !Owner(pc) && (t in s.pcs ==> !Owner(s.pcs[t])) && PcOk(s, pc)
    ensures Inv(Goto(s, t, pc))
  {
    var s' := Goto(s, t, pc);
    forall u | u in s.pcs && Owner(s.pcs[u]) ensures u in s'.pcs && s'.pcs[u] == s.pcs[u] {}
    forall i | 0 <= i < |s'.cells| ensures CellOk(s', i) {
      assert CellOk(s, i);
    }
    forall u | u in s'.pcs ensures PcOk(s', s'.pcs[u]) {
      SamePc(s, s', s'.pcs[u]);
    }
    forall p | 0 <= p < s'.tail && !Listed(s'.deliv, p) ensures exists u :: u in s'.pcs && WillRead(s'.pcs[u], p) {
      assert !Listed(s.deliv, p);
      var u :| u in s.pcs && WillRead(s.pcs[u], p);
      assert s'.pcs[u] == s.pcs[u];
    }
    forall u, p | u in s'.pcs && WillRead(s'.pcs[u], p) ensures !Listed(s'.deliv, p) {
      assert u in s.pcs && s.pcs[u] == s'.pcs[u];
      assert !Listed(s.deliv, p);
    }
  }

  // -------------------------------------------------------- shared accesses

  lemma SlotDiffers(p: nat, cap: nat)
    requires 2 <= cap
    ensures Slot(p, cap) != Slot(p + 1, cap)
  {
    if Slot(p, cap) == Slot(p + 1, cap) {
      SlotUnique(p, p + 1, cap);
    }
  }

  /** A live, claimed or unclaimed, published position holds its own value. */
  lemma PublishedIsFull(s: State, p: nat)
    requires Cells(s) && p < s.head && SeqAt(s.cells, p) == p + 1
    ensures FullAt(s, Slot(p, |s.cells|), p)
  {
    assert CellOk(s, Slot(p, |s.cells|));
    SlotDiffers(p, |s.cells|);
  }

  /** Only t moved, and it kept the same cells except possibly x's. */
  ghost predicate Moved(s: State, s': State, t: Tid, x: nat) {
    && t in s.pcs && s'.pcs.Keys == s.pcs.Keys
    && (forall u :: u in s.pcs && u != t ==> s'.pcs[u] == s.pcs[u])
    && (forall p :: p != x && OwnsPush(s.pcs[t], p) ==> OwnsPush(s'.pcs[t], p))
    && (forall p :: p != x && OwnsPop(s.pcs[t], p) ==> OwnsPop(s'.pcs[t], p))
  }

  lemma OwnersKept(s: State, s': State, t: Tid, x: nat, p: nat)
    requires Moved(s, s', t, x) && p != x
    ensures PushOwned(s, p) ==> PushOwned(s', p)
    ensures PopOwned(s, p) ==> PopOwned(s', p)
  {
    if PushOwned(s, p) {
      var u :| u in s.pcs && OwnsPush(s.pcs[u], p);
      assert OwnsPush(s'.pcs[u], p);
    }
    if PopOwned(s, p) {
      var u :| u in s.pcs && OwnsPop(s.pcs[u], p);
      assert OwnsPop(s'.pcs[u], p);
    }
  }

  /** Cells other than x's stay as they were. */
  lemma OtherCells(s: State, s': State, t: Tid, x: nat)
    requires Cells(s) && Cursors(s') && Moved(s, s', t, x) && |s'.cells| == |s.cells|
    requires s'.head == s.head && s'.tail == s.tail && s'.log == s.log
    requires forall i :: 0 <= i < |s.cells| && i != Slot(x, |s.cells|) ==> s'.cells[i] == s.cells[i]
    ensures forall i :: 0 <= i < |s.cells| && i != Slot(x, |s.cells|) ==> CellOk(s', i)
  {
    forall i | 0 <= i < |s.cells| && i != Slot(x, |s.cells|) ensures CellOk(s', i) {
      assert CellOk(s, i);
      var q := s.cells[i].seqno;
      if FreeAt(s, i, q) {
        OwnersKept(s, s', t, x, q);
        assert FreeAt(s', i, q);
      } else {
        OwnersKept(s, s', t, x, q - 1);
        assert FullAt(s', i, q - 1);
      }
    }
  }

  /** Exclusive ownership survives when nobody gains a cell. */
  lemma ExclusiveKept(s: State, s': State, t: Tid)
    requires Exclusive(s) && t in s.pcs && s'.pcs.Keys == s.pcs.Keys
    requires forall u :: u in s.pcs && u != t ==> s'.pcs[u] == s.pcs[u]
    requires forall p :: Owns(s'.pcs[t], p) ==> Owns(s.pcs[t], p)
    ensures Exclusive(s')
  {
    forall u, w, p | u in s'.pcs && w in s'.pcs && u != w && Owns(s'.pcs[u], p) ensures !Owns(s'.pcs[w], p) {
      assert Owns(s.pcs[u], p);
      assert !Owns(s.pcs[w], p);
    }
  }

  /** Deliveries only depends on deliv, tail, and who will still read what. */
  lemma DeliveriesKept(s: State, s': State, t: Tid)
    requires Deliveries(s) && t in s.pcs && s'.pcs.Keys == s.pcs.Keys
    requires s'.deliv == s.deliv && s'.tail == s.tail <= s'.head && s.log <= s'.log && |s'.log| == s'.head
    requires forall u :: u in s.pcs && u != t ==> s'.pcs[u] == s.pcs[u]
    requires forall p :: WillRead(s'.pcs[t], p) <==> WillRead(s.pcs[t], p)
    ensures Deliveries(s')
  {
    forall p | 0 <= p < s'.tail && !Listed(s'.deliv, p) ensures exists u :: u in s'.pcs && WillRead(s'.pcs[u], p) {
      assert !Listed(s.deliv, p);
      var u :| u in s.pcs && WillRead(s.pcs[u], p);
      assert WillRead(s'.pcs[u], p);
    }
    forall u, p | u in s'.pcs && WillRead(s'.pcs[u], p) ensures !Listed(s'.deliv, p) {
      assert WillRead(s.pcs[u], p);
      assert !Listed(s.deliv, p);
    }
  }

  lemma WinHeadStep(s: State, t: Tid, v: Val)
    requires Inv(s) && t in s.pcs && s.pcs[t] == PushCas(v, s.head)
    ensures Inv(WinHead(s, t, v))
  {
    assert PcOk(s, s.pcs[t]);
    WinHeadCells(s, t, v);
    WinHeadThreads(s, t, v);
    DeliveriesKept(s, WinHead(s, t, v), t);
  }

  lemma WinHeadCells(s: State, t: Tid, v: Val)
    requires Cells(s) && t in s.pcs && s.pcs[t] == PushCas(v, s.head) && SeqAt(s.cells, s.head) == s.head
    ensures Cells(WinHead(s, t, v)) && s.head < s.tail + |s.cells|
  {
    HeadCellFree(s);
    forall i | 0 <= i < |s.cells| ensures CellOk(WinHead(s, t, v), i) {
      var q := s.cells[i].seqno;
      assert CellOk(s, i);
      if FreeAt(s, i, q) { WinHeadFree(s, t, v, i); } else { WinHeadFull(s, t, v, i); }
    }
  }

  lemma WinHeadFree(s: State, t: Tid, v: Val, i: nat)
    requires Cursors(s) && t in s.pcs && s.pcs[t] == PushCas(v, s.head) && SeqAt(s.cells, s.head) == s.head
    requires s.head < s.tail + |s.cells| && i < |s.cells| && FreeAt(s, i, s.cells[i].seqno)
    ensures Cursors(WinHead(s, t, v)) && FreeAt(WinHead(s, t, v), i, s.cells[i].seqno)
  {
    var s' := WinHead(s, t, v);
    var h, q := s.head, s.cells[i].seqno;
    assert OwnsPush(s'.pcs[t], h);
    SlotNext(q, |s.cells|);
    if q < h { OwnersKept(s, s', t, h, q); }
  }

  lemma WinHeadFull(s: State, t: Tid, v: Val, i: nat)
    requires Cursors(s) && t in s.pcs && s.pcs[t] == PushCas(v, s.head) && SeqAt(s.cells, s.head) == s.head
    requires s.head < s.tail + |s.cells| && i < |s.cells| && 0 < s.cells[i].seqno && FullAt(s, i, s.cells[i].seqno - 1)
    ensures Cursors(WinHead(s, t, v)) && FullAt(WinHead(s, t, v), i, s.cells[i].seqno - 1)
  {
    var p := s.cells[i].seqno - 1;
    SlotNext(p, |s.cells|);
    OwnersKept(s, WinHead(s, t, v), t, s.head, p);
  }

  lemma HeadCellFree(s: State)
    requires Cells(s) && SeqAt(s.cells, s.head) == s.head
    ensures FreeAt(s, Slot(s.head, |s.cells|), s.head)
  {
    var h := s.head;
    assert CellOk(s, Slot(h, |s.cells|));
    if 0 < h { SlotDiffers(h - 1, |s.cells|); }
  }

  lemma WinHeadThreads(s: State, t: Tid, v: Val)
    requires Inv(s) && t in s.pcs && s.pcs[t] == PushCas(v, s.head) && s.head < s.tail + |s.cells|
    ensures Threads(WinHead(s, t, v)) && Exclusive(WinHead(s, t, v))
  {
    var s' := WinHead(s, t, v);
    assert PcOk(s, s.pcs[t]);
    forall u | u in s'.pcs ensures PcOk(s', s'.pcs[u]) {
      if u != t { assert PcOk(s, s.pcs[u]); }
    }
    forall u, p: nat | u in s.pcs && u != t && Owns(s.pcs[u], p) ensures p < s.head {
      assert PcOk(s, s.pcs[u]);
    }
  }

  lemma StoreValStep(s: State, t: Tid, v: Val, pos: nat)
    requires Inv(s) && t in s.pcs && s.pcs[t] == PushVal(v, pos)
    ensures Inv(StoreVal(s, t, v, pos))
  {
    var s' := StoreVal(s, t, v, pos);
    var cap := |s.cells|;
    assert PcOk(s, s.pcs[t]);
    var si := Slot(pos, cap);
    assert CellOk(s, si);
    if 0 < pos { SlotDiffers(pos - 1, cap); }
    assert FreeAt(s, si, pos);
    OtherCells(s, s', t, pos);
    assert OwnsPush(s'.pcs[t], pos);
    assert FreeAt(s', si, pos);
    assert OwnsPush(s.pcs[t], pos);
    forall u | u in s'.pcs && u != t ensures PcOk(s', s'.pcs[u]) {
      StoreValPeer(s, s', v, pos, s.pcs[u]);
    }
    assert SeqAt(s'.cells, pos) == pos;
    ExclusiveKept(s, s', t);
    DeliveriesKept(s, s', t);
  }

  lemma StoreValPeer(s: State, s': State, v: Val, p: nat, o: Pc)
    requires Cursors(s) && Cursors(s') && PcOk(s, o) && !Owns(o, p)
    requires s' == s.(cells := s'.cells, pcs := s'.pcs) && SeqAt(s.cells, p) == p
    requires s'.cells == s.cells[Slot(p, |s.cells|) := s.cells[Slot(p, |s.cells|)].(val := v)]
    ensures PcOk(s', o)
  {
    forall j: nat ensures SeqAt(s'.cells, j) == SeqAt(s.cells, j) {}
  }

  lemma PublishStep(s: State, t: Tid, v: Val, pos: nat)
    requires Inv(s) && t in s.pcs && s.pcs[t] == PushRel(v, pos)
    ensures Inv(Publish(s, t, pos))
  {
    var s' := Publish(s, t, pos);
    var cap := |s.cells|;
    assert PcOk(s, s.pcs[t]);
    var si := Slot(pos, cap);
    assert CellOk(s, si);
    SlotDiffers(pos, cap);
    if 0 < pos { SlotDiffers(pos - 1, cap); }
    assert FreeAt(s, si, pos);
    OtherCells(s, s', t, pos);
    assert FullAt(s', si, pos);
    assert OwnsPush(s.pcs[t], pos);
    forall u | u in s'.pcs && u != t ensures PcOk(s', s'.pcs[u]) {
      PublishPeer(s, s', pos, s.pcs[u]);
    }
    ExclusiveKept(s, s', t);
    DeliveriesKept(s, s', t);
  }

  lemma PublishPeer(s: State, s': State, p: nat, o: Pc)
    requires Cursors(s) && Cursors(s') && PcOk(s, o) && !Owns(o, p)
    requires s' == s.(cells := s'.cells, pcs := s'.pcs) && SeqAt(s.cells, p) == p && p < s.head
    requires s'.cells == s.cells[Slot(p, |s.cells|) := s.cells[Slot(p, |s.cells|)].(seqno := p + 1)]
    ensures PcOk(s', o)
  {
    if 0 < p { SlotDiffers(p - 1, |s.cells|); }
    forall j: nat | SeqAt(s.cells, j) == j + 1 ensures SeqAt(s'.cells, j) == j + 1 {}
  }

  /** The tail CAS of `pop` (m == 1) and of `pop_bulk`. */
  lemma ClaimStep(s: State, t: Tid, m: nat)
    requires Inv(s) && t in s.pcs && !Owner(s.pcs[t])
    requires 0 < m && s.tail + m <= s.head && Ready(s.cells, s.tail, s.tail + m)
    ensures Inv(Claim(s, t, m))
  {
    var pos := s.tail;
    var s' := Claim(s, t, m);
    var cap := |s.cells|;
    forall i | 0 <= i < cap ensures CellOk(s', i) {
      assert CellOk(s, i);
      var q := s.cells[i].seqno;
      var seen := SeqAt(s.cells, q);
      if FreeAt(s, i, q) {
        OwnersKept(s, s', t, q + 1, q);
        assert FreeAt(s', i, q);
      } else {
        if pos <= q - 1 < pos + m {
          assert OwnsPop(s'.pcs[t], q - 1);
        } else {
          OwnersKept(s, s', t, q, q - 1);
        }
        assert FullAt(s', i, q - 1);
      }
    }
    ClaimThreads(s, t, m);
    forall p | 0 <= p < s'.tail && !Listed(s'.deliv, p) ensures exists u :: u in s'.pcs && WillRead(s'.pcs[u], p) {
      assert !Listed(s.deliv, p);
      if pos <= p {
        assert WillRead(s'.pcs[t], p);
      } else {
        var u :| u in s.pcs && WillRead(s.pcs[u], p);
        assert WillRead(s'.pcs[u], p);
      }
    }
    forall u, p | u in s'.pcs && WillRead(s'.pcs[u], p) ensures !Listed(s'.deliv, p) {
      if u != t { assert WillRead(s.pcs[u], p); assert !Listed(s.deliv, p); }
    }
  }

  lemma ClaimThreads(s: State, t: Tid, m: nat)
    requires Inv(s) && t in s.pcs && !Owner(s.pcs[t])
    requires 0 < m && s.tail + m <= s.head && Ready(s.cells, s.tail, s.tail + m)
    ensures Threads(Claim(s, t, m)) && Exclusive(Claim(s, t, m))
  {
    var pos := s.tail;
    var s' := Claim(s, t, m);
    forall u | u in s'.pcs && u != t ensures PcOk(s', s'.pcs[u]) {
      ClaimPeer(s, s', m, s.pcs[u]);
    }
    forall u, p: nat | u in s.pcs && u != t && Owns(s.pcs[u], p) ensures !(pos <= p && p < pos + m) {
      ClaimPeer(s, s', m, s.pcs[u]);
    }
  }

  /** Nobody owns any part of a fresh claim, and losing the race to it is harmless. */
  lemma ClaimPeer(s: State, s': State, m: nat, o: Pc)
    requires Cursors(s) && Cursors(s') && PcOk(s, o) && 0 < m && Ready(s.cells, s.tail, s.tail + m)
    requires s' == s.(tail := s.tail + m, pcs := s'.pcs)
    ensures PcOk(s', o)
    ensures forall p: nat :: Owns(o, p) ==> !(s.tail <= p && p < s.tail + m)
  {
    forall q: nat | s.tail <= q < s.tail + m ensures SeqAt(s.cells, q) == q + 1 {}
  }

  lemma ReadStep(s: State, t: Tid, pc: Pc)
    requires Inv(s) && t in s.pcs && s.pcs[t] == pc && pc.Take? && ReadsNext(s.light, pc.m, pc.rd, pc.rl)
    ensures Inv(ReadOne(s, t, pc))
  {
    assert PcOk(s, pc);
    ReadCells(s, t, pc);
    ReadThreads(s, t, pc);
    ReadDeliveries(s, t, pc);
  }

  lemma ReadCells(s: State, t: Tid, pc: Pc)
    requires Cells(s) && t in s.pcs && s.pcs[t] == pc && pc.Take? && PcOk(s, pc) && pc.rd < pc.m
    ensures Cells(ReadOne(s, t, pc))
    ensures s.cells[Slot(pc.pos + pc.rd, |s.cells|)].val == s.log[pc.pos + pc.rd]
  {
    var s' := ReadOne(s, t, pc);
    var p := pc.pos + pc.rd;
    assert SeqAt(s.cells, p) == p + 1;
    PublishedIsFull(s, p);
    SlotDiffers(p, |s.cells|);
    OtherCells(s, s', t, p);
    OtherCells(s, s', t, p + 1);
  }

  lemma ReadThreads(s: State, t: Tid, pc: Pc)
    requires Inv(s) && t in s.pcs && s.pcs[t] == pc && pc.Take? && ReadsNext(s.light, pc.m, pc.rd, pc.rl)
    requires PcOk(s, pc) && s.cells[Slot(pc.pos + pc.rd, |s.cells|)].val == s.log[pc.pos + pc.rd]
    ensures Threads(ReadOne(s, t, pc)) && Exclusive(ReadOne(s, t, pc))
  {
    var s' := ReadOne(s, t, pc);
    ReadSelf(s, s', pc);
    forall u | u in s'.pcs ensures PcOk(s', s'.pcs[u]) {
      if u != t { SamePc(s, s', s.pcs[u]); }
    }
    ExclusiveKept(s, s', t);
  }

  lemma ReadSelf(s: State, s': State, pc: Pc)
    requires Cursors(s) && pc.Take? && PcOk(s, pc) && ReadsNext(s.light, pc.m, pc.rd, pc.rl)
    requires s' == s.(deliv := s'.deliv, pcs := s'.pcs)
    requires s.cells[Slot(pc.pos + pc.rd, |s.cells|)].val == s.log[pc.pos + pc.rd]
    ensures PcOk(s', pc.(rd := pc.rd + 1, out := pc.out + [s.log[pc.pos + pc.rd]]))
  {}

  /** What a thread relies on is the ring alone, not the other threads. */
  lemma SamePc(s: State, s': State, o: Pc)
    requires Cursors(s) && PcOk(s, o) && s' == s.(deliv := s'.deliv, pcs := s'.pcs)
    ensures PcOk(s', o)
  {}

  lemma ReadDeliveries(s: State, t: Tid, pc: Pc)
    requires Inv(s) && t in s.pcs && s.pcs[t] == pc && pc.Take? && PcOk(s, pc) && pc.rd < pc.m
    requires s.cells[Slot(pc.pos + pc.rd, |s.cells|)].val == s.log[pc.pos + pc.rd]
    ensures Deliveries(ReadOne(s, t, pc))
  {
    var s' := ReadOne(s, t, pc);
    var p := pc.pos + pc.rd;
    assert WillRead(pc, p) && OwnsPop(pc, p);
    assert !Listed(s.deliv, p);
    assert s'.deliv[|s.deliv|].0 == p;
    forall k | 0 <= k < |s.deliv| ensures s'.deliv[k] == s.deliv[k] && s.deliv[k].0 != p {}
    forall r | Listed(s.deliv, r) ensures Listed(s'.deliv, r) {
      var k :| 0 <= k < |s.deliv| && s.deliv[k].0 == r;
      assert s'.deliv[k].0 == r;
    }
    forall r | 0 <= r < s'.tail && !Listed(s'.deliv, r) ensures exists u :: u in s'.pcs && WillRead(s'.pcs[u], r) {
      assert !Listed(s.deliv, r);
      var u :| u in s.pcs && WillRead(s.pcs[u], r);
      assert WillRead(s'.pcs[u], r);
    }
    forall u, r | u in s'.pcs && WillRead(s'.pcs[u], r) ensures !Listed(s'.deliv, r) {
      assert WillRead(s.pcs[u], r) && OwnsPop(s.pcs[u], r);
      assert !Listed(s.deliv, r);
      assert u != t ==> !Owns(s.pcs[u], p);
    }
  }

  lemma RecycleStep(s: State, t: Tid, pc: Pc)
    requires Inv(s) && t in s.pcs && s.pcs[t] == pc && pc.Take? && !ReadsNext(s.light, pc.m, pc.rd, pc.rl)
    ensures Inv(Recycle(s, t, pc))
  {
    var s' := Recycle(s, t, pc);
    assert PcOk(s, pc);
    RecycleCells(s, t, pc);
    RecycleThreads(s, t, pc);
    ExclusiveKept(s, s', t);
    DeliveriesKept(s, s', t);
  }

  lemma RecycleCells(s: State, t: Tid, pc: Pc)
    requires Cells(s) && t in s.pcs && s.pcs[t] == pc && pc.Take? && PcOk(s, pc)
    ensures Cells(Recycle(s, t, pc))
  {
    var s' := Recycle(s, t, pc);
    var cap, p := |s.cells|, pc.pos + pc.rl;
    assert SeqAt(s.cells, p) == p + 1;
    PublishedIsFull(s, p);
    SlotNext(p, cap);
    OtherCells(s, s', t, p);
    assert FreeAt(s', Slot(p, cap), p + cap);
  }

  lemma RecycleThreads(s: State, t: Tid, pc: Pc)
    requires Inv(s) && t in s.pcs && s.pcs[t] == pc && pc.Take? && !ReadsNext(s.light, pc.m, pc.rd, pc.rl)
    ensures Threads(Recycle(s, t, pc))
  {
    var s' := Recycle(s, t, pc);
    var p := pc.pos + pc.rl;
    assert PcOk(s, pc) && OwnsPop(pc, p);
    assert SeqAt(s.cells, p) == p + 1;
    if pc.rl + 1 < pc.m { RecycleSelf(s, s', pc); }
    forall u | u in s'.pcs ensures PcOk(s', s'.pcs[u]) {
      if u != t { RecyclePeer(s, s', p, s.pcs[u]); }
    }
  }

  lemma RecycleSelf(s: State, s': State, pc: Pc)
    requires Cursors(s) && Cursors(s') && pc.Take? && PcOk(s, pc) && !ReadsNext(s.light, pc.m, pc.rd, pc.rl)
      && pc.rl + 1 < pc.m
    requires s' == s.(cells := s'.cells, pcs := s'.pcs)
    requires var p := pc.pos + pc.rl; var i := Slot(p, |s.cells|);
             s'.cells == s.cells[i := s.cells[i].(seqno := p + |s.cells|)]
    ensures PcOk(s', pc.(rl := pc.rl + 1))
  {
    var p := pc.pos + pc.rl;
    assert SeqAt(s.cells, p) == p + 1;
    forall j: nat | SeqAt(s.cells, j) == j + 1 && j != p ensures SeqAt(s'.cells, j) == j + 1 {}
  }

  /** Recycling p's cell does not disturb a thread that does not own p. */
  lemma RecyclePeer(s: State, s': State, p: nat, o: Pc)
    requires Cursors(s) && Cursors(s') && PcOk(s, o) && !Owns(o, p)
    requires s' == s.(cells := s'.cells, pcs := s'.pcs) && SeqAt(s.cells, p) == p + 1 && p < s.tail
    requires s'.cells == s.cells[Slot(p, |s.cells|) := s.cells[Slot(p, |s.cells|)].(seqno := p + |s.cells|)]
    ensures PcOk(s', o)
  {
    SlotDiffers(p, |s.cells|);
    forall j: nat | SeqAt(s.cells, j) == j + 1 && j != p ensures SeqAt(s'.cells, j) == j + 1 {}
  }

  // ------------------------------------------------------------ whole system

  /** The scan may only extend its claim over published positions. */
  lemma SeenPublished(s: State, p: nat)
    requires Cells(s) && SeqAt(s.cells, p) == p + 1
    ensures p < s.head
  {
    assert CellOk(s, Slot(p, |s.cells|));
    SlotDiffers(p, |s.cells|);
  }

  lemma AfterOk(s: State, pc: Pc)
    requires Cells(s) && PcOk(s, pc)
    ensures PcOk(s, After(s, pc)) && !Owner(After(s, pc))
  {
    if pc.BulkScan? && SeqAt(s.cells, pc.pos + pc.m) == pc.pos + pc.m + 1 {
      SeenPublished(s, pc.pos + pc.m);
    }
    if pc.PopSeq? && SeqAt(s.cells, pc.pos) == pc.pos + 1 {
      SeenPublished(s, pc.pos);
    }
  }

  lemma StepKeepsInv(s: State, t: Tid)
    requires Inv(s) && t in s.pcs
    ensures Inv(Step(s, t))
  {
    var pc := s.pcs[t];
    assert PcOk(s, pc);
    AfterOk(s, pc);
    if pc.PushCas? && s.head == pc.pos { WinHeadStep(s, t, pc.v); }
    else if pc.PushVal? { StoreValStep(s, t, pc.v, pc.pos); }
    else if pc.PushRel? { PublishStep(s, t, pc.v, pc.pos); }
    else if pc.PopCas? && s.tail == pc.pos { ClaimStep(s, t, 1); }
    else if pc.BulkCas? && s.tail == pc.pos { ClaimStep(s, t, pc.m); }
    else if !pc.Take? { LocalStep(s, t, After(s, pc)); }
    else if ReadsNext(s.light, pc.m, pc.rd, pc.rl) { ReadStep(s, t, pc); }
    else { RecycleStep(s, t, pc); }
  }

  lemma InvokeKeepsInv(s: State, t: Tid, op: Op)
    requires Inv(s) && CanInvoke(s, t)
    ensures Inv(Invoke(s, t, op))
  {
    LocalStep(s, t, EntryPc(op));
  }

  lemma InitInv(light: bool, cap: nat)
    requires 2 <= cap
    ensures Inv(Init(light, cap))
  {
    var s := Init(light, cap);
    forall i | 0 <= i < cap ensures CellOk(s, i) {
      assert Slot(i, cap) == i;
      assert FreeAt(s, i, i);
    }
  }
}
