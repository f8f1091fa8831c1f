/**
  The memory a run leaves, read off the order of its tasks: every location holds what the last task
  that writes it computed from the values its inputs had at that time, or its start value.
 */
module RunMemory {
  import opened SerialExec

  datatype Content = Nothing | Holds(v: Val)

  /** Task order[i] is the last of the order to write l. */
  predicate LastWriter(k: Work, order: seq<nat>, l: Loc, i: nat)
    requires AllTasks(k, order)
  {
    i < |order| && l in k.outs[order[i]] && forall j {:trigger order[j]} :: i < j < |order| ==> l !in k.outs[order[j]]
  }

  predicate Unwritten(k: Work, order: seq<nat>, l: Loc)
    requires AllTasks(k, order)
  {
    forall j :: 0 <= j < |order| ==> l !in k.outs[order[j]]
  }

  /** The position of the last writer, or -1. */
  function Last(k: Work, order: seq<nat>, l: Loc): (i: int)
    requires AllTasks(k, order)
    ensures -1 <= i < |order| && (if i < 0 then Unwritten(k, order, l) else LastWriter(k, order, l, i))
    decreases |order|
  {
    var n := |order| - 1;
    if order == [] || l in k.outs[order[n]] then n else Last(k, order[..n], l)
  }

  /** What l holds once the tasks of order have run from m0. */
  ghost function Left(k: Work, m0: Mem, order: seq<nat>, l: Loc): Content
    requires AllTasks(k, order)
    decreases |order|
  {
    var i := Last(k, order, l);
    if i >= 0 then
      Holds(k.eff(order[i], l,
                  map j | j in k.ins[order[i]] && Left(k, m0, order[..i], j).Holds? :: Left(k, m0, order[..i], j).v))
    else if l in m0 then Holds(m0[l])
    else Nothing
  }

  /** m is the memory that the tasks of order, run one after another from m0, leave. */
  ghost predicate Leaves(k: Work, m0: Mem, order: seq<nat>, m: Mem)
    requires AllTasks(k, order)
  {
    forall l :: if l in m then Left(k, m0, order, l) == Holds(m[l]) else Left(k, m0, order, l) == Nothing
  }

  lemma LastIsUnique(k: Work, order: seq<nat>, l: Loc, i: nat, j: nat)
    requires AllTasks(k, order) && LastWriter(k, order, l, i) && LastWriter(k, order, l, j)
    ensures i == j
  {}

  /** What task t, run after the tasks of pre, reads. */
  ghost function Inputs(k: Work, m0: Mem, pre: seq<nat>, t: nat): Mem
    requires AllTasks(k, pre) && t < |k.ins|
  {
    map j | j in k.ins[t] && Left(k, m0, pre, j).Holds? :: Left(k, m0, pre, j).v
  }

  /** The last writer decides. */
  lemma LeftWritten(k: Work, m0: Mem, order: seq<nat>, l: Loc, i: nat)
    requires AllTasks(k, order) && LastWriter(k, order, l, i)
    ensures Left(k, m0, order, l) == Holds(k.eff(order[i], l, Inputs(k, m0, order[..i], order[i])))
  {
    LastIsUnique(k, order, l, i, Last(k, order, l));
  }

  /** A task that does not write l leaves it alone. */
  lemma LeftUnwritten(k: Work, m0: Mem, pre: seq<nat>, t: nat, l: Loc)
    requires AllTasks(k, pre) && t < |k.ins| && l !in k.outs[t]
    ensures AllTasks(k, pre + [t]) && Left(k, m0, pre + [t], l) == Left(k, m0, pre, l)
  {
    var order := pre + [t];
    var i := Last(k, pre, l);
    assert order[..|pre|] == pre && Last(k, order, l) == i;
    if i >= 0 {
      assert order[i] == pre[i] && order[..i] == pre[..i];
      LeftWritten(k, m0, order, l, i);
      LeftWritten(k, m0, pre, l, i);
    }
  }

  lemma LeavesNext(k: Work, m0: Mem, pre: seq<nat>, t: nat, m: Mem)
    requires AllTasks(k, pre) && t < |k.ins| && Leaves(k, m0, pre, m)
    ensures AllTasks(k, pre + [t]) && Leaves(k, m0, pre + [t], Exec1(k, m, t))
  {
    var order := pre + [t];
    assert order[..|pre|] == pre;
    assert Inputs(k, m0, pre, t) == Snapshot(k, m, t);
    forall l: Loc ensures Left(k, m0, order, l) == if l in Exec1(k, m, t) then Holds(Exec1(k, m, t)[l]) else Nothing {
      if l in k.outs[t] {
        assert LastWriter(k, order, l, |pre|);
        LeftWritten(k, m0, order, l, |pre|);
      } else {
        LeftUnwritten(k, m0, pre, t, l);
      }
    }
  }

  /** A run leaves what its last writers computed, and the start value where nobody wrote. */
  lemma {:induction false} RunLeaves(k: Work, m0: Mem, order: seq<nat>)
    requires AllTasks(k, order)
    ensures Leaves(k, m0, order, Exec(k, m0, order))
    decreases |order|
  {
    if order != [] {
      var n := |order| - 1;
      var pre, t := order[..n], order[n];
      RunLeaves(k, m0, pre);
      ExecAppend(k, m0, pre, [t]);
      assert Exec(k, Exec(k, m0, pre), [t]) == Exec1(k, Exec(k, m0, pre), t);
      assert order == pre + [t];
      LeavesNext(k, m0, pre, t, Exec(k, m0, pre));
    }
  }

  // -------------------------------------------------------- accumulating tiles

  /** Whoever writes y adds to it: what it adds depends on its other inputs only. */
  ghost predicate Accumulates(k: Work, y: Loc, plus: (Val, Val) -> Val, inc: (nat, Mem) -> Val) {
    && |k.ins| == |k.outs|
    && forall t: nat :: t < |k.outs| && y in k.outs[t] ==>
         y in k.ins[t] && forall snap: Mem :: y in snap ==> k.eff(t, y, snap) == plus(snap[y], inc(t, snap - {y}))
  }

  /** y0 plus what the writers of y add, in their order. */
  ghost function Total(k: Work, m0: Mem, order: seq<nat>, y: Loc, plus: (Val, Val) -> Val, inc: (nat, Mem) -> Val): Val
    requires AllTasks(k, order) && y in m0
    decreases |order|
  {
    if order == [] then m0[y]
    else
      var n := |order| - 1;
      var t, before := order[n], Total(k, m0, order[..n], y, plus, inc);
      if y in k.outs[t] then plus(before, inc(t, Inputs(k, m0, order[..n], t) - {y})) else before
  }

  /** However many tiles add to y, it ends as the sum of all they add and of its start value. */
  lemma {:induction false} TilesAddUp(k: Work, m0: Mem, order: seq<nat>, y: Loc,
                                      plus: (Val, Val) -> Val, inc: (nat, Mem) -> Val)
    requires AllTasks(k, order) && y in m0 && Accumulates(k, y, plus, inc)
    ensures var m := Exec(k, m0, order); y in m && m[y] == Total(k, m0, order, y, plus, inc)
    ensures Left(k, m0, order, y) == Holds(Total(k, m0, order, y, plus, inc))
    decreases |order|
  {
    RunLeaves(k, m0, order);
    if order != [] {
      var n := |order| - 1;
      var pre, t := order[..n], order[n];
      TilesAddUp(k, m0, pre, y, plus, inc);
      assert order == pre + [t];
      if y in k.outs[t] {
        assert LastWriter(k, order, y, n);
        LeftWritten(k, m0, order, y, n);
        var snap := Inputs(k, m0, pre, t);
        assert y in snap && k.eff(t, y, snap) == plus(snap[y], inc(t, snap - {y}));
      } else {
        LeftUnwritten(k, m0, pre, t, y);
      }
    }
  }

  /** The order runs t before u, and no other task writes y. */
  predicate OnlyTwo(k: Work, order: seq<nat>, y: Loc, i: nat, j: nat)
    requires AllTasks(k, order)
  {
    && i < j < |order| && y in k.outs[order[i]] && y in k.outs[order[j]]
    && forall h :: 0 <= h < |order| && h != i && h != j ==> y !in k.outs[order[h]]
  }

  /** Two tiles that add a and then b leave y0 + a + b. */
  lemma TwoTiles(k: Work, m0: Mem, order: seq<nat>, i: nat, j: nat, y: Loc, plus: (Val, Val) -> Val, a: Val, b: Val)
    requires AllTasks(k, order) && y in m0 && OnlyTwo(k, order, y, i, j)
    requires y in k.ins[order[i]] && y in k.ins[order[j]]
    requires forall snap: Mem :: y in snap ==> k.eff(order[i], y, snap) == plus(snap[y], a)
    requires forall snap: Mem :: y in snap ==> k.eff(order[j], y, snap) == plus(snap[y], b)
    ensures var m := Exec(k, m0, order); y in m && m[y] == plus(plus(m0[y], a), b)
  {
    RunLeaves(k, m0, order);
    assert LastWriter(k, order, y, j) && LastWriter(k, order[..j], y, i);
    LeftWritten(k, m0, order, y, j);
    LeftWritten(k, m0, order[..j], y, i);
    assert order[..j][..i] == order[..i];
    assert Unwritten(k, order[..i], y);
    assert Left(k, m0, order[..i], y) == Holds(m0[y]);
  }
}
