/**
  Task bodies as memory transformers, and the order-independence of race-free
  graphs.  Values are opaque: a task's effect is an arbitrary function of the
  locations it reads, so an accumulating tile (y += dot) is a task that reads
  and writes y.
 */
module SerialExec {
  import opened TaskGraph

  type Loc = nat
  type Val(==,!new)
  type Mem = map<Loc, Val>

  /** What every task reads and writes, and the value it stores at each location it writes. */
  datatype Work = Work(ins: seq<set<Loc>>, outs: seq<set<Loc>>, eff: (nat, Loc, Mem) -> Val)

  predicate WorkFits(g: Graph, k: Work) { |k.ins| == |g| == |k.outs| }

  /** The part of memory a starting task reads. */
  function Snapshot(k: Work, m: Mem, t: nat): Mem
    requires t < |k.ins|
  {
    map l | l in k.ins[t] && l in m :: m[l]
  }

  /** A finishing task stores its results. */
  function Store(k: Work, m: Mem, t: nat, snap: Mem): Mem
    requires t < |k.outs|
  {
    m + (map l | l in k.outs[t] :: k.eff(t, l, snap))
  }

  function Exec1(k: Work, m: Mem, t: nat): Mem
    requires t < |k.ins| == |k.outs|
  {
    Store(k, m, t, Snapshot(k, m, t))
  }

  predicate AllTasks(k: Work, order: seq<nat>) {
    |k.ins| == |k.outs| && forall i :: 0 <= i < |order| ==> order[i] < |k.ins|
  }

  /** Run the tasks of order one after another. */
  function Exec(k: Work, m: Mem, order: seq<nat>): Mem
    requires AllTasks(k, order)
    decreases |order|
  {
    if order == [] then m else Exec(k, Exec1(k, m, order[0]), order[1..])
  }

  /** Neither writes what the other reads or writes. */
  predicate Independent(k: Work, t: nat, u: nat)
    requires t < |k.ins| == |k.outs| && u < |k.ins|
  {
    && k.outs[t] !! k.ins[u] && k.outs[t] !! k.outs[u] && k.outs[u] !! k.ins[t]
  }

  /** Tasks the edges leave unordered do not conflict. */
  ghost predicate RaceFree(g: Graph, k: Work) {
    WorkFits(g, k)
    && forall t, u :: 0 <= t < |g| && 0 <= u < |g| && t != u && !Before(g, t, u) && !Before(g, u, t) ==>
        Independent(k, t, u)
  }

  lemma {:induction false} ExecAppend(k: Work, m: Mem, a: seq<nat>, b: seq<nat>)
    requires AllTasks(k, a) && AllTasks(k, b)
    ensures AllTasks(k, a + b) && Exec(k, m, a + b) == Exec(k, Exec(k, m, a), b)
    decreases |a|
  {
    if a == [] {
      assert a + b == b;
    } else {
      assert (a + b)[1..] == a[1..] + b;
      ExecAppend(k, Exec1(k, m, a[0]), a[1..], b);
    }
  }

  lemma SnapshotUnaffected(k: Work, m: Mem, t: nat, u: nat, snap: Mem)
    requires t < |k.ins| == |k.outs| && u < |k.ins| && k.outs[u] !! k.ins[t]
    ensures Snapshot(k, Store(k, m, u, snap), t) == Snapshot(k, m, t)
  {}

  lemma Commute(k: Work, m: Mem, t: nat, u: nat)
    requires t < |k.ins| == |k.outs| && u < |k.ins| && Independent(k, t, u)
    ensures Exec1(k, Exec1(k, m, t), u) == Exec1(k, Exec1(k, m, u), t)
  {
    SnapshotUnaffected(k, m, u, t, Snapshot(k, m, t));
    SnapshotUnaffected(k, m, t, u, Snapshot(k, m, u));
  }

  /** A task independent of everything run before it could have run first. */
  lemma {:induction false} MoveToFront(k: Work, m: Mem, a: seq<nat>, t: nat)
    requires AllTasks(k, a) && t < |k.ins|
    requires forall x :: x in a ==> x < |k.ins| && Independent(k, t, x)
    ensures AllTasks(k, a + [t]) && AllTasks(k, [t] + a) && Exec(k, m, a + [t]) == Exec(k, m, [t] + a)
    decreases |a|
  {
    if a == [] {
      assert a + [t] == [t] + a;
    } else {
      var x, r := a[0], a[1..];
      assert x in a;
      assert (a + [t])[1..] == r + [t];
      assert (a + [t])[|a|] == t;
      MoveToFront(k, Exec1(k, m, x), r, t);
      Commute(k, m, t, x);
      assert ([t] + a)[1..] == a;
      assert ([t] + r)[1..] == r;
    }
  }

  /** The task at position j of b, independent of all before it, could have run first. */
  lemma PullOut(k: Work, m: Mem, b: seq<nat>, j: nat)
    requires AllTasks(k, b) && j < |b|
    requires forall x :: x in b[..j] ==> x < |k.ins| && Independent(k, b[j], x)
    ensures var r := b[..j] + b[j + 1..]; AllTasks(k, r) && Exec(k, m, b) == Exec(k, Exec1(k, m, b[j]), r)
  {
    var pre, t, post := b[..j], b[j], b[j + 1..];
    assert b == (pre + [t]) + post;
    MoveToFront(k, m, pre, t);
    ExecAppend(k, m, pre + [t], post);
    ExecAppend(k, m, [t] + pre, post);
    assert ([t] + pre) + post == [t] + (pre + post);
    assert ([t] + (pre + post))[1..] == pre + post;
  }

  /** Two orders of the same tasks that both respect the edges leave the same memory. */
  lemma {:induction false} OrdersAgree(g: Graph, k: Work, m: Mem, a: seq<nat>, b: seq<nat>)
    requires RaceFree(g, k) && AllTasks(k, a) && AllTasks(k, b)
    requires Respects(g, a) && Respects(g, b)
    requires |a| == |b| && forall t :: t in a <==> t in b
    ensures Exec(k, m, a) == Exec(k, m, b)
    decreases |a|
  {
    if a != [] {
      assert a[0] in b;
      var j :| 0 <= j < |b| && b[j] == a[0];
      PrefixIndependent(g, k, a, b, j);
      PullOut(k, m, b, j);
      RestAgrees(g, a, b, j);
      OrdersAgree(g, k, Exec1(k, m, a[0]), a[1..], b[..j] + b[j + 1..]);
    }
  }

  lemma PrefixIndependent(g: Graph, k: Work, a: seq<nat>, b: seq<nat>, j: nat)
    requires RaceFree(g, k) && AllTasks(k, a) && AllTasks(k, b)
    requires Respects(g, a) && Respects(g, b) && a != [] && j < |b| && b[j] == a[0]
    requires forall t :: t in a <==> t in b
    ensures forall x :: x in b[..j] ==> x < |k.ins| && Independent(k, a[0], x)
  {
    forall x | x in b[..j] ensures x < |k.ins| && Independent(k, a[0], x) {
      var i :| 0 <= i < j && b[i] == x;
      assert x in b && x in a;
      var h :| 0 <= h < |a| && a[h] == x;
      assert !Before(g, b[j], b[i]);
      assert !Before(g, a[h], a[0]);
    }
  }

  lemma RestAgrees(g: Graph, a: seq<nat>, b: seq<nat>, j: nat)
    requires Respects(g, a) && Respects(g, b) && a != [] && j < |b| && b[j] == a[0]
    requires forall t :: t in a <==> t in b
    ensures Respects(g, a[1..]) && Respects(g, b[..j] + b[j + 1..])
    ensures forall t :: t in a[1..] <==> t in b[..j] + b[j + 1..]
  {
    var r := b[..j] + b[j + 1..];
    forall x, y | 0 <= x < y < |r| ensures r[x] != r[y] && !Before(g, r[y], r[x]) {
      var x', y' := if x < j then x else x + 1, if y < j then y else y + 1;
      assert r[x] == b[x'] && r[y] == b[y'];
    }
    forall t: nat ensures t in a[1..] <==> t in r {
      if t in a[1..] {
        assert t in a && t in b && t != a[0];
      }
      if t in r {
        assert t in b && t in a && t != a[0];
      }
    }
  }

  lemma TopologicalFits(g: Graph, k: Work, a: seq<nat>)
    requires WorkFits(g, k) && Topological(g, a)
    ensures AllTasks(k, a)
  {
    forall i | 0 <= i < |a| ensures a[i] < |k.ins| { assert a[i] in a; }
  }

  /** Any two topological orders of a race-free graph compute the same memory. */
  lemma TopologicalOrdersAgree(g: Graph, k: Work, m: Mem, a: seq<nat>, b: seq<nat>)
    requires RaceFree(g, k) && Topological(g, a) && Topological(g, b)
    ensures AllTasks(k, a) && AllTasks(k, b) && Exec(k, m, a) == Exec(k, m, b)
  {
    TopologicalFits(g, k, a);
    TopologicalFits(g, k, b);
    TopologicalSize(g, a);
    TopologicalSize(g, b);
    LinearRespects(g, a);
    LinearRespects(g, b);
    OrdersAgree(g, k, m, a, b);
  }
}
