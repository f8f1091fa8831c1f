/**
  Lazily grown relay trees that keep every task under the fan-out cap
  (src/model/decoder.cpp: dep_edge, fan_in, raw_signal).
 */
module GraphBuilder {
  import opened TaskTypes
  import opened TaskGraph

  /** What a node was created for; a history variable. */
  datatype Role = Real(kind: TaskKind) | Trunk(p: nat) | Leaf(p: nat)

  /** The task kind of a node; relays are signals. */
  function KindOf(r: Role): TaskKind { if r.Real? then r.kind else SIGNAL }

  datatype Port = Port(trunk: nat, trunkUsed: nat, leaf: nat, leafUsed: nat)

  /** `req` records the requested edges in order, over the same node ids. */
  datatype Build = Build(g: Graph, ports: map<nat, Port>, role: seq<Role>, req: Graph)

  function Empty(): Build { Build([], map[], [], []) }

  function AddNode(b: Build, r: Role): Build {
    b.(g := b.g + [[]], role := b.role + [r], req := b.req + [[]])
  }

  function Connect(b: Build, a: nat, c: nat): Build
    requires a < |b.g|
  {
    b.(g := b.g[a := b.g[a] + [c]])
  }

  function Requested(b: Build, p: nat, c: nat): Build
    requires p < |b.req|
  {
    b.(req := b.req[p := b.req[p] + [c]])
  }

  // ------------------------------------------------- the parts of dep_edge

  /** A new relay below node a. */
  function Sprout(b: Build, a: nat, r: Role): Build
    requires a < |b.g|
  {
    Connect(AddNode(b, r), a, |b.g|)
  }

  function WithPort(b: Build, p: nat, po: Port): Build { b.(ports := b.ports[p := po]) }

  /** A first trunk in the reserved slot; it has no leaf yet, as if the last one were full. */
  function FirstTrunk(b: Build, p: nat): Build
    requires p < |b.g|
  {
    WithPort(Sprout(b, p, Trunk(p)), p, Port(|b.g|, 0, |b.g|, MAX_CONSUMERS))
  }

  /** A further trunk, chained to the last one. */
  function NewTrunk(b: Build, p: nat): Build
    requires p in b.ports && b.ports[p].trunk < |b.g|
  {
    var po := b.ports[p];
    WithPort(Sprout(b, po.trunk, Trunk(p)), p, po.(trunk := |b.g|, trunkUsed := 0))
  }

  function NewLeaf(b: Build, p: nat): Build
    requires p in b.ports && b.ports[p].trunk < |b.g|
  {
    var po := b.ports[p];
    WithPort(Sprout(b, po.trunk, Leaf(p)), p, po.(leaf := |b.g|, trunkUsed := po.trunkUsed + 1, leafUsed := 0))
  }

  function NewPort(b: Build, p: nat): Build
    requires p < |b.g|
  {
    NewLeaf(FirstTrunk(b, p), p)
  }

  function Deliver(b: Build, p: nat, c: nat): Build
    requires p in b.ports && b.ports[p].leaf < |b.g|
  {
    var po := b.ports[p];
    Connect(b, po.leaf, c).(ports := b.ports[p := po.(leafUsed := po.leafUsed + 1)])
  }

  // --------------------------------------------------------------- structure

  predicate IsReal(b: Build, x: nat) { x < |b.role| && b.role[x].Real? }

  predicate IsRelay(b: Build, x: nat) { x < |b.role| && !b.role[x].Real? }

  /** The real task a node stands for: itself, or the producer it relays. */
  function Source(b: Build, x: nat): nat {
    if x < |b.role| && !b.role[x].Real? then b.role[x].p else x
  }

  /** An edge goes to a younger relay of the same source, or delivers a request. */
  predicate ArcOk(b: Build, a: nat, x: nat) {
    && a < |b.role| && x < |b.role|
    && (IsRelay(b, x) ==> Source(b, x) == Source(b, a) && (IsRelay(b, a) ==> a < x))
    && (IsReal(b, x) ==> Arc(b.req, Source(b, a), x))
  }

  ghost predicate ArcsOk(b: Build) {
    forall a: nat, x: nat {:trigger Arc(b.g, a, x)} :: Arc(b.g, a, x) ==> ArcOk(b, a, x)
  }

  /** Every relay stands for a real task. */
  ghost predicate Sourced(role: seq<Role>) {
    forall x :: 0 <= x < |role| && !role[x].Real? ==> Exists(role, role[x].p)
  }

  predicate Exists(role: seq<Role>, p: nat) { p < |role| && role[p].Real? }

  /** Requests join real tasks, and relays stand for real tasks. */
  ghost predicate ReqOk(b: Build) {
    && |b.g| == |b.role| == |b.req|
    && (forall p: nat, c: nat {:trigger Arc(b.req, p, c)} :: Arc(b.req, p, c) ==> IsReal(b, p) && IsReal(b, c))
    && Sourced(b.role)
    && (forall p: nat :: p in b.ports ==> IsReal(b, p))
  }

  /** Every request is served by a path. */
  ghost predicate Served(b: Build) {
    forall p: nat, c: nat {:trigger Arc(b.req, p, c)} :: Arc(b.req, p, c) ==> Before(b.g, p, c)
  }

  ghost predicate FanOutOk(b: Build) { forall x: nat :: x < |b.g| ==> |b.g[x]| <= MAX_CONSUMERS }

  ghost function Trunks(b: Build, p: nat): set<nat> { set x: nat | x < |b.role| && b.role[x] == Trunk(p) }

  ghost function Leaves(b: Build, p: nat): set<nat> { set x: nat | x < |b.role| && b.role[x] == Leaf(p) }

  const DIRECT := MAX_CONSUMERS - 1

  /** The tree below a producer whose direct slots are used up. */
  ghost predicate PortOk(b: Build, p: nat)
    requires p in b.ports && p < |b.g|
  {
    var po := b.ports[p];
    && po.trunk < |b.g| && po.leaf < |b.g| && |b.g| == |b.role| == |b.req|
    && b.role[po.trunk] == Trunk(p) && b.role[po.leaf] == Leaf(p)
    && Before(b.g, p, po.trunk) && Before(b.g, p, po.leaf)
    && |b.g[p]| == MAX_CONSUMERS
    && |b.g[po.trunk]| == po.trunkUsed <= DIRECT
    && |b.g[po.leaf]| == po.leafUsed <= MAX_CONSUMERS
    && 1 <= |Trunks(b, p)| && 1 <= |Leaves(b, p)|
    && |Leaves(b, p)| == DIRECT * (|Trunks(b, p)| - 1) + po.trunkUsed
    && |b.req[p]| == DIRECT + MAX_CONSUMERS * (|Leaves(b, p)| - 1) + po.leafUsed
  }

  ghost predicate DirectOk(b: Build, p: nat)
    requires p < |b.g| == |b.req|
  {
    |b.g[p]| == |b.req[p]| <= DIRECT && Trunks(b, p) == {} && Leaves(b, p) == {}
  }

  ghost predicate TreeOk(b: Build, p: nat)
    requires p < |b.g| == |b.req|
  {
    if p in b.ports then PortOk(b, p) else DirectOk(b, p)
  }

  ghost predicate TreesOk(b: Build)
    requires |b.g| == |b.req|
  {
    forall p: nat {:trigger TreeOk(b, p)} :: p < |b.g| && IsReal(b, p) ==> TreeOk(b, p)
  }

  /** Holds between any two parts of dep_edge. */
  ghost predicate Core(b: Build) {
    WellFormed(b.g) && ReqOk(b) && ArcsOk(b) && Served(b) && FanOutOk(b) && TreesOk(b)
  }

  /** The last leaf and the last trunk of every port are in use. */
  ghost predicate Settled(b: Build) {
    forall p: nat :: p in b.ports ==> 1 <= b.ports[p].trunkUsed && 1 <= b.ports[p].leafUsed
  }

  ghost predicate Inv(b: Build) { Core(b) && Settled(b) }

  // ---------------------------------------------------------------- dep_edge

  /** A leaf with a free slot, grown if need be. */
  function Grown(b: Build, p: nat): Build
    requires p < |b.g| && (p in b.ports ==> b.ports[p].trunk < |b.g|)
  {
    if p !in b.ports then NewPort(b, p)
    else if b.ports[p].leafUsed < MAX_CONSUMERS then b
    else NewLeaf(if b.ports[p].trunkUsed >= DIRECT then NewTrunk(b, p) else b, p)
  }

  function DepEdge(b: Build, p: nat, c: nat): Build
    requires p < |b.g| == |b.req| && (p in b.ports ==> b.ports[p].trunk < |b.g| && b.ports[p].leaf < |b.g|)
  {
    if |b.g[p]| < DIRECT then Requested(Connect(b, p, c), p, c)
    else Requested(Deliver(Grown(b, p), p, c), p, c)
  }

  // ------------------------------------------------------------- monotonicity

  ghost predicate Extends(g: Graph, g': Graph) {
    forall a: nat, x: nat {:trigger Arc(g, a, x)} :: Arc(g, a, x) ==> Arc(g', a, x)
  }

  lemma {:induction false} WalkExtends(g: Graph, g': Graph, a: nat, b: nat, len: nat)
    requires Extends(g, g') && Walk(g, a, b, len)
    ensures Walk(g', a, b, len)
    decreases len
  {
    var m :| Arc(g, a, m) && (if len == 1 then m == b else Walk(g, m, b, len - 1));
    if len > 1 { WalkExtends(g, g', m, b, len - 1); }
    assert Arc(g', a, m);
  }

  lemma BeforeExtends(g: Graph, g': Graph, a: nat, b: nat)
    requires Extends(g, g') && Before(g, a, b)
    ensures Before(g', a, b)
  {
    var len :| Walk(g, a, b, len);
    WalkExtends(g, g', a, b, len);
  }

  /** The arcs of a graph after one connection. */
  lemma ConnectArcs(g: Graph, a: nat, x: nat, g': Graph)
    requires a < |g| && g' == g[a := g[a] + [x]]
    ensures Extends(g, g') && Arc(g', a, x)
    ensures forall y: nat, z: nat {:trigger Arc(g', y, z)} :: Arc(g', y, z) ==> Arc(g, y, z) || (y == a && z == x)
  {
    forall y: nat, z: nat | Arc(g, y, z) ensures Arc(g', y, z) {
      if y == a { var k :| 0 <= k < |g[a]| && g[a][k] == z; assert g'[a][k] == z; }
    }
    assert g'[a][|g[a]|] == x;
  }

  lemma NodeArcs(g: Graph, g': Graph)
    requires g' == g + [[]]
    ensures Extends(g, g')
    ensures forall y: nat, z: nat {:trigger Arc(g', y, z)} :: Arc(g', y, z) ==> Arc(g, y, z)
  {}

  // ------------------------------------------------------------ preservation

  /** The core with producer p's own tree under construction. */
  ghost predicate Frame(b: Build, p: nat) {
    && WellFormed(b.g) && ReqOk(b) && ArcsOk(b) && Served(b) && FanOutOk(b)
    && p < |b.g| && IsReal(b, p)
    && (forall q: nat {:trigger TreeOk(b, q)} :: q < |b.g| && IsReal(b, q) && q != p ==> TreeOk(b, q))
  }

  /** Nothing that belongs to producer q's tree changed. */
  ghost predicate SameTree(b: Build, b': Build, q: nat) {
    && |b.g| == |b.role| == |b.req| && |b'.g| == |b'.role| == |b'.req| && q < |b.g| <= |b'.g|
    && Extends(b.g, b'.g)
    && (q in b'.ports <==> q in b.ports) && (q in b.ports ==> b'.ports[q] == b.ports[q])
    && b'.g[q] == b.g[q] && b'.req[q] == b.req[q]
    && Trunks(b', q) == Trunks(b, q) && Leaves(b', q) == Leaves(b, q)
    && (q in b.ports && b.ports[q].trunk < |b.g| && b.ports[q].leaf < |b.g| ==>
          var po := b.ports[q];
          && b'.g[po.trunk] == b.g[po.trunk] && b'.g[po.leaf] == b.g[po.leaf]
          && b'.role[po.trunk] == b.role[po.trunk] && b'.role[po.leaf] == b.role[po.leaf])
  }

  lemma TreeStays(b: Build, b': Build, q: nat)
    requires SameTree(b, b', q) && TreeOk(b, q)
    ensures TreeOk(b', q)
  {
    if q in b.ports {
      BeforeExtends(b.g, b'.g, q, b.ports[q].trunk);
      BeforeExtends(b.g, b'.g, q, b.ports[q].leaf);
    }
  }

  lemma ServedStays(b: Build, b': Build)
    requires Served(b) && Extends(b.g, b'.g) && forall p: nat, c: nat :: Arc(b'.req, p, c) ==> Arc(b.req, p, c)
    ensures Served(b')
  {
    forall p: nat, c: nat | Arc(b'.req, p, c) ensures Before(b'.g, p, c) { BeforeExtends(b.g, b'.g, p, c); }
  }

  // ------------------------------------------------------------ a new node

  lemma AddNodeArcs(b: Build, r: Role)
    requires WellFormed(b.g) && ReqOk(b) && ArcsOk(b) && Served(b) && FanOutOk(b)
    requires !r.Real? ==> IsReal(b, r.p)
    ensures var b' := AddNode(b, r); WellFormed(b'.g) && ReqOk(b') && ArcsOk(b') && Served(b') && FanOutOk(b')
  {
    var b' := AddNode(b, r);
    NodeArcs(b.g, b'.g);
    NodeArcs(b.req, b'.req);
    forall a: nat, x: nat | Arc(b'.g, a, x) ensures ArcOk(b', a, x) { assert ArcOk(b, a, x); }
    forall p: nat, k: nat | p < |b'.g| && k < |b'.g[p]| ensures b'.g[p][k] < |b'.g| { assert p < |b.g|; }
    ServedStays(b, b');
  }

  lemma AddNodeSame(b: Build, r: Role, q: nat)
    requires |b.g| == |b.role| == |b.req| && q < |b.g| && (r.Real? || r.p != q)
    ensures SameTree(b, AddNode(b, r), q)
  {
    NodeArcs(b.g, AddNode(b, r).g);
    assert Trunks(AddNode(b, r), q) == Trunks(b, q);
    assert Leaves(AddNode(b, r), q) == Leaves(b, q);
  }

  /** graph.add / raw_signal: a real task with no edges yet. */
  lemma AddTaskKeeps(b: Build, kind: TaskKind)
    requires Inv(b)
    ensures Inv(AddNode(b, Real(kind)))
  {
    var b' := AddNode(b, Real(kind));
    AddNodeArcs(b, Real(kind));
    var n := |b.g|;
    forall q: nat | q < |b'.g| && IsReal(b', q) ensures TreeOk(b', q) {
      if q < n {
        AddNodeSame(b, Real(kind), q);
        TreeStays(b, b', q);
      } else {
        assert Trunks(b', n) == {} && Leaves(b', n) == {} by {
          forall x: nat | x < |b.role| ensures b.role[x] != Trunk(n) && b.role[x] != Leaf(n) {
            assert !b.role[x].Real? ==> Exists(b.role, b.role[x].p);
          }
        }
      }
    }
  }

  // ---------------------------------------------------------- a new connection

  lemma ConnectKeeps(b: Build, a: nat, x: nat)
    requires WellFormed(b.g) && ReqOk(b) && ArcsOk(b) && Served(b) && FanOutOk(b)
    requires a < |b.g| && x < |b.g| && |b.g[a]| < MAX_CONSUMERS && ArcOk(b, a, x)
    ensures var b' := Connect(b, a, x); WellFormed(b'.g) && ReqOk(b') && ArcsOk(b') && Served(b') && FanOutOk(b')
  {
    var b' := Connect(b, a, x);
    ConnectArcs(b.g, a, x, b'.g);
    forall y: nat, z: nat | Arc(b'.g, y, z) ensures ArcOk(b', y, z) {
      if !(y == a && z == x) { assert ArcOk(b, y, z); }
    }
    forall p: nat, k: nat | p < |b'.g| && k < |b'.g[p]| ensures b'.g[p][k] < |b'.g| {}
    ServedStays(b, b');
  }

  /** Connecting a node of p's own tree leaves the other trees alone. */
  lemma ConnectSame(b: Build, p: nat, a: nat, x: nat, q: nat)
    requires |b.g| == |b.role| == |b.req| && a < |b.g| && q < |b.g| && q != p
    requires IsReal(b, q) && Source(b, a) == p && TreeOk(b, q)
    ensures SameTree(b, Connect(b, a, x), q)
  {
    ConnectArcs(b.g, a, x, Connect(b, a, x).g);
    assert Trunks(Connect(b, a, x), q) == Trunks(b, q);
    assert Leaves(Connect(b, a, x), q) == Leaves(b, q);
  }

  lemma SproutFrame(b: Build, p: nat, a: nat, r: Role)
    requires Frame(b, p) && a < |b.g| && Source(b, a) == p && |b.g[a]| < MAX_CONSUMERS
    requires r == Trunk(p) || r == Leaf(p)
    ensures Frame(Sprout(b, a, r), p)
  {
    var b1 := AddNode(b, r);
    AddNodeArcs(b, r);
    assert ArcOk(b1, a, |b.g|);
    ConnectKeeps(b1, a, |b.g|);
    var b2 := Sprout(b, a, r);
    forall q: nat | q < |b2.g| && IsReal(b2, q) && q != p ensures TreeOk(b2, q) {
      AddNodeSame(b, r, q);
      TreeStays(b, b1, q);
      ConnectSame(b1, p, a, |b.g|, q);
      TreeStays(b1, b2, q);
    }
  }

  /** What sprouting does to p's own tree. */
  ghost predicate Sprouted(b: Build, b': Build, p: nat, a: nat, r: Role) {
    var n := |b.g|;
    && a < n == |b.role| == |b.req| && |b'.g| == |b'.role| == |b'.req| == n + 1
    && b'.g[n] == [] && |b'.g[a]| == |b.g[a]| + 1 && b'.role[n] == r && b'.ports == b.ports
    && (forall x: nat :: x < n ==> b'.role[x] == b.role[x] && b'.req[x] == b.req[x] && (x != a ==> b'.g[x] == b.g[x]))
    && Extends(b.g, b'.g) && Before(b'.g, p, n)
    && |Trunks(b', p)| == |Trunks(b, p)| + (if r.Trunk? then 1 else 0)
    && |Leaves(b', p)| == |Leaves(b, p)| + (if r.Leaf? then 1 else 0)
  }

  lemma SproutReach(b: Build, p: nat, a: nat, r: Role)
    requires Frame(b, p) && a < |b.g| && (a == p || Before(b.g, p, a))
    ensures var b' := Sprout(b, a, r); Extends(b.g, b'.g) && Before(b'.g, p, |b.g|)
  {
    var b1, b' := AddNode(b, r), Sprout(b, a, r);
    var n := |b.g|;
    NodeArcs(b.g, b1.g);
    ConnectArcs(b1.g, a, n, b'.g);
    assert Extends(b.g, b'.g);
    ArcBefore(b'.g, a, n);
    if a != p {
      BeforeExtends(b.g, b'.g, p, a);
      BeforeTransitive(b'.g, p, a, n);
    }
  }

  lemma SproutCount(b: Build, p: nat, a: nat, r: Role)
    requires |b.g| == |b.role| && a < |b.g| && (r == Trunk(p) || r == Leaf(p))
    ensures var b' := Sprout(b, a, r);
            && |Trunks(b', p)| == |Trunks(b, p)| + (if r.Trunk? then 1 else 0)
            && |Leaves(b', p)| == |Leaves(b, p)| + (if r.Leaf? then 1 else 0)
  {
    var b', n := Sprout(b, a, r), |b.g|;
    assert Trunks(b', p) == if r.Trunk? then Trunks(b, p) + {n} else Trunks(b, p);
    assert Leaves(b', p) == if r.Leaf? then Leaves(b, p) + {n} else Leaves(b, p);
  }

  lemma SproutEffect(b: Build, p: nat, a: nat, r: Role)
    requires Frame(b, p) && a < |b.g| && (r == Trunk(p) || r == Leaf(p)) && (a == p || Before(b.g, p, a))
    ensures Sprouted(b, Sprout(b, a, r), p, a, r)
  {
    SproutReach(b, p, a, r);
    SproutCount(b, p, a, r);
  }

  lemma PortFrame(b: Build, p: nat, po: Port)
    requires Frame(b, p)
    ensures Frame(WithPort(b, p, po), p)
  {
    var b' := WithPort(b, p, po);
    forall q: nat | q < |b'.g| && IsReal(b', q) && q != p ensures TreeOk(b', q) {
      assert Trunks(b', q) == Trunks(b, q) && Leaves(b', q) == Leaves(b, q);
      TreeStays(b, b', q);
    }
    forall y: nat, z: nat | Arc(b'.g, y, z) ensures ArcOk(b', y, z) { assert ArcOk(b, y, z); }
  }

  // --------------------------------------------------------------- its parts

  lemma CoreIsFrame(b: Build, p: nat)
    requires Core(b) && p < |b.g| && IsReal(b, p)
    ensures Frame(b, p) && TreeOk(b, p)
  {}

  lemma FrameIsCore(b: Build, p: nat)
    requires Frame(b, p) && TreeOk(b, p)
    ensures Core(b)
  {}

  /** Some leaf with a free slot, every bookkeeping counter in step. */
  ghost predicate HasRoom(b: Build, p: nat) {
    Frame(b, p) && p in b.ports && PortOk(b, p) && b.ports[p].leafUsed < MAX_CONSUMERS && 1 <= b.ports[p].trunkUsed
  }

  lemma PortCounts(b: Build, p: nat, po: Port)
    ensures Trunks(WithPort(b, p, po), p) == Trunks(b, p) && Leaves(WithPort(b, p, po), p) == Leaves(b, p)
  {}

  /** The port between NewTrunk and NewLeaf: the leaf is full, the new trunk still empty. */
  ghost predicate TrunkReady(b: Build, p: nat) {
    && Frame(b, p) && p in b.ports
    && var po := b.ports[p];
    && po.trunk < |b.g| && po.trunk != p && po.trunkUsed < DIRECT
    && b.role[po.trunk] == Trunk(p) && Before(b.g, p, po.trunk)
    && |b.g[p]| == MAX_CONSUMERS && |b.g[po.trunk]| == po.trunkUsed
    && 1 <= |Trunks(b, p)| && |Leaves(b, p)| == DIRECT * (|Trunks(b, p)| - 1) + po.trunkUsed
    && |b.req[p]| == DIRECT + MAX_CONSUMERS * |Leaves(b, p)|
  }

  lemma NewTrunkKeeps(b: Build, p: nat)
    requires Frame(b, p) && p in b.ports && PortOk(b, p) && b.ports[p].leafUsed == MAX_CONSUMERS
      && b.ports[p].trunkUsed == DIRECT
    ensures TrunkReady(NewTrunk(b, p), p)
  {
    var po := b.ports[p];
    SproutFrame(b, p, po.trunk, Trunk(p));
    SproutEffect(b, p, po.trunk, Trunk(p));
    var b1 := Sprout(b, po.trunk, Trunk(p));
    PortFrame(b1, p, po.(trunk := |b.g|, trunkUsed := 0));
    PortCounts(b1, p, po.(trunk := |b.g|, trunkUsed := 0));
  }

  lemma FirstTrunkKeeps(b: Build, p: nat)
    requires Frame(b, p) && DirectOk(b, p) && |b.g[p]| == DIRECT
    ensures TrunkReady(FirstTrunk(b, p), p)
  {
    SproutFrame(b, p, p, Trunk(p));
    SproutEffect(b, p, p, Trunk(p));
    var b1 := Sprout(b, p, Trunk(p));
    PortFrame(b1, p, Port(|b.g|, 0, |b.g|, MAX_CONSUMERS));
    PortCounts(b1, p, Port(|b.g|, 0, |b.g|, MAX_CONSUMERS));
  }

  lemma NewLeafKeeps(b: Build, p: nat)
    requires TrunkReady(b, p)
    ensures HasRoom(NewLeaf(b, p), p)
  {
    var po := b.ports[p];
    SproutFrame(b, p, po.trunk, Leaf(p));
    SproutEffect(b, p, po.trunk, Leaf(p));
    var b1 := Sprout(b, po.trunk, Leaf(p));
    var po' := po.(leaf := |b.g|, trunkUsed := po.trunkUsed + 1, leafUsed := 0);
    BeforeExtends(b.g, b1.g, p, po.trunk);
    PortFrame(b1, p, po');
    PortCounts(b1, p, po');
  }

  lemma GrownKeeps(b: Build, p: nat)
    requires Inv(b) && p < |b.g| && IsReal(b, p) && |b.g[p]| >= DIRECT
    ensures (p in b.ports ==> b.ports[p].trunk < |b.g|) && HasRoom(Grown(b, p), p)
  {
    CoreIsFrame(b, p);
    if p !in b.ports {
      FirstTrunkKeeps(b, p);
      NewLeafKeeps(FirstTrunk(b, p), p);
    } else if b.ports[p].leafUsed >= MAX_CONSUMERS {
      if b.ports[p].trunkUsed >= DIRECT {
        NewTrunkKeeps(b, p);
        NewLeafKeeps(NewTrunk(b, p), p);
      } else {
        NewLeafKeeps(b, p);
      }
    }
  }

  // -------------------------------------------------------- the requested edge

  /** The last edge of a request, from a node that stands for p. */
  lemma DeliverArcs(b: Build, p: nat, a: nat, c: nat)
    requires Frame(b, p) && a < |b.g| && Source(b, a) == p && |b.g[a]| < MAX_CONSUMERS && IsReal(b, c)
    requires a == p || Before(b.g, p, a)
    ensures var b' := Requested(Connect(b, a, c), p, c); Frame(b', p) && Extends(b.g, b'.g)
  {
    var b1 := Requested(b, p, c);
    var b' := Requested(Connect(b, a, c), p, c);
    assert b' == Connect(b1, a, c);
    ConnectArcs(b.req, p, c, b1.req);
    ConnectArcs(b.g, a, c, b'.g);
    ArcBefore(b'.g, a, c);
    if a != p {
      BeforeExtends(b.g, b'.g, p, a);
      BeforeTransitive(b'.g, p, a, c);
    }
    DeliverServed(b, b', p, c);
    DeliverShape(b, p, a, c);
    DeliverTrees(b, b', p, a, c);
  }

  lemma DeliverShape(b: Build, p: nat, a: nat, c: nat)
    requires WellFormed(b.g) && ReqOk(b) && ArcsOk(b) && FanOutOk(b) && IsReal(b, p) && IsReal(b, c)
    requires a < |b.g| && Source(b, a) == p && |b.g[a]| < MAX_CONSUMERS
    ensures var b' := Requested(Connect(b, a, c), p, c); WellFormed(b'.g) && ReqOk(b') && ArcsOk(b') && FanOutOk(b')
  {
    var b' := Requested(Connect(b, a, c), p, c);
    ConnectArcs(b.req, p, c, b'.req);
    ConnectArcs(b.g, a, c, b'.g);
    forall y: nat, z: nat | Arc(b'.g, y, z) ensures ArcOk(b', y, z) {
      if Arc(b.g, y, z) { assert ArcOk(b, y, z); }
    }
    forall x: nat, k: nat | x < |b'.g| && k < |b'.g[x]| ensures b'.g[x][k] < |b'.g| {}
  }

  lemma DeliverServed(b: Build, b': Build, p: nat, c: nat)
    requires Served(b) && Extends(b.g, b'.g) && Before(b'.g, p, c)
    requires forall y: nat, z: nat {:trigger Arc(b'.req, y, z)} ::
      Arc(b'.req, y, z) ==> Arc(b.req, y, z) || (y == p && z == c)
    ensures Served(b')
  {
    forall y: nat, z: nat | Arc(b'.req, y, z) ensures Before(b'.g, y, z) {
      if Arc(b.req, y, z) { BeforeExtends(b.g, b'.g, y, z); }
    }
  }

  lemma DeliverTrees(b: Build, b': Build, p: nat, a: nat, c: nat)
    requires Frame(b, p) && a < |b.g| && Source(b, a) == p && b' == Requested(Connect(b, a, c), p, c)
      && Extends(b.g, b'.g)
    ensures forall q: nat {:trigger TreeOk(b', q)} :: q < |b'.g| && IsReal(b', q) && q != p ==> TreeOk(b', q)
  {
    forall q: nat | q < |b'.g| && IsReal(b', q) && q != p ensures TreeOk(b', q) {
      assert TreeOk(b, q);
      assert Trunks(b', q) == Trunks(b, q) && Leaves(b', q) == Leaves(b, q);
      TreeStays(b, b', q);
    }
  }

  lemma DirectKeeps(b: Build, p: nat, c: nat)
    requires Inv(b) && p < |b.g| && IsReal(b, p) && IsReal(b, c) && |b.g[p]| < DIRECT
    ensures Inv(Requested(Connect(b, p, c), p, c))
  {
    CoreIsFrame(b, p);
    DeliverArcs(b, p, p, c);
    var b' := Requested(Connect(b, p, c), p, c);
    assert Trunks(b', p) == Trunks(b, p) && Leaves(b', p) == Leaves(b, p);
    FrameIsCore(b', p);
  }

  /** All ports but p's are as before. */
  ghost predicate OtherPorts(b: Build, b': Build, p: nat) {
    forall q: nat :: q in b'.ports && q != p ==> q in b.ports && b'.ports[q] == b.ports[q]
  }

  lemma GrownPorts(b: Build, p: nat, c: nat)
    requires p < |b.g| && |b.g| == |b.role| && (p in b.ports ==> b.ports[p].trunk < |b.g|) && IsReal(b, c)
    ensures OtherPorts(b, Grown(b, p), p) && IsReal(Grown(b, p), c)
  {}

  /** p's tree after a delivery below its current leaf. */
  lemma DeliverTree(b: Build, p: nat, c: nat)
    requires HasRoom(b, p)
    ensures var b' := Requested(Deliver(b, p, c), p, c); Extends(b.g, b'.g) ==> PortOk(b', p)
  {
    var po := b.ports[p];
    var b' := Requested(Deliver(b, p, c), p, c);
    assert Trunks(b', p) == Trunks(b, p) && Leaves(b', p) == Leaves(b, p);
    if Extends(b.g, b'.g) {
      BeforeExtends(b.g, b'.g, p, po.trunk);
      BeforeExtends(b.g, b'.g, p, po.leaf);
    }
  }

  lemma RelayedKeeps(b: Build, p: nat, c: nat)
    requires HasRoom(b, p) && IsReal(b, c)
    ensures var b' := Requested(Deliver(b, p, c), p, c);
            Core(b') && p in b'.ports && 1 <= b'.ports[p].trunkUsed && 1 <= b'.ports[p].leafUsed && OtherPorts(b, b', p)
  {
    var po := b.ports[p];
    DeliverArcs(b, p, po.leaf, c);
    DeliverTree(b, p, c);
    var b1 := Requested(Connect(b, po.leaf, c), p, c);
    var po' := po.(leafUsed := po.leafUsed + 1);
    PortFrame(b1, p, po');
    assert Requested(Deliver(b, p, c), p, c) == WithPort(b1, p, po');
    FrameIsCore(WithPort(b1, p, po'), p);
  }

  /** Every dep_edge keeps the invariant; it never asks for a seventh consumer. */
  lemma DepEdgeKeeps(b: Build, p: nat, c: nat)
    requires Inv(b) && IsReal(b, p) && IsReal(b, c)
    ensures p < |b.g| && (p in b.ports ==> b.ports[p].trunk < |b.g| && b.ports[p].leaf < |b.g|)
    ensures Inv(DepEdge(b, p, c))
    ensures IsReal(DepEdge(b, p, c), p) && IsReal(DepEdge(b, p, c), c)
  {
    CoreIsFrame(b, p);
    if |b.g[p]| < DIRECT {
      DirectKeeps(b, p, c);
    } else {
      GrownKeeps(b, p);
      GrownPorts(b, p, c);
      RelayedKeeps(Grown(b, p), p, c);
    }
  }

  /** Requests are only ever added, and no node changes its role. */
  lemma DepEdgeRequests(b: Build, p: nat, c: nat)
    requires Inv(b) && IsReal(b, p) && IsReal(b, c)
    ensures p < |b.g| && (p in b.ports ==> b.ports[p].trunk < |b.g| && b.ports[p].leaf < |b.g|)
    ensures Extends(b.req, DepEdge(b, p, c).req) && Arc(DepEdge(b, p, c).req, p, c)
    ensures b.role <= DepEdge(b, p, c).role
  {
    DepEdgeKeeps(b, p, c);
    var b1 := if |b.g[p]| < DIRECT then b else Grown(b, p);
    GrownRequests(b, p);
    ConnectArcs(b1.req, p, c, b1.req[p := b1.req[p] + [c]]);
    forall x: nat, y: nat | Arc(b.req, x, y) ensures Arc(DepEdge(b, p, c).req, x, y) { assert Arc(b1.req, x, y); }
  }

  /** Growing a relay tree adds no request and changes no node's role. */
  lemma GrownRequests(b: Build, p: nat)
    requires p < |b.g| == |b.req| && (p in b.ports ==> b.ports[p].trunk < |b.g|)
    ensures forall x: nat, y: nat :: Arc(b.req, x, y) ==> Arc(Grown(b, p).req, x, y)
    ensures b.role <= Grown(b, p).role
  {}

  // --------------------------------------------------------------- dead ends

  /** A relay that relays to nobody. */
  predicate Dead(b: Build, x: nat) { IsRelay(b, x) && x < |b.g| && b.g[x] == [] }

  ghost predicate Delivering(b: Build) { forall x: nat :: !Dead(b, x) }

  lemma SproutDead(b: Build, a: nat, r: Role, x: nat)
    requires a < |b.g| == |b.role|
    ensures Dead(Sprout(b, a, r), x) ==> (Dead(b, x) && x != a) || x == |b.g|
  {}

  /** Growing ends with a leaf, the only new node that has no consumer yet. */
  lemma GrownDead(b: Build, p: nat, x: nat)
    requires p < |b.g| == |b.role| && (p in b.ports ==> b.ports[p].trunk < |b.g|) && Delivering(b)
    ensures Dead(Grown(b, p), x) ==> p in Grown(b, p).ports && x == Grown(b, p).ports[p].leaf
  {
    if p !in b.ports {
      SproutDead(b, p, Trunk(p), x);
      SproutDead(FirstTrunk(b, p), |b.g|, Leaf(p), x);
    } else if b.ports[p].leafUsed >= MAX_CONSUMERS {
      var po := b.ports[p];
      SproutDead(b, po.trunk, Trunk(p), x);
      var b1 := if po.trunkUsed >= DIRECT then NewTrunk(b, p) else b;
      SproutDead(b1, b1.ports[p].trunk, Leaf(p), x);
    }
  }

  /** Every relay that a dep_edge creates gets a consumer by it. */
  lemma DepEdgeDelivers(b: Build, p: nat, c: nat)
    requires Inv(b) && IsReal(b, p) && IsReal(b, c) && Delivering(b)
    ensures p < |b.g| && (p in b.ports ==> b.ports[p].trunk < |b.g| && b.ports[p].leaf < |b.g|)
    ensures Delivering(DepEdge(b, p, c))
  {
    DepEdgeKeeps(b, p, c);
    forall x: nat ensures !Dead(DepEdge(b, p, c), x) {
      assert !Dead(b, x);
      if |b.g[p]| >= DIRECT { GrownDead(b, p, x); }
    }
  }

  /** A dep_edge adds no real task. */
  lemma DepEdgeReal(b: Build, p: nat, c: nat, x: nat)
    requires p < |b.g| == |b.req| == |b.role|
    requires p in b.ports ==> b.ports[p].trunk < |b.g| && b.ports[p].leaf < |b.g|
    ensures IsReal(DepEdge(b, p, c), x) ==> IsReal(b, x)
  {}

  lemma ServeReal(b: Build, p: nat, c: nat, x: nat)
    requires Inv(b)
    ensures IsReal(Serve(b, Dep(p, c)), x) ==> IsReal(b, x)
  {
    if p < |b.g| == |b.req| && (p in b.ports ==> b.ports[p].trunk < |b.g| && b.ports[p].leaf < |b.g|) {
      DepEdgeReal(b, p, c, x);
    }
  }

  // ---------------------------------------------------------------- theorems

  datatype Request = Task(kind: TaskKind) | Dep(p: nat, c: nat)

  predicate Valid(b: Build, r: Request) { r.Dep? ==> IsReal(b, r.p) && IsReal(b, r.c) }

  function Serve(b: Build, r: Request): Build {
    match r
    case Task(kind) => AddNode(b, Real(kind))
    case Dep(p, c) =>
      if p < |b.g| == |b.req| && (p in b.ports ==> b.ports[p].trunk < |b.g| && b.ports[p].leaf < |b.g|)
          then DepEdge(b, p, c) else b
  }

  function ServeAll(b: Build, rs: seq<Request>): Build
    decreases |rs|
  {
    if rs == [] then b else ServeAll(Serve(b, rs[0]), rs[1..])
  }

  /** Every requested edge joins real tasks that exist by then. */
  ghost predicate AllValid(b: Build, rs: seq<Request>)
    decreases |rs|
  {
    rs == [] || (Valid(b, rs[0]) && AllValid(Serve(b, rs[0]), rs[1..]))
  }

  lemma {:induction false} ServeAllKeeps(b: Build, rs: seq<Request>)
    requires Inv(b) && AllValid(b, rs)
    ensures Inv(ServeAll(b, rs))
    decreases |rs|
  {
    if rs != [] {
      if rs[0].Task? { AddTaskKeeps(b, rs[0].kind); } else { DepEdgeKeeps(b, rs[0].p, rs[0].c); }
      ServeAllKeeps(Serve(b, rs[0]), rs[1..]);
    }
  }

  /** A walk stays in one relay tree, going to ever younger relays, or follows requests from source to source. */
  lemma {:induction false} WalkMeans(b: Build, x: nat, y: nat, len: nat)
    requires ReqOk(b) && ArcsOk(b) && Walk(b.g, x, y, len)
    ensures x < |b.role| && y < |b.role|
    ensures Before(b.req, Source(b, x), Source(b, y))
            || (IsRelay(b, y) && Source(b, x) == Source(b, y) && (IsRelay(b, x) ==> x < y))
    decreases len
  {
    var m :| Arc(b.g, x, m) && (if len == 1 then m == y else Walk(b.g, m, y, len - 1));
    assert ArcOk(b, x, m);
    if IsReal(b, m) { ArcBefore(b.req, Source(b, x), m); }
    if len > 1 {
      WalkMeans(b, m, y, len - 1);
      if IsReal(b, m) && Before(b.req, m, Source(b, y)) { BeforeTransitive(b.req, Source(b, x), m, Source(b, y)); }
    }
  }

  /** Every path of requests is a path of the built graph. */
  lemma {:induction false} RequestsReach(b: Build, p: nat, c: nat, len: nat)
    requires Served(b) && Walk(b.req, p, c, len)
    ensures Before(b.g, p, c)
    decreases len
  {
    var m :| Arc(b.req, p, m) && (if len == 1 then m == c else Walk(b.req, m, c, len - 1));
    if len > 1 {
      RequestsReach(b, m, c, len - 1);
      BeforeTransitive(b.g, p, m, c);
    }
  }

  /** Between real tasks, the built graph orders exactly what the requests order: none lost, none added. */
  lemma OrderIsRequested(b: Build, p: nat, c: nat)
    requires Inv(b) && IsReal(b, p) && IsReal(b, c)
    ensures Before(b.g, p, c) <==> Before(b.req, p, c)
  {
    if Before(b.g, p, c) {
      var len :| Walk(b.g, p, c, len);
      WalkMeans(b, p, c, len);
    }
    if Before(b.req, p, c) {
      var len :| Walk(b.req, p, c, len);
      RequestsReach(b, p, c, len);
    }
  }

  /** The built graph is acyclic exactly when the requests are. */
  lemma AcyclicIffRequested(b: Build)
    requires Inv(b)
    ensures Acyclic(b.g) <==> Acyclic(b.req)
  {
    if Acyclic(b.req) {
      forall x: nat ensures !Before(b.g, x, x) {
        if Before(b.g, x, x) {
          var len :| Walk(b.g, x, x, len);
          WalkMeans(b, x, x, len);
        }
      }
    }
    if Acyclic(b.g) {
      forall p: nat ensures !Before(b.req, p, p) {
        if Before(b.req, p, p) {
          var len :| Walk(b.req, p, p, len);
          RequestsReach(b, p, p, len);
        }
      }
    }
  }

  /** For any sequence of task and edge requests: fan-out, order and acyclicity. */
  lemma BuiltGraph(rs: seq<Request>)
    requires AllValid(Empty(), rs)
    ensures var b := ServeAll(Empty(), rs);
            && WellFormed(b.g) && FanOutOk(b)
            && (Acyclic(b.g) <==> Acyclic(b.req))
            && forall p: nat, c: nat :: IsReal(b, p) && IsReal(b, c) ==> (Before(b.g, p, c) <==> Before(b.req, p, c))
  {
    assert Inv(Empty());
    ServeAllKeeps(Empty(), rs);
    var b := ServeAll(Empty(), rs);
    AcyclicIffRequested(b);
    forall p: nat, c: nat | IsReal(b, p) && IsReal(b, c) ensures Before(b.g, p, c) <==> Before(b.req, p, c) {
      OrderIsRequested(b, p, c);
    }
  }

  /** k relayed consumers cost exactly ceil(k / 6) leaves and ceil(k / 30) trunks. */
  lemma RelayCount(b: Build, p: nat)
    requires Inv(b) && IsReal(b, p)
    ensures p < |b.req|
    ensures var k := if |b.req[p]| <= DIRECT then 0 else |b.req[p]| - DIRECT;
            && |Leaves(b, p)| == (k + 5) / 6
            && |Trunks(b, p)| == (k + 29) / 30
            && (k == 0 <==> p !in b.ports)
  {
    assert TreeOk(b, p);
  }
}

/** The builder as the decoder runs it, on the task table itself. */
module PortedGraph {
  import opened Results
  import opened TaskTypes
  import opened TaskGraph
  import opened TaskTable
  import opened GraphBuilder

  class Builder {
    const graph: GraphImpl
    var ports: map<nat, Port>
    ghost var role: seq<Role>
    ghost var req: Graph

    ghost function View(): Build
      reads this, graph
    {
      Build(graph.consumers, ports, role, req)
    }

    ghost predicate Valid()
      reads this, graph
    {
      graph.Valid() && !graph.frozen && Inv(View()) && KindsOk()
    }

    /** Each node's role says of what kind the task in the table is. */
    ghost predicate KindsOk()
      reads this, graph
    {
      |graph.kinds| == |role| && forall x :: 0 <= x < |role| ==> graph.kinds[x] == KindOf(role[x])
    }

    constructor (max: nat)
      ensures Valid() && fresh(graph) && View() == Empty() && graph.max == max
    {
      graph := new GraphImpl(max);
      ports, role, req := map[], [], [];
    }

    /** graph_->add, and raw_signal. */
    method AddTask(kind: TaskKind) returns (r: Result<nat>)
      requires Valid()
      modifies this, graph
      ensures r.Ok? <==> |old(View()).g| < graph.max
      ensures r.Died? ==> r.why == FULL
      ensures r.Ok? ==> Valid() && r.value == |old(View()).g| && View() == AddNode(old(View()), Real(kind))
    {
      r := graph.Add(kind);
      if r.Ok? {
        role, req := role + [Real(kind)], req + [[]];
        AddTaskKeeps(old(View()), kind);
      }
    }

    ghost predicate Growing(p: nat)
      reads this, graph
    {
      graph.Valid() && !graph.frozen && KindsOk() && |graph.consumers| == |role| == |req| && p < |graph.consumers|
    }

    /** raw_signal for a relay, hung below node a; dies only when the table is full. */
    method AddRelay(a: nat, ghost what: Role) returns (r: Result<nat>)
      requires Growing(a) && |graph.consumers[a]| < MAX_CONSUMERS && !what.Real?
      modifies this`role, this`req, graph
      ensures r.Ok? <==> |old(View()).g| < graph.max
      ensures r.Ok? ==>
        Growing(a) && r.value == |old(View()).g| && View() == Sprout(old(View()), a, what)
    {
      r := graph.Add(SIGNAL);
      if r.Ok? {
        role, req := role + [what], req + [[]];
        var e := graph.AddEdge(a, r.value);
      }
    }

    method FirstPort(p: nat) returns (ok: bool)
      requires Growing(p) && |graph.consumers[p]| == DIRECT
      modifies this, graph
      ensures ok <==> |old(View()).g| + 2 <= graph.max
      ensures ok ==> Growing(p) && View() == NewPort(old(View()), p)
    {
      var trunk := AddRelay(p, Trunk(p));
      if trunk.Died? { return false; }
      var leaf := AddRelay(trunk.value, Leaf(p));
      if leaf.Died? { return false; }
      ports := ports[p := Port(trunk.value, 1, leaf.value, 0)];
      return true;
    }

    method NextTrunk(p: nat) returns (ok: bool)
      requires Growing(p) && p in ports && ports[p].trunk < |graph.consumers|
        && |graph.consumers[ports[p].trunk]| == DIRECT
      modifies this, graph
      ensures ok <==> |old(View()).g| + 1 <= graph.max
      ensures ok ==> Growing(p) && View() == NewTrunk(old(View()), p)
    {
      var nt := AddRelay(ports[p].trunk, Trunk(p));
      if nt.Died? { return false; }
      ports := ports[p := ports[p].(trunk := nt.value, trunkUsed := 0)];
      return true;
    }

    method NextLeaf(p: nat) returns (ok: bool)
      requires Growing(p) && p in ports && ports[p].trunk < |graph.consumers|
        && |graph.consumers[ports[p].trunk]| < DIRECT
      modifies this, graph
      ensures ok <==> |old(View()).g| + 1 <= graph.max
      ensures ok ==> Growing(p) && View() == NewLeaf(old(View()), p)
    {
      var po := ports[p];
      var leaf := AddRelay(po.trunk, Leaf(p));
      if leaf.Died? { return false; }
      ports := ports[p := po.(leaf := leaf.value, trunkUsed := po.trunkUsed + 1, leafUsed := 0)];
      return true;
    }

    /** A leaf of p with a free slot. */
    method Grow(p: nat) returns (ok: bool)
      requires Growing(p) && (p !in ports ==> |graph.consumers[p]| == DIRECT)
      requires p in ports ==>
        ports[p].trunk < |graph.consumers| && |graph.consumers[ports[p].trunk]| == ports[p].trunkUsed <= DIRECT
      modifies this, graph
      ensures ok <==> |Grown(old(View()), p).g| <= graph.max
      ensures ok ==> Growing(p) && View() == Grown(old(View()), p)
    {
      if p !in ports {
        ok := FirstPort(p);
      } else if ports[p].leafUsed >= MAX_CONSUMERS {
        if ports[p].trunkUsed >= DIRECT {
          ok := NextTrunk(p);
          if !ok { return; }
        }
        ok := NextLeaf(p);
      } else {
        ok := true;
      }
    }

    method Attach(p: nat, c: nat)
      requires Growing(p) && p in ports && HasRoom(View(), p) && IsReal(View(), c)
      modifies this, graph
      ensures Growing(p) && View() == Requested(Deliver(old(View()), p, c), p, c)
    {
      var po := ports[p];
      var r := graph.AddEdge(po.leaf, c);
      ports := ports[p := po.(leafUsed := po.leafUsed + 1)];
      req := req[p := req[p] + [c]];
    }

    /** graph_->edge, from a task with a direct slot to spare; dies exactly on a self edge. */
    method Direct(p: nat, c: nat) returns (r: Result<()>)
      requires Valid() && IsReal(View(), p) && IsReal(View(), c) && |View().g[p]| < DIRECT
      modifies this, graph
      ensures r.Ok? <==> p != c
      ensures r.Ok? ==> Valid() && View() == Serve(old(View()), Dep(p, c))
    {
      DepEdgeKeeps(View(), p, c);
      r := graph.AddEdge(p, c);
      if r.Died? { return; }
      req := req[p := req[p] + [c]];
    }

    /** Below a leaf of p's relay tree; dies exactly when the relays it needs do not fit the table. */
    method Relayed(p: nat, c: nat) returns (r: Result<()>)
      requires Valid() && IsReal(View(), p) && IsReal(View(), c) && |View().g[p]| >= DIRECT
      modifies this, graph
      ensures r.Ok? <==> |Serve(old(View()), Dep(p, c)).g| <= graph.max
      ensures r.Died? ==> r.why == FULL
      ensures r.Ok? ==> Valid() && View() == Serve(old(View()), Dep(p, c))
    {
      ServeRelayed(View(), p, c);
      var ok := Grow(p);
      if !ok { return Died(FULL); }
      Attach(p, c);
      r := Ok(());
    }

    /** Dies exactly on a direct self edge or when the relays do not fit the table, never on fan-out. */
    method DepEdge(p: nat, c: nat) returns (r: Result<()>)
      requires Valid() && IsReal(View(), p) && IsReal(View(), c)
      modifies this, graph
      ensures r.Ok? <==> !SelfEdge(old(View()), p, c) && |Serve(old(View()), Dep(p, c)).g| <= graph.max
      ensures r.Died? && !SelfEdge(old(View()), p, c) ==> r.why == FULL
      ensures r.Ok? ==> Valid() && View() == Serve(old(View()), Dep(p, c))
    {
      if |graph.consumers[p]| < DIRECT {
        ServeSize(View(), p, c);
        r := Direct(p, c);
      } else {
        r := Relayed(p, c);
      }
    }

    /** The dep_edge calls below a new task. */
    method Hang(deps: seq<nat>, id: nat) returns (r: Result<()>)
      requires Valid() && AllReal(View(), deps) && IsReal(View(), id) && forall i :: 0 <= i < |deps| ==> deps[i] < id
      modifies this, graph
      ensures r.Ok? <==> |ServeAll(old(View()), Joins(deps, id)).g| <= graph.max
      ensures r.Died? ==> r.why == FULL
      ensures r.Ok? ==> Valid() && View() == ServeAll(old(View()), Joins(deps, id))
    {
      ghost var b, reqs := View(), Joins(deps, id);
      assert reqs[..0] == [];
      for i: nat := 0 to |deps|
        invariant Valid() && AllReal(View(), deps) && IsReal(View(), id)
        invariant View() == ServeAll(b, reqs[..i])
      {
        ServeAllSnoc(b, reqs, i);
        ServeAllSuffix(b, reqs, i + 1);
        StaysReal(View(), deps, i, id);
        var e := DepEdge(deps[i], id);
        if e.Died? { return e; }
      }
      assert reqs[..|deps|] == reqs;
      r := Ok(());
    }

    /** A task below all of deps; dies exactly when it and the relays it needs do not fit the table. */
    method AddOp(kind: TaskKind, deps: seq<nat>) returns (r: Result<nat>)
      requires Valid() && AllReal(View(), deps)
      modifies this, graph
      ensures r.Ok? <==> |Below(old(View()), kind, deps).g| <= graph.max
      ensures r.Died? ==> r.why == FULL
      ensures r.Ok? ==> Valid() && r.value == |old(View()).g| && View() == Below(old(View()), kind, deps)
      ensures r.Ok? ==> forall i :: 0 <= i < |deps| ==> Before(View().g, deps[i], r.value)
    {
      ServeAllGrows(AddNode(View(), Real(kind)), Joins(deps, |View().g|));
      BelowIs(View(), kind, deps);
      NewIsReal(View(), kind, deps);
      r := AddTask(kind);
      if r.Died? { return; }
      var e := Hang(deps, r.value);
      if e.Died? { return Died(e.why); }
    }

    /** One carrier that every producer precedes. */
    method FanIn(producers: seq<nat>) returns (r: Result<nat>)
      requires Valid() && AllReal(View(), producers)
      modifies this, graph
      ensures r.Ok? <==> |Below(old(View()), SIGNAL, producers).g| <= graph.max
      ensures r.Died? ==> r.why == FULL
      ensures r.Ok? ==> Valid() && r.value == |old(View()).g| && View() == Below(old(View()), SIGNAL, producers)
      ensures r.Ok? ==> forall i :: 0 <= i < |producers| ==> Before(View().g, producers[i], r.value)
    {
      r := AddOp(SIGNAL, producers);
    }
  }

  lemma NewIsReal(b: Build, kind: TaskKind, ps: seq<nat>)
    requires GraphBuilder.Inv(b) && AllReal(b, ps)
    ensures AllReal(AddNode(b, Real(kind)), ps) && IsReal(AddNode(b, Real(kind)), |b.g|)
    ensures forall i :: 0 <= i < |ps| ==> ps[i] < |b.g|
  {
    forall i | 0 <= i < |ps| ensures IsReal(AddNode(b, Real(kind)), ps[i]) && ps[i] < |b.g| { assert IsReal(b, ps[i]); }
  }

  /** What a relayed request needs of the build, and what it makes of it. */
  lemma ServeRelayed(b: Build, p: nat, c: nat)
    requires GraphBuilder.Inv(b) && IsReal(b, p) && IsReal(b, c) && |b.g[p]| >= DIRECT
    ensures p < |b.g| == |b.role| == |b.req| && (p !in b.ports ==> |b.g[p]| == DIRECT)
    ensures p in b.ports ==> b.ports[p].trunk < |b.g| && |b.g[b.ports[p].trunk]| == b.ports[p].trunkUsed <= DIRECT
    ensures var b1 := Grown(b, p);
            && HasRoom(b1, p) && IsReal(b1, c) && GraphBuilder.Inv(Serve(b, Dep(p, c)))
            && Serve(b, Dep(p, c)) == Requested(Deliver(b1, p, c), p, c) && |Serve(b, Dep(p, c)).g| == |b1.g|
  {
    DepEdgeKeeps(b, p, c);
    CoreIsFrame(b, p);
    GrownKeeps(b, p);
    GrownPorts(b, p, c);
    assert TreeOk(b, p);
  }

  lemma ServeSize(b: Build, p: nat, c: nat)
    requires GraphBuilder.Inv(b) && IsReal(b, p) && |b.g[p]| < DIRECT
    ensures |Serve(b, Dep(p, c)).g| == |b.g|
  {}

  predicate SelfEdge(b: Build, p: nat, c: nat)
    requires p < |b.g|
  {
    p == c && |b.g[p]| < DIRECT
  }

  /** The requests that put sig below all of ps. */
  function Joins(ps: seq<nat>, sig: nat): (rs: seq<Request>)
    ensures |rs| == |ps|
  {
    seq(|ps|, i requires 0 <= i < |ps| => Dep(ps[i], sig))
  }

  /** A new task below all of ps. */
  function Below(b: Build, kind: TaskKind, ps: seq<nat>): Build {
    ServeAll(AddNode(b, Real(kind)), Joins(ps, |b.g|))
  }

  lemma ServeGrows(b: Build, r: Request)
    ensures |Serve(b, r).g| >= |b.g|
  {}

  lemma {:induction false} ServeAllGrows(b: Build, rs: seq<Request>)
    ensures |ServeAll(b, rs).g| >= |b.g|
    decreases |rs|
  {
    if rs != [] {
      ServeGrows(b, rs[0]);
      ServeAllGrows(Serve(b, rs[0]), rs[1..]);
    }
  }

  lemma {:induction false} ServeAllJoin(b: Build, rs: seq<Request>, ss: seq<Request>)
    ensures ServeAll(b, rs + ss) == ServeAll(ServeAll(b, rs), ss)
    decreases |rs|
  {
    if rs == [] {
      assert rs + ss == ss;
    } else {
      assert (rs + ss)[1..] == rs[1..] + ss;
      ServeAllJoin(Serve(b, rs[0]), rs[1..], ss);
    }
  }

  lemma ServeAllSnoc(b: Build, rs: seq<Request>, i: nat)
    requires i < |rs|
    ensures ServeAll(b, rs[..i + 1]) == Serve(ServeAll(b, rs[..i]), rs[i])
  {
    assert rs[..i + 1] == rs[..i] + [rs[i]];
    ServeAllJoin(b, rs[..i], [rs[i]]);
    ServeOne(ServeAll(b, rs[..i]), rs[i]);
  }

  lemma ServeOne(b: Build, r: Request)
    ensures ServeAll(b, [r]) == Serve(b, r)
  {
    assert ServeAll(Serve(b, r), []) == Serve(b, r);
    assert [r][1..] == [];
  }

  lemma ServeAllSuffix(b: Build, rs: seq<Request>, i: nat)
    requires i <= |rs|
    ensures |ServeAll(b, rs[..i]).g| <= |ServeAll(b, rs).g|
  {
    assert rs == rs[..i] + rs[i..];
    ServeAllJoin(b, rs[..i], rs[i..]);
    ServeAllGrows(ServeAll(b, rs[..i]), rs[i..]);
  }

  lemma StaysReal(b: Build, ps: seq<nat>, i: nat, sig: nat)
    requires GraphBuilder.Inv(b) && AllReal(b, ps) && IsReal(b, sig) && i < |ps|
    ensures AllReal(Serve(b, Dep(ps[i], sig)), ps) && IsReal(Serve(b, Dep(ps[i], sig)), sig)
  {
    DepEdgeRequests(b, ps[i], sig);
  }

  predicate AllReal(b: Build, ps: seq<nat>) { forall i :: 0 <= i < |ps| ==> IsReal(b, ps[i]) }

  // ------------------------------------------------- what a new task changes

  /** x is a task of that kind, not a relay. */
  predicate IsA(b: Build, x: nat, kind: TaskKind) { x < |b.role| && b.role[x] == Real(kind) }

  /** Requests go from older tasks to younger ones. */
  ghost predicate Forward(b: Build) { forall a: nat, x: nat {:trigger Arc(b.req, a, x)} :: Arc(b.req, a, x) ==> a < x }

  /** b' is b with more tasks and more requests. */
  ghost predicate Grew(b: Build, b': Build) {
    && |b.g| <= |b'.g| && Extends(b.req, b'.req) && b.role <= b'.role
    && (Forward(b) ==> Forward(b')) && (Delivering(b) ==> Delivering(b'))
  }

  /** No real task is new but `id`, and no request but those from ps to it. */
  ghost predicate OnlyBelow(b: Build, b': Build, ps: seq<nat>, id: nat) {
    && (forall x: nat {:trigger IsReal(b', x)} :: IsReal(b', x) ==> IsReal(b, x) || x == id)
    && (forall x: nat, y: nat {:trigger Arc(b'.req, x, y)} :: Arc(b'.req, x, y) ==>
          Arc(b.req, x, y) || (x in ps && y == id))
  }

  ghost predicate Joined(b: Build, ps: seq<nat>, n: nat, id: nat) {
    n <= |ps| && IsReal(b, id) && forall i :: 0 <= i < n ==> Arc(b.req, ps[i], id)
  }

  lemma GrewMore(a: Build, b: Build, c: Build)
    requires Grew(a, b) && Grew(b, c)
    ensures Grew(a, c)
  {
    forall x: nat, y: nat | Arc(a.req, x, y) ensures Arc(c.req, x, y) { assert Arc(b.req, x, y); }
  }

  lemma AddNodeGrew(b: Build, kind: TaskKind)
    requires GraphBuilder.Inv(b)
    ensures Grew(b, AddNode(b, Real(kind))) && GraphBuilder.Inv(AddNode(b, Real(kind)))
      && IsReal(AddNode(b, Real(kind)), |b.g|)
  {
    AddTaskKeeps(b, kind);
    NodeArcs(b.req, AddNode(b, Real(kind)).req);
    forall x: nat | Delivering(b) ensures !Dead(AddNode(b, Real(kind)), x) { assert !Dead(b, x); }
  }

  lemma DepEdgeGrew(b: Build, p: nat, c: nat)
    requires GraphBuilder.Inv(b) && IsReal(b, p) && IsReal(b, c) && p < c
    ensures Grew(b, Serve(b, Dep(p, c))) && GraphBuilder.Inv(Serve(b, Dep(p, c)))
    ensures Arc(Serve(b, Dep(p, c)).req, p, c)
  {
    DepEdgeKeeps(b, p, c);
    DepEdgeRequests(b, p, c);
    DepEdgeArcs(b, p, c);
    if Delivering(b) { DepEdgeDelivers(b, p, c); }
  }

  /** One request, and no other, is added. */
  lemma DepEdgeArcs(b: Build, p: nat, c: nat)
    requires GraphBuilder.Inv(b) && IsReal(b, p) && IsReal(b, c)
    ensures var b' := Serve(b, Dep(p, c));
            && |b.g| <= |b'.g|
            && forall x: nat, y: nat {:trigger Arc(b'.req, x, y)} ::
                 Arc(b'.req, x, y) ==> Arc(b.req, x, y) || (x == p && y == c)
  {
    DepEdgeKeeps(b, p, c);
    var b1 := if |b.g[p]| < DIRECT then b else Grown(b, p);
    GrownArcs(b, p);
    ConnectArcs(b1.req, p, c, b1.req[p := b1.req[p] + [c]]);
  }

  lemma GrownArcs(b: Build, p: nat)
    requires p < |b.g| == |b.req| && (p in b.ports ==> b.ports[p].trunk < |b.g|)
    ensures |b.g| <= |Grown(b, p).g| && forall x: nat, y: nat :: Arc(Grown(b, p).req, x, y) ==> Arc(b.req, x, y)
  {}

  /** The first n of ps have been put above id. */
  ghost predicate Hung(b: Build, b': Build, ps: seq<nat>, n: nat, id: nat) {
    Grew(b, b') && GraphBuilder.Inv(b') && AllReal(b', ps) && Joined(b', ps, n, id)
  }

  lemma HungMore(b: Build, b': Build, ps: seq<nat>, n: nat, id: nat)
    requires Hung(b, b', ps, n, id) && n < |ps| && ps[n] < id
    ensures Hung(b, Serve(b', Dep(ps[n], id)), ps, n + 1, id)
  {
    assert IsReal(b', ps[n]);
    DepEdgeGrew(b', ps[n], id);
    GrewMore(b, b', Serve(b', Dep(ps[n], id)));
    JoinedMore(b', Serve(b', Dep(ps[n], id)), ps, n, id);
  }

  lemma {:induction false} JoinsGrew(b: Build, ps: seq<nat>, id: nat, n: nat)
    requires GraphBuilder.Inv(b) && AllReal(b, ps) && IsReal(b, id) && n <= |ps|
    requires forall i :: 0 <= i < |ps| ==> ps[i] < id
    ensures Hung(b, ServeAll(b, Joins(ps, id)[..n]), ps, n, id)
  {
    if n == 0 {
      assert ServeAll(b, Joins(ps, id)[..0]) == b;
    } else {
      var b1 := ServeAll(b, Joins(ps, id)[..n - 1]);
      JoinsGrew(b, ps, id, n - 1);
      HungMore(b, b1, ps, n - 1, id);
      ServeAllSnoc(b, Joins(ps, id), n - 1);
      assert ServeAll(b, Joins(ps, id)[..n]) == Serve(b1, Dep(ps[n - 1], id));
    }
  }

  /** Hanging a task below others adds no real task, and no request but those. */
  lemma {:induction false} JoinsOnly(b: Build, ps: seq<nat>, id: nat, n: nat, x: nat, y: nat)
    requires GraphBuilder.Inv(b) && AllReal(b, ps) && IsReal(b, id) && n <= |ps|
    requires forall i :: 0 <= i < |ps| ==> ps[i] < id
    ensures var b' := ServeAll(b, Joins(ps, id)[..n]);
            && (IsReal(b', x) ==> IsReal(b, x))
            && (Arc(b'.req, x, y) ==> Arc(b.req, x, y) || (x in ps && y == id))
  {
    if n > 0 {
      JoinsOnly(b, ps, id, n - 1, x, y);
      JoinsGrew(b, ps, id, n - 1);
      ServeAllSnoc(b, Joins(ps, id), n - 1);
      var b1 := ServeAll(b, Joins(ps, id)[..n - 1]);
      ServeReal(b1, ps[n - 1], id, x);
      DepEdgeArcs(b1, ps[n - 1], id);
    }
  }

  lemma JoinedMore(b: Build, b': Build, ps: seq<nat>, n: nat, id: nat)
    requires Joined(b, ps, n, id) && Grew(b, b') && n < |ps| && Arc(b'.req, ps[n], id)
    ensures Joined(b', ps, n + 1, id)
  {
    forall i | 0 <= i < n ensures Arc(b'.req, ps[i], id) { assert Arc(b.req, ps[i], id); }
  }

  lemma OnlyBelowIs(b: Build, kind: TaskKind, ps: seq<nat>)
    requires GraphBuilder.Inv(b) && AllReal(b, ps)
    ensures OnlyBelow(b, Below(b, kind, ps), ps, |b.g|)
  {
    var b1, b', id := AddNode(b, Real(kind)), Below(b, kind, ps), |b.g|;
    NewIsReal(b, kind, ps);
    AddTaskKeeps(b, kind);
    NodeArcs(b.req, b1.req);
    assert Joins(ps, id)[..|ps|] == Joins(ps, id);
    forall x: nat | IsReal(b', x) ensures IsReal(b, x) || x == id { JoinsOnly(b1, ps, id, |ps|, x, x); }
    forall x: nat, y: nat | Arc(b'.req, x, y) ensures Arc(b.req, x, y) || (x in ps && y == id) {
      JoinsOnly(b1, ps, id, |ps|, x, y);
    }
  }

  /** A new task is real, youngest, and requested below all its producers; nothing else is lost. */
  lemma BelowIs(b: Build, kind: TaskKind, ps: seq<nat>)
    requires GraphBuilder.Inv(b) && AllReal(b, ps)
    ensures var b' := Below(b, kind, ps);
            && Grew(b, b') && GraphBuilder.Inv(b') && |b.g| < |b'.g| && Joined(b', ps, |ps|, |b.g|)
            && IsA(b', |b.g|, kind) && OnlyBelow(b, b', ps, |b.g|) && forall i :: 0 <= i < |ps| ==>
                Before(b'.g, ps[i], |b.g|)
  {
    var b1, id := AddNode(b, Real(kind)), |b.g|;
    AddNodeGrew(b, kind);
    forall i | 0 <= i < |ps| ensures IsReal(b1, ps[i]) && ps[i] < id { assert IsReal(b, ps[i]); }
    assert Joins(ps, id)[..|ps|] == Joins(ps, id);
    JoinsGrew(b1, ps, id, |ps|);
    OnlyBelowIs(b, kind, ps);
    GrewMore(b, b1, Below(b, kind, ps));
    assert Served(Below(b, kind, ps));
  }
}
