/**
  Helpers of the graph build (src/model/decoder.cpp: add_op, fan_in, add_dot,
  add_dot_m, stage_dot).  What they promise: each task has its label's kind and
  comes after everything the label needs, no label is done twice, and exactly
  so many tasks are left without a consumer.
 */
module GraphOps {
  import opened GraphBuilder
  import opened PassLabels
  import opened PortedGraph
  import opened Results
  import opened TaskGraph
  import opened TaskTable
  import opened TaskTypes

  /** a is requested, directly or through others, before c. */
  ghost predicate Ordered(b: Build, a: nat, c: nat) { IsReal(b, a) && IsReal(b, c) && Before(b.req, a, c) }

  lemma OrderedStays(b: Build, b': Build, a: nat, c: nat)
    requires Grew(b, b') && Ordered(b, a, c)
    ensures Ordered(b', a, c)
  {
    BeforeExtends(b.req, b'.req, a, c);
  }

  lemma OrderedThrough(b: Build, a: nat, c: nat, d: nat)
    requires Ordered(b, a, c) && Ordered(b, c, d)
    ensures Ordered(b, a, d)
  {
    BeforeTransitive(b.req, a, c, d);
  }

  lemma AllRealStays(b: Build, b': Build, xs: seq<nat>)
    requires Grew(b, b') && AllReal(b, xs)
    ensures AllReal(b', xs)
  {
    forall i | 0 <= i < |xs| ensures IsReal(b', xs[i]) { assert IsReal(b, xs[i]); }
  }

  // ---------------------------------------------------- labels and their tasks

  /** Which task does what has a label; a history of the build. */
  type Labels = map<Label, nat>

  /** All later marks leave the earlier ones. */
  ghost predicate Sub(at: Labels, at': Labels) {
    forall a {:trigger a in at} {:trigger a in at'} :: a in at ==> a in at' && at'[a] == at[a]
  }

  /** c is done by x or by a task before x. */
  ghost predicate Reached(b: Build, at: Labels, c: Label, x: nat) { c in at && (at[c] == x || Ordered(b, at[c], x)) }

  /** Whoever waits for x waits for the whole group. */
  ghost predicate Covers(plan: Plan, b: Build, at: Labels, g: Group, x: nat) {
    IsReal(b, x) && forall c {:trigger InGroup(plan, g, c)} :: InGroup(plan, g, c) ==> Reached(b, at, c, x)
  }

  /** The whole group comes before x. */
  ghost predicate Follows(plan: Plan, b: Build, at: Labels, g: Group, x: nat) {
    forall c {:trigger InGroup(plan, g, c)} :: InGroup(plan, g, c) ==> c in at && Ordered(b, at[c], x)
  }

  function Elsewhere(a: Label, p: nat): Label { a.(p := p) }

  /** A shared product does its row tile for every position of the batch. */
  ghost predicate Spread(plan: Plan, at: Labels, a: Label, x: nat) {
    Shares(plan, a.part) ==>
      forall p: nat {:trigger Elsewhere(a, p)} :: p < plan.m ==> Elsewhere(a, p) in at && at[Elsewhere(a, p)] == x
  }

  /** A task for label a: of its kind, after all that a needs. */
  ghost predicate TaskOk(plan: Plan, b: Build, at: Labels, a: Label, x: nat) {
    && IsA(b, x, KindFor(a.part)) && Spread(plan, at, a, x)
    && forall k :: 0 <= k < |NeedsOf(plan, a)| ==> Follows(plan, b, at, NeedsOf(plan, a)[k], x)
  }

  /** A task does one thing, but for the row tile of a shared product. */
  predicate SameTask(plan: Plan, a: Label, c: Label) { Elsewhere(a, c.p) == c && (a != c ==> Shares(plan, a.part)) }

  ghost predicate TasksOk(plan: Plan, b: Build, at: Labels) {
    forall a {:trigger TaskOk(plan, b, at, a, at[a])} :: a in at ==> OfPass(plan, a) && TaskOk(plan, b, at, a, at[a])
  }

  ghost predicate Apart(plan: Plan, at: Labels) {
    forall a, c {:trigger at[a], at[c]} :: a in at && c in at && at[a] == at[c] ==> SameTask(plan, a, c)
  }

  /** Every label marked so far is one of the pass, done by one task as it should be. */
  ghost predicate Lawful(plan: Plan, b: Build, at: Labels) { TasksOk(plan, b, at) && Apart(plan, at) }

  lemma CoversStays(plan: Plan, b: Build, b': Build, at: Labels, at': Labels, g: Group, x: nat)
    requires Grew(b, b') && Sub(at, at') && Covers(plan, b, at, g, x)
    ensures Covers(plan, b', at', g, x)
  {
    assert IsReal(b, x);
    forall c | InGroup(plan, g, c) ensures Reached(b', at', c, x) {
      assert Reached(b, at, c, x);
      if at[c] != x { OrderedStays(b, b', at[c], x); }
    }
  }

  lemma FollowsStays(plan: Plan, b: Build, b': Build, at: Labels, at': Labels, g: Group, x: nat)
    requires Grew(b, b') && Sub(at, at') && Follows(plan, b, at, g, x)
    ensures Follows(plan, b', at', g, x)
  {
    forall c | InGroup(plan, g, c) ensures c in at' && Ordered(b', at'[c], x) { OrderedStays(b, b', at[c], x); }
  }

  lemma TaskStays(plan: Plan, b: Build, b': Build, at: Labels, at': Labels, a: Label, x: nat)
    requires Grew(b, b') && Sub(at, at') && TaskOk(plan, b, at, a, x)
    ensures TaskOk(plan, b', at', a, x)
  {
    forall k | 0 <= k < |NeedsOf(plan, a)| ensures Follows(plan, b', at', NeedsOf(plan, a)[k], x) {
      FollowsStays(plan, b, b', at, at', NeedsOf(plan, a)[k], x);
    }
  }

  lemma LawfulStays(plan: Plan, b: Build, b': Build, at: Labels)
    requires Grew(b, b') && Lawful(plan, b, at)
    ensures Lawful(plan, b', at)
  {
    forall a | a in at ensures OfPass(plan, a)
        && TaskOk(plan, b', at, a, at[a]) { TaskStays(plan, b, b', at, at, a, at[a]); }
  }

  /** What one new task does: the same tile, head or op for the positions lo to hi. */
  datatype Duty = Duty(part: Part, l: nat, lo: nat, hi: nat, u: nat, i: nat)

  function One(part: Part, l: nat, p: nat): Duty { Duty(part, l, p, p + 1, 0, 0) }

  function OneExpert(part: Part, l: nat, p: nat, u: nat): Duty { Duty(part, l, p, p + 1, u, 0) }

  function LabelAt(d: Duty, p: nat): Label { Label(d.part, d.l, p, d.u, d.i) }

  function GroupOf(d: Duty): Group { Group(d.part, d.l, d.lo, d.hi, d.u, d.u + 1) }

  predicate Does(d: Duty, a: Label) { a == LabelAt(d, a.p) && d.lo <= a.p < d.hi }

  ghost function Mark(at: Labels, d: Duty, x: nat): (r: Labels)
    ensures forall a {:trigger a in r} :: a in r <==> a in at || Does(d, a)
    ensures forall a {:trigger r[a]} :: a in r ==> r[a] == if Does(d, a) then x else at[a]
  {
    var its := set p | d.lo <= p < d.hi :: LabelAt(d, p);
    map a | a in at.Keys + its :: if Does(d, a) then x else at[a]
  }

  /** A producer that covers the group is among deps. */
  ghost predicate HeldBy(plan: Plan, b: Build, at: Labels, g: Group, deps: seq<nat>) {
    exists i :: 0 <= i < |deps| && Covers(plan, b, at, g, deps[i])
  }

  /** All that label a needs is covered by deps. */
  ghost predicate Ready(plan: Plan, b: Build, at: Labels, a: Label, deps: seq<nat>) {
    forall k :: 0 <= k < |NeedsOf(plan, a)| ==> HeldBy(plan, b, at, NeedsOf(plan, a)[k], deps)
  }

  ghost predicate LabelReady(plan: Plan, b: Build, at: Labels, d: Duty, p: nat, deps: seq<nat>) {
    OfPass(plan, LabelAt(d, p)) && LabelAt(d, p) !in at && Ready(plan, b, at, LabelAt(d, p), deps)
  }

  /** For all positions of the batch if the product is shared, else for one. */
  predicate Wide(plan: Plan, d: Duty) {
    if Shares(plan, d.part) then d.lo == 0 && d.hi == plan.m else d.hi == d.lo + 1
  }

  /** A task of that kind below deps may take up the duty. */
  ghost predicate DutyOk(plan: Plan, b: Build, at: Labels, kind: TaskKind, d: Duty, deps: seq<nat>) {
    && Wide(plan, d) && kind == KindFor(d.part)
    && forall p :: d.lo <= p < d.hi ==> LabelReady(plan, b, at, d, p, deps)
  }

  lemma HeldFollows(plan: Plan, b: Build, b': Build, at: Labels, at': Labels, g: Group, deps: seq<nat>, id: nat)
    requires Grew(b, b') && Sub(at, at') && Joined(b', deps, |deps|, id) && HeldBy(plan, b, at, g, deps)
    ensures Follows(plan, b', at', g, id)
  {
    var i :| 0 <= i < |deps| && Covers(plan, b, at, g, deps[i]);
    assert IsReal(b, deps[i]) && Arc(b'.req, deps[i], id);
    ArcBefore(b'.req, deps[i], id);
    forall c | InGroup(plan, g, c) ensures c in at' && Ordered(b', at'[c], id) {
      assert Reached(b, at, c, deps[i]);
      if at[c] != deps[i] {
        OrderedStays(b, b', at[c], deps[i]);
        OrderedThrough(b', at[c], deps[i], id);
      }
    }
  }

  /** A new task as it should be keeps the build lawful. */
  lemma MarkLawful(plan: Plan, b: Build, b': Build, at: Labels, kind: TaskKind, d: Duty, deps: seq<nat>, id: nat)
    requires Lawful(plan, b, at) && DutyOk(plan, b, at, kind, d, deps)
    requires Grew(b, b') && Joined(b', deps, |deps|, id) && IsA(b', id, kind) && |b.role| <= id
    ensures Lawful(plan, b', Mark(at, d, id)) && Sub(at, Mark(at, d, id))
  {
    var at' := Mark(at, d, id);
    forall p | d.lo <= p < d.hi ensures LabelAt(d, p) !in at { assert LabelReady(plan, b, at, d, p, deps); }
    assert Sub(at, at');
    forall a | a in at' ensures OfPass(plan, a) && TaskOk(plan, b', at', a, at'[a]) {
      if Does(d, a) { NewTaskOk(plan, b, b', at, at', kind, d, a.p, deps, id); }
      else {
        assert TaskOk(plan, b, at, a, at[a]);
        TaskStays(plan, b, b', at, at', a, at[a]);
      }
    }
    forall a, c | a in at' && c in at' && at'[a] == at'[c] ensures SameTask(plan, a, c) {
      if !Does(d, a) { assert TaskOk(plan, b, at, a, at[a]); }
      if !Does(d, c) { assert TaskOk(plan, b, at, c, at[c]); }
    }
  }

  lemma NewSpread(plan: Plan, at: Labels, d: Duty, p: nat, id: nat)
    requires Wide(plan, d) && d.lo <= p < d.hi
    ensures Spread(plan, Mark(at, d, id), LabelAt(d, p), id)
  {
    var a, at' := LabelAt(d, p), Mark(at, d, id);
    if Shares(plan, d.part) {
      forall q: nat | q < plan.m ensures Elsewhere(a, q) in at' && at'[Elsewhere(a, q)] == id {
        assert Does(d, Elsewhere(a, q));
      }
    }
  }

  lemma NewTaskOk(plan: Plan, b: Build, b': Build, at: Labels, at': Labels, kind: TaskKind, d: Duty, p: nat,
                  deps: seq<nat>, id: nat)
    requires DutyOk(plan, b, at, kind, d, deps) && d.lo <= p < d.hi && at' == Mark(at, d, id) && Sub(at, at')
    requires Grew(b, b') && Joined(b', deps, |deps|, id) && IsA(b', id, kind)
    ensures OfPass(plan, LabelAt(d, p)) && TaskOk(plan, b', at', LabelAt(d, p), id)
  {
    var a := LabelAt(d, p);
    assert LabelReady(plan, b, at, d, p, deps);
    NewSpread(plan, at, d, p, id);
    forall k | 0 <= k < |NeedsOf(plan, a)| ensures Follows(plan, b', at', NeedsOf(plan, a)[k], id) {
      HeldFollows(plan, b, b', at, at', NeedsOf(plan, a)[k], deps, id);
    }
  }

  /** A task that is all of its part at its places covers them. */
  lemma MarkCovers(plan: Plan, b: Build, at: Labels, d: Duty, id: nat)
    requires IsReal(b, id) && Width(plan, d.part, d.l) == 1 && d.i == 0
    ensures Covers(plan, b, Mark(at, d, id), GroupOf(d), id)
  {
    forall c | InGroup(plan, GroupOf(d), c) ensures Reached(b, Mark(at, d, id), c, id) {
      assert Does(d, c) && c in Mark(at, d, id);
    }
  }

  // -------------------------------------------------------------- build order

  /** Nothing is marked yet from that point of the build on. */
  ghost predicate Reaches(at: Labels, l: nat, s: nat, p: nat, u: nat) {
    forall a {:trigger a in at} :: a in at ==> Earlier(a, l, s, p, u)
  }

  predicate OfGroup(g: Group, a: Label) {
    a.part == g.part && a.l == g.l && g.lo <= a.p < g.hi && g.from <= a.u < g.upto
  }

  /** Only labels of the group are new. */
  ghost predicate Gains(at: Labels, at': Labels, g: Group) {
    Sub(at, at') && forall a {:trigger a in at'} :: a in at' ==> a in at || OfGroup(g, a)
  }

  // ---------------------------------------------------------- loose ends

  /** A task nothing waits for yet. */
  ghost predicate Loose(b: Build, x: nat) { IsReal(b, x) && forall y: nat :: !Arc(b.req, x, y) }

  ghost function LooseEnds(b: Build): set<nat> { set x: nat | x < |b.role| && Loose(b, x) }

  /** b' is b with more tasks; those of `used` are waited for now, those of `outs` are new and are not. */
  ghost predicate Adds(b: Build, b': Build, used: set<nat>, outs: set<nat>) {
    && Grew(b, b') && LooseEnds(b') == LooseEnds(b) - used + outs
    && forall x :: x in outs ==> |b.role| <= x && IsReal(b', x)
  }

  lemma AddsNothing(b: Build)
    ensures Adds(b, b, {}, {})
  {}

  lemma OldEnds(b: Build, x: nat)
    requires x in LooseEnds(b)
    ensures x < |b.role|
  {}

  /** Two additions in a row; what the second uses of the first is no loose end any more. */
  lemma AddsThen(a: Build, b: Build, c: Build, u1: set<nat>, o1: set<nat>, u2: set<nat>, o2: set<nat>, u: set<nat>,
                 o: set<nat>)
    requires Adds(a, b, u1, o1) && Adds(b, c, u2, o2) && o == o1 - u2 + o2
    requires forall x :: x < |a.role| ==> (x in u <==> x in u1 || x in u2)
    ensures Adds(a, c, u, o)
  {
    GrewMore(a, b, c);
    forall x: nat ensures x in LooseEnds(a) - u1 + o1 - u2 + o2 <==> x in LooseEnds(a) - u + o {
      if x in LooseEnds(a) { OldEnds(a, x); }
    }
  }

  /** Everything the first leaves is used by the second. */
  lemma AddsAfter(a: Build, b: Build, c: Build, u: set<nat>, o1: set<nat>, o: set<nat>)
    requires Adds(a, b, u, o1) && Adds(b, c, o1, o)
    ensures Adds(a, c, u, o)
  {
    AddsThen(a, b, c, u, o1, o1, o, u, o);
  }

  /** Two additions that use only what was there before both. */
  lemma AddsBeside(a: Build, b: Build, c: Build, u1: set<nat>, o1: set<nat>, u2: set<nat>, o2: set<nat>)
    requires Adds(a, b, u1, o1) && Adds(b, c, u2, o2) && forall x :: x in u2 ==> x < |a.role|
    ensures Adds(a, c, u1 + u2, o1 + o2)
  {
    assert o1 + o2 == o1 - u2 + o2;
    AddsThen(a, b, c, u1, o1, u2, o2, u1 + u2, o1 + o2);
  }

  lemma RealAreOld(b: Build, xs: seq<nat>)
    requires AllReal(b, xs)
    ensures forall x :: x in Elems(xs) ==> x < |b.role|
  {
    forall x | x in Elems(xs) ensures x < |b.role| {
      var i :| 0 <= i < |xs| && xs[i] == x;
      assert IsReal(b, xs[i]);
    }
  }

  lemma OutsReal(b: Build, b': Build, used: set<nat>, ys: seq<nat>)
    requires Adds(b, b', used, Elems(ys))
    ensures AllReal(b', ys)
  {
    forall i | 0 <= i < |ys| ensures IsReal(b', ys[i]) { assert ys[i] in Elems(ys); }
  }

  lemma ElemsOne(x: nat)
    ensures Elems([x]) == {x}
  {}

  lemma ElemsTwo(x: nat, y: nat)
    ensures Elems([x, y]) == {x, y}
  {}

  lemma ElemsMore(xs: seq<nat>, x: nat)
    ensures Elems(xs + [x]) == Elems(xs) + {x}
  {}

  ghost predicate AllAreReal(b: Build, depss: seq<seq<nat>>) { forall p :: 0 <= p < |depss| ==> AllReal(b, depss[p]) }

  lemma AllAreRealStays(b: Build, b': Build, depss: seq<seq<nat>>)
    requires Grew(b, b') && AllAreReal(b, depss)
    ensures AllAreReal(b', depss)
  {
    forall p | 0 <= p < |depss| ensures AllReal(b', depss[p]) { AllRealStays(b, b', depss[p]); }
  }

  ghost function Flat(depss: seq<seq<nat>>): set<nat> { set p, x | 0 <= p < |depss| && x in depss[p] :: x }

  lemma FlatMore(depss: seq<seq<nat>>, n: nat)
    requires n < |depss|
    ensures Flat(depss[..n + 1]) == Flat(depss[..n]) + Elems(depss[n])
  {
    var s, t := depss[..n], depss[..n + 1];
    forall x ensures x in Flat(t) <==> x in Flat(s) || x in Elems(depss[n]) {
      if x in Flat(s) { var p :| 0 <= p < |s| && x in s[p]; assert x in t[p]; }
      if x in Elems(depss[n]) { assert x in t[n]; }
    }
  }

  /** What a step of the build does to the tasks nothing waits for yet. */
  ghost predicate Built(g: Builder, b: Build, used: set<nat>, outs: set<nat>)
    reads g, g.graph
  {
    g.Valid() && Adds(b, g.View(), used, outs)
  }

  /** The build is sound, and its labels are those of `at`. */
  ghost predicate Passing(g: Builder, plan: Plan, at: Labels)
    reads g, g.graph
  {
    g.Valid() && Lawful(plan, g.View(), at)
  }

  // ------------------------------------------------------------- the helpers

  /** add_op: one task below deps, for the labels of d. */
  method AddOp(g: Builder, kind: TaskKind, deps: seq<nat>, ghost plan: Plan, ghost d: Duty, ghost at: Labels)
    returns (r: Result<nat>)
    requires Passing(g, plan, at) && AllReal(g.View(), deps) && DutyOk(plan, g.View(), at, kind, d, deps)
    modifies g, g.graph
    ensures r.Ok? ==> Built(g, old(g.View()), Elems(deps), {r.value}) && r.value == |old(g.View()).g|
    ensures r.Ok? ==> Lawful(plan, g.View(), Mark(at, d, r.value)) && Sub(at, Mark(at, d, r.value))
    ensures r.Died? ==> r.why == FULL
  {
    ghost var b := g.View();
    BelowIs(b, kind, deps);
    r := g.AddOp(kind, deps);
    if r.Ok? {
      JoinedAdds(b, Below(b, kind, deps), deps, r.value);
      MarkLawful(plan, b, Below(b, kind, deps), at, kind, d, deps, r.value);
    }
  }

  lemma JoinedAdds(b: Build, b': Build, deps: seq<nat>, id: nat)
    requires GraphBuilder.Inv(b) && AllReal(b, deps) && Grew(b, b') && id == |b.g|
    requires Joined(b', deps, |deps|, id) && OnlyBelow(b, b', deps, id)
    ensures Adds(b, b', Elems(deps), {id})
  {
    RealAreOld(b, deps);
    forall y: nat ensures !Arc(b'.req, id, y) { assert id !in Elems(deps); }
    forall x: nat ensures x in LooseEnds(b') <==> x in LooseEnds(b) - Elems(deps) + {id} {
      if x in LooseEnds(b') && x != id { StillLoose(b, b', deps, id, x); }
      if x in LooseEnds(b) - Elems(deps) { assert IsReal(b', x); forall y: nat ensures !Arc(b'.req, x, y) {} }
    }
  }

  lemma StillLoose(b: Build, b': Build, deps: seq<nat>, id: nat, x: nat)
    requires Grew(b, b') && Joined(b', deps, |deps|, id) && OnlyBelow(b, b', deps, id) && Loose(b', x) && x != id
    ensures Loose(b, x) && x !in deps
  {
    forall y: nat ensures !Arc(b.req, x, y) { assert !Arc(b'.req, x, y); }
    forall i | 0 <= i < |deps| ensures deps[i] != x { assert !Arc(b'.req, x, id); }
  }

  /** add_op for a single label that is all of its part there. */
  method AddLabelled(g: Builder, kind: TaskKind, deps: seq<nat>, ghost plan: Plan, ghost d: Duty, ghost at: Labels)
    returns (r: Result<nat>, ghost at': Labels)
    requires Passing(g, plan, at) && AllReal(g.View(), deps) && DutyOk(plan, g.View(), at, kind, d, deps)
    requires Width(plan, d.part, d.l) == 1 && d.i == 0
    modifies g, g.graph
    ensures r.Ok? ==> Built(g, old(g.View()), Elems(deps), {r.value}) && |old(g.View()).g| <= r.value
    ensures r.Ok? ==> Lawful(plan, g.View(), at') && Gains(at, at', GroupOf(d))
    ensures r.Ok? ==> Covers(plan, g.View(), at', GroupOf(d), r.value)
    ensures r.Died? ==> r.why == FULL
  {
    at' := at;
    r := AddOp(g, kind, deps, plan, d, at);
    if r.Ok? {
      at' := Mark(at, d, r.value);
      MarkCovers(plan, g.View(), at, d, r.value);
    }
  }

  /** What is reached by one of deps is covered by whatever waits for all of deps. */
  ghost predicate Gathered(plan: Plan, b: Build, at: Labels, grp: Group, deps: seq<nat>) {
    forall c {:trigger InGroup(plan, grp, c)} :: InGroup(plan, grp, c) ==>
      exists i :: 0 <= i < |deps| && Reached(b, at, c, deps[i])
  }

  lemma GatheredCovers(plan: Plan, b: Build, b': Build, at: Labels, grp: Group, deps: seq<nat>, id: nat)
    requires Lawful(plan, b, at) && Gathered(plan, b, at, grp, deps) && AllReal(b, deps)
    requires Grew(b, b') && Joined(b', deps, |deps|, id)
    ensures Covers(plan, b', at, grp, id)
  {
    forall c | InGroup(plan, grp, c) ensures Reached(b', at, c, id) {
      var i :| 0 <= i < |deps| && Reached(b, at, c, deps[i]);
      assert IsReal(b, deps[i]) && Arc(b'.req, deps[i], id);
      ArcBefore(b'.req, deps[i], id);
      if at[c] != deps[i] {
        OrderedStays(b, b', at[c], deps[i]);
        OrderedThrough(b', at[c], deps[i], id);
      }
    }
  }

  /** fan_in: one carrier below all producers; it computes nothing and has no label. */
  method FanIn(g: Builder, deps: seq<nat>, ghost plan: Plan, ghost grp: Group, ghost at: Labels)
    returns (r: Result<nat>)
    requires Passing(g, plan, at) && AllReal(g.View(), deps) && Gathered(plan, g.View(), at, grp, deps)
    modifies g, g.graph
    ensures r.Ok? ==> Built(g, old(g.View()), Elems(deps), {r.value}) && |old(g.View()).g| <= r.value
    ensures r.Ok? ==> Lawful(plan, g.View(), at) && Covers(plan, g.View(), at, grp, r.value)
    ensures r.Died? ==> r.why == FULL
  {
    ghost var b := g.View();
    BelowIs(b, SIGNAL, deps);
    r := g.FanIn(deps);
    if r.Ok? {
      JoinedAdds(b, Below(b, SIGNAL, deps), deps, r.value);
      GatheredCovers(plan, b, Below(b, SIGNAL, deps), at, grp, deps, r.value);
      LawfulStays(plan, b, Below(b, SIGNAL, deps), at);
    }
  }

  // ------------------------------------------------------ later is still ready

  lemma ReadyStays(plan: Plan, b: Build, b': Build, at: Labels, at': Labels, a: Label, deps: seq<nat>)
    requires Grew(b, b') && Sub(at, at') && Ready(plan, b, at, a, deps)
    ensures Ready(plan, b', at', a, deps)
  {
    forall k | 0 <= k < |NeedsOf(plan, a)| ensures HeldBy(plan, b', at', NeedsOf(plan, a)[k], deps) {
      var i :| 0 <= i < |deps| && Covers(plan, b, at, NeedsOf(plan, a)[k], deps[i]);
      CoversStays(plan, b, b', at, at', NeedsOf(plan, a)[k], deps[i]);
    }
  }

  /** More producers do no harm. */
  lemma ReadyAmong(plan: Plan, b: Build, at: Labels, a: Label, few: seq<nat>, deps: seq<nat>)
    requires Ready(plan, b, at, a, few) && forall x :: x in few ==> x in deps
    ensures Ready(plan, b, at, a, deps)
  {
    forall k | 0 <= k < |NeedsOf(plan, a)| ensures HeldBy(plan, b, at, NeedsOf(plan, a)[k], deps) {
      var i :| 0 <= i < |few| && Covers(plan, b, at, NeedsOf(plan, a)[k], few[i]);
      assert few[i] in few;
      var j :| 0 <= j < |deps| && deps[j] == few[i];
    }
  }

  lemma CoversPart(plan: Plan, b: Build, at: Labels, g: Group, h: Group, x: nat)
    requires Covers(plan, b, at, g, x) && h.part == g.part && h.l == g.l
    requires g.lo <= h.lo && h.hi <= g.hi && g.from <= h.from && h.upto <= g.upto
    ensures Covers(plan, b, at, h, x)
  {
    forall c | InGroup(plan, h, c) ensures Reached(b, at, c, x) { assert InGroup(plan, g, c); }
  }

  // -------------------------------------------------------------- streamed dots

  /** Tile i of a product. */
  function Tile(d: Duty, i: nat): Duty { d.(i := i) }

  /** Every tile of a product, or every head of an attention, may be built below deps. */
  ghost predicate TilesOk(plan: Plan, b: Build, at: Labels, kind: TaskKind, d: Duty, deps: seq<nat>) {
    forall i: nat :: i < Width(plan, d.part, d.l) ==> DutyOk(plan, b, at, kind, Tile(d, i), deps)
  }

  /** The first n tiles are marked, tile i with ids[i], and nothing else is. */
  ghost predicate Tiled(at: Labels, at': Labels, d: Duty, ids: seq<nat>) {
    && Sub(at, at')
    && (forall a {:trigger a in at'} :: a in at' ==> a in at || (OfGroup(GroupOf(d), a) && a.i < |ids|))
    && forall a {:trigger a in at'} :: OfGroup(GroupOf(d), a) && a.i < |ids| ==> a in at' && at'[a] == ids[a.i]
  }

  lemma DutyStays(plan: Plan, b: Build, b': Build, at: Labels, at': Labels, kind: TaskKind, d: Duty, deps: seq<nat>)
    requires Grew(b, b') && Sub(at, at') && DutyOk(plan, b, at, kind, d, deps)
    requires forall p :: d.lo <= p < d.hi ==> LabelAt(d, p) !in at'
    ensures DutyOk(plan, b', at', kind, d, deps)
  {
    forall p | d.lo <= p < d.hi ensures LabelReady(plan, b', at', d, p, deps) {
      assert LabelReady(plan, b, at, d, p, deps);
      ReadyStays(plan, b, b', at, at', LabelAt(d, p), deps);
    }
  }

  /** The next tile is as ready as it was before the others. */
  lemma NextTileOk(plan: Plan, b: Build, was: Build, at: Labels, at1: Labels, kind: TaskKind, d: Duty, deps: seq<nat>,
                   ids: seq<nat>)
    requires TilesOk(plan, b, at, kind, d, deps) && |ids| < Width(plan, d.part, d.l)
    requires Grew(b, was) && Tiled(at, at1, d, ids)
    ensures DutyOk(plan, was, at1, kind, Tile(d, |ids|), deps)
  {
    var e := Tile(d, |ids|);
    assert DutyOk(plan, b, at, kind, e, deps);
    forall p | e.lo <= p < e.hi ensures LabelAt(e, p) !in at1 { assert LabelReady(plan, b, at, e, p, deps); }
    DutyStays(plan, b, was, at, at1, kind, e, deps);
  }

  lemma TiledMore(at: Labels, at1: Labels, d: Duty, ids: seq<nat>, id: nat)
    requires Tiled(at, at1, d, ids) && Sub(at1, Mark(at1, Tile(d, |ids|), id))
    ensures Tiled(at, Mark(at1, Tile(d, |ids|), id), d, ids + [id])
  {
    var e, at2 := Tile(d, |ids|), Mark(at1, Tile(d, |ids|), id);
    forall a | OfGroup(GroupOf(d), a) && a.i < |ids| + 1 ensures a in at2 && at2[a] == (ids + [id])[a.i] {
      if a.i < |ids| { assert a in at1; } else { assert Does(e, a); }
    }
    forall a | a in at2 ensures a in at || (OfGroup(GroupOf(d), a) && a.i < |ids| + 1) {
      if Does(e, a) { assert OfGroup(GroupOf(d), a); }
    }
  }

  /** The row tiles of a weight, or the heads of an attention: tasks with the same producers. */
  method Tiles(g: Builder, kind: TaskKind, deps: seq<nat>, tiles: Count, ghost plan: Plan, ghost d: Duty,
               ghost at: Labels)
    returns (r: Result<seq<nat>>, ghost at': Labels)
    requires Passing(g, plan, at) && AllReal(g.View(), deps) && TilesOk(plan, g.View(), at, kind, d, deps)
    requires tiles == Width(plan, d.part, d.l)
    modifies g, g.graph
    ensures r.Ok? ==> Built(g, old(g.View()), Elems(deps), Elems(r.value)) && |r.value| == tiles
    ensures r.Ok? ==> Lawful(plan, g.View(), at') && Tiled(at, at', d, r.value)
    ensures r.Died? ==> r.why == FULL
  {
    ghost var b := g.View();
    at' := at;
    var ids: seq<nat> := [];
    AddsNothing(b);
    for i := 0 to tiles
      invariant Built(g, b, if i == 0 then {} else Elems(deps), Elems(ids)) && AllReal(g.View(), deps) && |ids| == i
      invariant Lawful(plan, g.View(), at') && Tiled(at, at', d, ids)
    {
      ghost var was := g.View();
      NextTileOk(plan, b, was, at, at', kind, d, deps, ids);
      var id := AddOp(g, kind, deps, plan, Tile(d, i), at');
      if id.Died? { return Died(id.why), at'; }
      TiledMore(at, at', d, ids, id.value);
      TileAdded(b, was, g.View(), deps, ids, id.value);
      at' := Mark(at', Tile(d, i), id.value);
      ids := ids + [id.value];
    }
    r := Ok(ids);
  }

  /** One more tile: it waits for deps as the others do. */
  lemma TileAdded(b: Build, was: Build, now: Build, deps: seq<nat>, ids: seq<nat>, id: nat)
    requires AllReal(b, deps) && Adds(b, was, if ids == [] then {} else Elems(deps), Elems(ids))
    requires Adds(was, now, Elems(deps), {id}) && AllReal(was, deps)
    ensures Adds(b, now, Elems(deps), Elems(ids + [id])) && AllReal(now, deps)
  {
    var u := if ids == [] then {} else Elems(deps);
    RealAreOld(b, deps);
    AddsBeside(b, was, now, u, Elems(ids), Elems(deps), {id});
    assert u + Elems(deps) == Elems(deps);
    ElemsMore(ids, id);
    AllRealStays(was, now, deps);
  }

  lemma TiledGathered(plan: Plan, b: Build, at: Labels, at': Labels, d: Duty, ids: seq<nat>)
    requires Tiled(at, at', d, ids) && |ids| == Width(plan, d.part, d.l)
    ensures Gathered(plan, b, at', GroupOf(d), ids) && Gains(at, at', GroupOf(d))
  {
    forall c | InGroup(plan, GroupOf(d), c) ensures exists i :: 0 <= i < |ids| && Reached(b, at', c, ids[i]) {
      assert OfGroup(GroupOf(d), c) && c in at';
      assert Reached(b, at', c, ids[c.i]);
    }
  }

  lemma OneTileCovers(plan: Plan, b: Build, at: Labels, g: Group, x: nat)
    requires Gathered(plan, b, at, g, [x]) && IsReal(b, x)
    ensures Covers(plan, b, at, g, x)
  {
    forall c | InGroup(plan, g, c) ensures Reached(b, at, c, x) {
      var i :| 0 <= i < 1 && Reached(b, at, c, [x][i]);
    }
  }

  /**
    add_dot, and add_dot_m's multi-column form: row tiles that all wait for deps, and a
    carrier when there are several.
   */
  method AddDot(g: Builder, kind: TaskKind, deps: seq<nat>, tiles: Count, ghost plan: Plan, ghost d: Duty,
                ghost at: Labels)
    returns (r: Result<nat>, ghost at': Labels)
    requires Passing(g, plan, at) && AllReal(g.View(), deps) && TilesOk(plan, g.View(), at, kind, d, deps)
    requires tiles == Width(plan, d.part, d.l)
    modifies g, g.graph
    ensures r.Ok? ==> Built(g, old(g.View()), Elems(deps), {r.value})
    ensures r.Ok? ==> Lawful(plan, g.View(), at') && Gains(at, at', GroupOf(d))
    ensures r.Ok? ==> Covers(plan, g.View(), at', GroupOf(d), r.value)
    ensures r.Died? ==> r.why == FULL
  {
    ghost var b := g.View();
    var ids;
    ids, at' := Tiles(g, kind, deps, tiles, plan, d, at);
    if ids.Died? { return Died(ids.why), at'; }
    ghost var was := g.View();
    OutsReal(b, was, Elems(deps), ids.value);
    TiledGathered(plan, was, at, at', d, ids.value);
    if tiles == 1 {
      assert ids.value == [ids.value[0]] && IsReal(was, ids.value[0]);
      ElemsOne(ids.value[0]);
      OneTileCovers(plan, was, at', GroupOf(d), ids.value[0]);
      return Ok(ids.value[0]), at';
    }
    r := FanIn(g, ids.value, plan, GroupOf(d), at');
    if r.Ok? { AddsAfter(b, was, g.View(), Elems(deps), Elems(ids.value), {r.value}); }
  }

  // ------------------------------------------------------- position by position

  /** The producers of a part for the first positions. */
  ghost predicate Row(plan: Plan, b: Build, at: Labels, part: Part, l: nat, ys: seq<nat>) {
    forall p :: 0 <= p < |ys| ==> Covers(plan, b, at, At(part, l, p), ys[p])
  }

  /** What a part needs at every position is covered by the producers listed for it. */
  ghost predicate RowReady(plan: Plan, b: Build, at: Labels, part: Part, l: nat, depss: seq<seq<nat>>) {
    |depss| == plan.m && forall p :: 0 <= p < |depss| ==> PlaceReady(plan, b, at, part, l, p, depss[p])
  }

  ghost predicate PlaceReady(plan: Plan, b: Build, at: Labels, part: Part, l: nat, p: nat, deps: seq<nat>) {
    OfPass(plan, Label(part, l, p, 0, 0)) && Ready(plan, b, at, Label(part, l, p, 0, 0), deps)
  }

  /** None of the group is marked. */
  ghost predicate Fresh(at: Labels, g: Group) { forall a {:trigger a in at} :: a in at ==> !OfGroup(g, a) }

  lemma RowStays(plan: Plan, b: Build, b': Build, at: Labels, at': Labels, part: Part, l: nat, ys: seq<nat>)
    requires Grew(b, b') && Sub(at, at') && Row(plan, b, at, part, l, ys)
    ensures Row(plan, b', at', part, l, ys)
  {
    forall p | 0 <= p < |ys| ensures Covers(plan, b', at', At(part, l, p), ys[p]) {
      CoversStays(plan, b, b', at, at', At(part, l, p), ys[p]);
    }
  }

  lemma RowMore(plan: Plan, was: Build, now: Build, at: Labels, at': Labels, part: Part, l: nat, ys: seq<nat>, y: nat)
    requires Grew(was, now) && Sub(at, at') && Row(plan, was, at, part, l, ys)
    requires Covers(plan, now, at', At(part, l, |ys|), y)
    ensures Row(plan, now, at', part, l, ys + [y])
  {
    RowStays(plan, was, now, at, at', part, l, ys);
  }

  lemma GainsJoin(at: Labels, at1: Labels, at2: Labels, g1: Group, g2: Group, g: Group)
    requires Gains(at, at1, g1) && Gains(at1, at2, g2)
    requires forall a :: OfGroup(g1, a) || OfGroup(g2, a) ==> OfGroup(g, a)
    ensures Gains(at, at2, g)
  {}

  /** A product is ready when what it needs is, tile by tile. */
  lemma TilesAreOk(plan: Plan, b: Build, at: Labels, kind: TaskKind, d: Duty, deps: seq<nat>)
    requires Wide(plan, d) && kind == KindFor(d.part) && d.i == 0
    requires Fresh(at, GroupOf(d))
    requires forall p :: d.lo <= p < d.hi ==> OfPass(plan, LabelAt(d, p)) && Ready(plan, b, at, LabelAt(d, p), deps)
    ensures TilesOk(plan, b, at, kind, d, deps)
  {
    forall i: nat | i < Width(plan, d.part, d.l) ensures DutyOk(plan, b, at, kind, Tile(d, i), deps) {
      forall p | d.lo <= p < d.hi ensures LabelReady(plan, b, at, Tile(d, i), p, deps) {
        var a := LabelAt(Tile(d, i), p);
        assert OfPass(plan, LabelAt(d, p));
        assert OfGroup(GroupOf(d), a);
        NeedsOfTile(plan, LabelAt(d, p), i);
        assert Ready(plan, b, at, LabelAt(d, p), deps);
      }
    }
  }

  lemma OneDotIsOk(plan: Plan, b: Build, at: Labels, part: Part, l: nat, p: nat, deps: seq<nat>)
    requires IsDot(part) && KindFor(part) == STREAM_DOT && Fresh(at, At(part, l, p))
    requires Shares(plan, part) ==> plan.m == 1
    requires PlaceReady(plan, b, at, part, l, p, deps)
    ensures TilesOk(plan, b, at, STREAM_DOT, One(part, l, p), deps)
  {
    var d := One(part, l, p);
    forall q | d.lo <= q < d.hi ensures OfPass(plan, LabelAt(d, q)) && Ready(plan, b, at, LabelAt(d, q), deps) {
      assert q == p;
    }
    TilesAreOk(plan, b, at, STREAM_DOT, d, deps);
  }

  lemma NeedsOfTile(plan: Plan, a: Label, i: nat)
    ensures NeedsOf(plan, a.(i := i)) == NeedsOf(plan, a)
  {}

  /** stage_dot: one tile set for all positions, or one each. */
  method StageDot(g: Builder, multicol: bool, deps: seq<nat>, tiles: Count, ghost plan: Plan, ghost part: Part,
                  ghost l: nat, ghost at: Labels)
    returns (r: Result<seq<nat>>, ghost at': Labels)
    requires Passing(g, plan, at) && AllReal(g.View(), deps) && IsDot(part) && KindFor(part) == STREAM_DOT
    requires RowReady(plan, g.View(), at, part, l, Singles(deps)) && Fresh(at, First(part, l, plan.m))
    requires tiles == Width(plan, part, l) && multicol == plan.multicol && !IsRouted(part)
    modifies g, g.graph
    ensures r.Ok? ==> Built(g, old(g.View()), Elems(deps), Elems(r.value)) && |r.value| == |deps|
    ensures r.Ok? ==> Lawful(plan, g.View(), at') && Gains(at, at', First(part, l, plan.m))
    ensures r.Ok? ==> Row(plan, g.View(), at', part, l, r.value)
    ensures r.Died? ==> r.why == FULL
  {
    if multicol && |deps| > 1 {
      ghost var d := Duty(part, l, 0, plan.m, 0, 0);
      AllReady(plan, g.View(), at, part, l, deps);
      TilesAreOk(plan, g.View(), at, STREAM_DOT, d, deps);
      var one;
      one, at' := AddDot(g, STREAM_DOT, deps, tiles, plan, d, at);
      if one.Died? { return Died(one.why), at'; }
      r := Ok(Copies(one.value, |deps|));
      CopiesElems(one.value, |deps|);
      CopiesRow(plan, g.View(), at', part, l, one.value);
    } else {
      r, at' := EachDot(g, deps, tiles, plan, part, l, at);
    }
  }

  function Copies(id: nat, n: nat): (r: seq<nat>)
    ensures |r| == n && forall p :: 0 <= p < n ==> r[p] == id
  {
    seq(n, p => id)
  }

  lemma CopiesElems(id: nat, n: nat)
    requires 0 < n
    ensures Elems(Copies(id, n)) == {id}
  {
    assert Copies(id, n)[0] == id;
  }

  lemma CopiesRow(plan: Plan, b: Build, at: Labels, part: Part, l: nat, id: nat)
    requires Covers(plan, b, at, First(part, l, plan.m), id)
    ensures Row(plan, b, at, part, l, Copies(id, plan.m))
  {
    forall p: nat | p < plan.m ensures Covers(plan, b, at, At(part, l, p), id) {
      CoversPart(plan, b, at, First(part, l, plan.m), At(part, l, p), id);
    }
  }

  lemma AllReady(plan: Plan, b: Build, at: Labels, part: Part, l: nat, deps: seq<nat>)
    requires RowReady(plan, b, at, part, l, Singles(deps))
    ensures forall p :: 0 <= p < plan.m ==>
      OfPass(plan, Label(part, l, p, 0, 0)) && Ready(plan, b, at, Label(part, l, p, 0, 0), deps)
  {
    forall p | 0 <= p < plan.m
      ensures OfPass(plan, Label(part, l, p, 0, 0)) && Ready(plan, b, at, Label(part, l, p, 0, 0), deps)
    {
      assert PlaceReady(plan, b, at, part, l, p, Singles(deps)[p]);
      assert Singles(deps)[p] == [deps[p]];
      ReadyAmong(plan, b, at, Label(part, l, p, 0, 0), [deps[p]], deps);
    }
  }

  function Singles(xs: seq<nat>): (r: seq<seq<nat>>)
    ensures |r| == |xs|
  {
    seq(|xs|, p requires 0 <= p < |xs| => [xs[p]])
  }

  method EachDot(g: Builder, deps: seq<nat>, tiles: Count, ghost plan: Plan, ghost part: Part, ghost l: nat,
                 ghost at: Labels)
    returns (r: Result<seq<nat>>, ghost at': Labels)
    requires Passing(g, plan, at) && AllReal(g.View(), deps) && IsDot(part) && KindFor(part) == STREAM_DOT
    requires RowReady(plan, g.View(), at, part, l, Singles(deps)) && Fresh(at, First(part, l, plan.m))
    requires tiles == Width(plan, part, l) && (Shares(plan, part) ==> plan.m == 1)
    modifies g, g.graph
    ensures r.Ok? ==> Built(g, old(g.View()), Elems(deps), Elems(r.value)) && |r.value| == |deps|
    ensures r.Ok? ==> Lawful(plan, g.View(), at') && Gains(at, at', First(part, l, plan.m))
    ensures r.Ok? ==> Row(plan, g.View(), at', part, l, r.value)
    ensures r.Died? ==> r.why == FULL
  {
    ghost var b := g.View();
    at' := at;
    var sig: seq<nat> := [];
    AddsNothing(b);
    for p := 0 to |deps|
      invariant Passing(g, plan, at') && |sig| == p && DotsDone(plan, b, g.View(), at, at', part, l, deps, sig)
    {
      var one;
      one, at' := NextDot(g, deps, tiles, sig, plan, part, l, b, at, at');
      if one.Died? { return Died(one.why), at'; }
      sig := sig + [one.value];
    }
    assert deps[..|deps|] == deps;
    r := Ok(sig);
  }

  method NextDot(g: Builder, deps: seq<nat>, tiles: Count, sig: seq<nat>, ghost plan: Plan, ghost part: Part,
                 ghost l: nat, ghost b: Build, ghost at: Labels, ghost at1: Labels)
    returns (one: Result<nat>, ghost at2: Labels)
    requires Passing(g, plan, at1) && |sig| < |deps| && DotsDone(plan, b, g.View(), at, at1, part, l, deps, sig)
    requires AllReal(b, deps) && IsDot(part) && KindFor(part) == STREAM_DOT && tiles == Width(plan, part, l)
    requires Shares(plan, part) ==> plan.m == 1
    requires RowReady(plan, b, at, part, l, Singles(deps)) && Fresh(at, First(part, l, plan.m))
    modifies g, g.graph
    ensures one.Ok? ==> Passing(g, plan, at2) && DotsDone(plan, b, g.View(), at, at2, part, l, deps, sig + [one.value])
    ensures one.Died? ==> one.why == FULL
  {
    ghost var was, p := g.View(), |sig|;
    NextDotOk(plan, b, was, at, at1, part, l, deps, sig);
    one, at2 := AddDot(g, STREAM_DOT, [deps[|sig|]], tiles, plan, One(part, l, p), at1);
    if one.Ok? { DotsMore(plan, b, was, g.View(), at, at1, at2, part, l, deps, sig, one.value); }
  }

  /** The dots of the first |sig| positions. */
  ghost predicate DotsDone(plan: Plan, b: Build, now: Build, at: Labels, at1: Labels, part: Part, l: nat,
                           deps: seq<nat>,
                           sig: seq<nat>) {
    && |sig| <= |deps| && Adds(b, now, Elems(deps[..|sig|]), Elems(sig)) && AllReal(now, deps)
    && Gains(at, at1, First(part, l, |sig|)) && Row(plan, now, at1, part, l, sig)
  }

  lemma NextDotOk(plan: Plan, b: Build, was: Build, at: Labels, at1: Labels, part: Part, l: nat, deps: seq<nat>,
                  sig: seq<nat>)
    requires DotsDone(plan, b, was, at, at1, part, l, deps, sig) && |sig| < |deps|
    requires IsDot(part) && KindFor(part) == STREAM_DOT && (Shares(plan, part) ==> plan.m == 1)
    requires RowReady(plan, b, at, part, l, Singles(deps)) && Fresh(at, First(part, l, plan.m))
    ensures TilesOk(plan, was, at1, STREAM_DOT, One(part, l, |sig|), [deps[|sig|]])
    ensures AllReal(was, [deps[|sig|]])
  {
    var p := |sig|;
    assert Singles(deps)[p] == [deps[p]];
    PlaceThere(plan, b, was, at, at1, part, l, p, Singles(deps));
    StillFresh(plan, at, at1, part, l, p);
    OneDotIsOk(plan, was, at1, part, l, p, [deps[p]]);
  }

  lemma DotsMore(plan: Plan, b: Build, was: Build, now: Build, at: Labels, at1: Labels, at2: Labels, part: Part, l: nat,
                 deps: seq<nat>, sig: seq<nat>, id: nat)
    requires DotsDone(plan, b, was, at, at1, part, l, deps, sig) && |sig| < |deps| && AllReal(b, deps)
    requires Adds(was, now, Elems([deps[|sig|]]), {id}) && Gains(at1, at2, At(part, l, |sig|))
    requires Covers(plan, now, at2, At(part, l, |sig|), id)
    ensures DotsDone(plan, b, now, at, at2, part, l, deps, sig + [id])
  {
    var p := |sig|;
    AddsOne(b, was, now, deps, sig, id);
    GainsJoin(at, at1, at2, First(part, l, p), At(part, l, p), First(part, l, p + 1));
    RowMore(plan, was, now, at1, at2, part, l, sig, id);
  }

  lemma PlaceThere(plan: Plan, b: Build, b': Build, at: Labels, at': Labels, part: Part, l: nat, p: nat,
                   depss: seq<seq<nat>>)
    requires Grew(b, b') && Sub(at, at') && RowReady(plan, b, at, part, l, depss) && p < |depss|
    ensures PlaceReady(plan, b', at', part, l, p, depss[p])
  {
    assert PlaceReady(plan, b, at, part, l, p, depss[p]);
    PlaceStays(plan, b, b', at, at', part, l, p, depss[p]);
  }

  /** The earlier positions leave the next one free. */
  lemma StillFresh(plan: Plan, at: Labels, at1: Labels, part: Part, l: nat, p: nat)
    requires Fresh(at, First(part, l, plan.m)) && Gains(at, at1, First(part, l, p)) && p < plan.m
    ensures Fresh(at1, At(part, l, p))
  {}

  lemma PlaceStays(plan: Plan, b: Build, b': Build, at: Labels, at': Labels, part: Part, l: nat, p: nat, deps: seq<nat>)
    requires Grew(b, b') && Sub(at, at') && PlaceReady(plan, b, at, part, l, p, deps)
    ensures PlaceReady(plan, b', at', part, l, p, deps)
  {
    ReadyStays(plan, b, b', at, at', Label(part, l, p, 0, 0), deps);
  }

  /** One more position of a stage. */
  lemma AddsOne(b: Build, was: Build, now: Build, deps: seq<nat>, ys: seq<nat>, y: nat)
    requires |ys| < |deps| && AllReal(b, deps) && AllReal(was, deps)
    requires Adds(b, was, Elems(deps[..|ys|]), Elems(ys)) && Adds(was, now, Elems([deps[|ys|]]), {y})
    ensures Adds(b, now, Elems(deps[..|ys| + 1]), Elems(ys + [y])) && AllReal(now, deps)
  {
    var n := |ys|;
    ElemsOne(deps[n]);
    assert IsReal(b, deps[n]);
    AddsBeside(b, was, now, Elems(deps[..n]), Elems(ys), {deps[n]}, {y});
    assert deps[..n + 1] == deps[..n] + [deps[n]];
    ElemsMore(deps[..n], deps[n]);
    ElemsMore(ys, y);
    AllRealStays(was, now, deps);
  }

  // ------------------------------------------------- an op and its quantization

  /** Only labels of the two groups are new. */
  ghost predicate GainsTwo(at: Labels, at': Labels, g: Group, h: Group) {
    Sub(at, at') && forall a {:trigger a in at'} :: a in at' ==> a in at || OfGroup(g, a) || OfGroup(h, a)
  }

  /** The one task of `quant` at d's place quantizes what d computes. */
  predicate Quantizes(plan: Plan, d: Duty, quant: Part) {
    && d.hi == d.lo + 1 && d.i == 0 && quant != d.part && KindFor(quant) == ACT_Q8 && !IsDot(d.part)
    && Width(plan, d.part, d.l) == 1 == Width(plan, quant, d.l)
    && var a := LabelAt(d.(part := quant), d.lo); OfPass(plan, a) && NeedsOf(plan, a) == [GroupOf(d)]
  }

  /** add_op, then its ACT_Q8. */
  method QuantizedOp(g: Builder, kind: TaskKind, deps: seq<nat>, ghost plan: Plan, ghost d: Duty, ghost quant: Part,
                     ghost at: Labels)
    returns (r: Result<nat>, ghost at': Labels)
    requires Passing(g, plan, at) && AllReal(g.View(), deps) && DutyOk(plan, g.View(), at, kind, d, deps)
    requires Quantizes(plan, d, quant) && LabelAt(d.(part := quant), d.lo) !in at
    modifies g, g.graph
    ensures r.Ok? ==> Built(g, old(g.View()), Elems(deps), {r.value})
    ensures r.Ok? ==> Lawful(plan, g.View(), at') && GainsTwo(at, at', GroupOf(d), GroupOf(d.(part := quant)))
    ensures r.Ok? ==> Covers(plan, g.View(), at', GroupOf(d.(part := quant)), r.value)
    ensures r.Died? ==> r.why == FULL
  {
    ghost var b := g.View();
    r, at' := AddLabelled(g, kind, deps, plan, d, at);
    if r.Died? { return; }
    ghost var was, op := g.View(), r.value;
    QuantOk(plan, was, at, at', d, quant, op);
    r, at' := AddLabelled(g, ACT_Q8, [r.value], plan, d.(part := quant), at');
    if r.Died? { return; }
    ElemsOne(op);
    AddsAfter(b, was, g.View(), Elems(deps), {op}, {r.value});
  }

  lemma QuantOk(plan: Plan, b: Build, at: Labels, at1: Labels, d: Duty, quant: Part, op: nat)
    requires Quantizes(plan, d, quant) && LabelAt(d.(part := quant), d.lo) !in at
    requires Gains(at, at1, GroupOf(d)) && Covers(plan, b, at1, GroupOf(d), op)
    ensures DutyOk(plan, b, at1, ACT_Q8, d.(part := quant), [op]) && AllReal(b, [op])
  {
    var q := d.(part := quant);
    forall p | q.lo <= p < q.hi ensures LabelReady(plan, b, at1, q, p, [op]) {
      assert p == d.lo;
      assert [op][0] == op;
      assert HeldBy(plan, b, at1, GroupOf(d), [op]);
    }
  }

  /** The quantized op of the first |ys| positions. */
  ghost predicate PairsDone(plan: Plan, b: Build, now: Build, at: Labels, at1: Labels, part: Part, quant: Part, l: nat,
                            depss: seq<seq<nat>>, ys: seq<nat>) {
    && |ys| <= |depss| && Adds(b, now, Flat(depss[..|ys|]), Elems(ys)) && AllAreReal(now, depss)
    && GainsTwo(at, at1, First(part, l, |ys|), First(quant, l, |ys|)) && Row(plan, now, at1, quant, l, ys)
    && Rising(ys, |now.role|)
  }

  /** In increasing order, all older than hi. */
  predicate Rising(ys: seq<nat>, hi: nat) {
    (forall p :: 0 <= p < |ys| ==> ys[p] < hi) && forall p, q :: 0 <= p < q < |ys| ==> ys[p] < ys[q]
  }

  lemma RisingMore(was: Build, now: Build, used: set<nat>, ys: seq<nat>, y: nat)
    requires Rising(ys, |was.role|) && Adds(was, now, used, {y})
    ensures Rising(ys + [y], |now.role|)
  {
    assert y in {y} && IsReal(now, y);
  }

  /** Nothing of either part is marked, and at each place the second quantizes the first. */
  ghost predicate PairReady(plan: Plan, b: Build, at: Labels, part: Part, quant: Part, l: nat, depss: seq<seq<nat>>) {
    && RowReady(plan, b, at, part, l, depss) && AllAreReal(b, depss)
    && Fresh(at, First(part, l, plan.m)) && Fresh(at, First(quant, l, plan.m))
    && forall p: nat {:trigger One(part, l, p)} :: p < plan.m ==> Quantizes(plan, One(part, l, p), quant)
  }

  lemma NextPairOk(plan: Plan, b: Build, was: Build, at: Labels, at1: Labels, kind: TaskKind, part: Part, quant: Part,
                   l: nat, depss: seq<seq<nat>>, ys: seq<nat>)
    requires PairsDone(plan, b, was, at, at1, part, quant, l, depss, ys) && |ys| < |depss|
    requires PairReady(plan, b, at, part, quant, l, depss) && kind == KindFor(part)
    ensures var d := One(part, l, |ys|);
            && DutyOk(plan, was, at1, kind, d, depss[|ys|]) && AllReal(was, depss[|ys|])
            && Quantizes(plan, d, quant) && LabelAt(d.(part := quant), |ys|) !in at1
  {
    var p, d := |ys|, One(part, l, |ys|);
    assert Quantizes(plan, d, quant);
    PlaceThere(plan, b, was, at, at1, part, l, p, depss);
    PairFresh(plan, at, at1, part, quant, l, p);
    PlaceDuty(plan, was, at1, kind, part, l, p, depss[p]);
  }

  /** The earlier positions leave the next one free, in both parts. */
  lemma PairFresh(plan: Plan, at: Labels, at1: Labels, part: Part, quant: Part, l: nat, p: nat)
    requires Fresh(at, First(part, l, plan.m)) && Fresh(at, First(quant, l, plan.m)) && p < plan.m && part != quant
    requires GainsTwo(at, at1, First(part, l, p), First(quant, l, p))
    ensures Label(part, l, p, 0, 0) !in at1 && Label(quant, l, p, 0, 0) !in at1
  {
    assert OfGroup(First(part, l, plan.m), Label(part, l, p, 0, 0));
    assert OfGroup(First(quant, l, plan.m), Label(quant, l, p, 0, 0));
  }

  lemma PlaceDuty(plan: Plan, b: Build, at: Labels, kind: TaskKind, part: Part, l: nat, p: nat, deps: seq<nat>)
    requires PlaceReady(plan, b, at, part, l, p, deps) && Label(part, l, p, 0, 0) !in at && kind == KindFor(part)
    requires !IsDot(part)
    ensures DutyOk(plan, b, at, kind, One(part, l, p), deps)
  {
    var d := One(part, l, p);
    forall q | d.lo <= q < d.hi ensures LabelReady(plan, b, at, d, q, deps) { assert q == p; }
  }

  lemma PairsMore(plan: Plan, b: Build, was: Build, now: Build, at: Labels, at1: Labels, at2: Labels, part: Part,
                  quant: Part, l: nat, depss: seq<seq<nat>>, ys: seq<nat>, y: nat)
    requires PairsDone(plan, b, was, at, at1, part, quant, l, depss, ys) && |ys| < |depss| && AllAreReal(b, depss)
    requires Adds(was, now, Elems(depss[|ys|]), {y}) && GainsTwo(at1, at2, At(part, l, |ys|), At(quant, l, |ys|))
    requires Covers(plan, now, at2, At(quant, l, |ys|), y)
    ensures PairsDone(plan, b, now, at, at2, part, quant, l, depss, ys + [y])
  {
    ChainAdds(b, was, now, depss, ys, y);
    AllAreRealStays(was, now, depss);
    RisingMore(was, now, Elems(depss[|ys|]), ys, y);
    RowMore(plan, was, now, at1, at2, quant, l, ys, y);
  }

  lemma ChainAdds(b: Build, was: Build, now: Build, depss: seq<seq<nat>>, ys: seq<nat>, y: nat)
    requires AllAreReal(b, depss) && |ys| < |depss|
    requires Adds(b, was, Flat(depss[..|ys|]), Elems(ys)) && Adds(was, now, Elems(depss[|ys|]), {y})
    ensures Adds(b, now, Flat(depss[..|ys| + 1]), Elems(ys + [y]))
  {
    var n := |ys|;
    assert AllReal(b, depss[n]);
    RealAreOld(b, depss[n]);
    AddsBeside(b, was, now, Flat(depss[..n]), Elems(ys), Elems(depss[n]), {y});
    FlatMore(depss, n);
    ElemsMore(ys, y);
  }

  method NextQuantized(g: Builder, kind: TaskKind, depss: seq<seq<nat>>, ys: seq<nat>, ghost plan: Plan,
                       ghost part: Part, ghost quant: Part, ghost l: nat, ghost b: Build, ghost at: Labels,
                       ghost at1: Labels)
    returns (one: Result<nat>, ghost at2: Labels)
    requires Passing(g, plan, at1) && |ys| < |depss| && kind == KindFor(part)
    requires PairsDone(plan, b, g.View(), at, at1, part, quant, l, depss, ys)
    requires PairReady(plan, b, at, part, quant, l, depss)
    modifies g, g.graph
    ensures one.Ok? ==>
      Passing(g, plan, at2) && PairsDone(plan, b, g.View(), at, at2, part, quant, l, depss, ys + [one.value])
    ensures one.Died? ==> one.why == FULL
  {
    ghost var was, p := g.View(), |ys|;
    NextPairOk(plan, b, was, at, at1, kind, part, quant, l, depss, ys);
    one, at2 := QuantizedOp(g, kind, depss[|ys|], plan, One(part, l, p), quant, at1);
    if one.Ok? { PairsMore(plan, b, was, g.View(), at, at1, at2, part, quant, l, depss, ys, one.value); }
  }

  /** The same op and its quantization for every position. */
  method EachQuantized(g: Builder, kind: TaskKind, depss: seq<seq<nat>>, ghost plan: Plan, ghost part: Part,
                       ghost quant: Part, ghost l: nat, ghost at: Labels)
    returns (r: Result<seq<nat>>, ghost at': Labels)
    requires Passing(g, plan, at) && kind == KindFor(part) && PairReady(plan, g.View(), at, part, quant, l, depss)
    modifies g, g.graph
    ensures r.Ok? ==> Built(g, old(g.View()), Flat(depss), Elems(r.value)) && |r.value| == |depss|
    ensures r.Ok? ==> Lawful(plan, g.View(), at') && Row(plan, g.View(), at', quant, l, r.value)
    ensures r.Ok? ==> GainsTwo(at, at', First(part, l, plan.m), First(quant, l, plan.m))
    ensures r.Ok? ==> Distinct(r.value)
    ensures r.Died? ==> r.why == FULL
  {
    ghost var b := g.View();
    at' := at;
    var ys: seq<nat> := [];
    AddsNothing(b);
    assert Flat(depss[..0]) == {} == Elems(ys);
    for p := 0 to |depss|
      invariant Passing(g, plan, at') && |ys| == p
      invariant PairsDone(plan, b, g.View(), at, at', part, quant, l, depss, ys)
    {
      var one;
      one, at' := NextQuantized(g, kind, depss, ys, plan, part, quant, l, b, at, at');
      if one.Died? { return Died(one.why), at'; }
      ys := ys + [one.value];
    }
    assert depss[..|depss|] == depss;
    r := Ok(ys);
  }

  lemma FlatSingles(xs: seq<nat>)
    ensures Flat(Singles(xs)) == Elems(xs)
  {
    forall x ensures x in Flat(Singles(xs)) <==> x in Elems(xs) {
      if x in Elems(xs) { var p :| 0 <= p < |xs| && xs[p] == x; assert x in Singles(xs)[p]; }
    }
  }

  function Pairs(xs: seq<nat>, ys: seq<nat>): (r: seq<seq<nat>>)
    requires |xs| == |ys|
    ensures |r| == |xs|
  {
    seq(|xs|, p requires 0 <= p < |xs| => [xs[p], ys[p]])
  }

  lemma FlatPairs(xs: seq<nat>, ys: seq<nat>)
    requires |xs| == |ys|
    ensures Flat(Pairs(xs, ys)) == Elems(xs) + Elems(ys)
  {
    forall x ensures x in Flat(Pairs(xs, ys)) <==> x in Elems(xs) || x in Elems(ys) {
      if x in Elems(xs) { var p :| 0 <= p < |xs| && xs[p] == x; assert x in Pairs(xs, ys)[p]; }
      if x in Elems(ys) { var p :| 0 <= p < |ys| && ys[p] == x; assert x in Pairs(xs, ys)[p]; }
    }
  }

  // ------------------------------------------------------------ one op each

  /** One op for the first |ys| positions. */
  ghost predicate OpsDone(plan: Plan, b: Build, now: Build, at: Labels, at1: Labels, part: Part, l: nat,
                          depss: seq<seq<nat>>, ys: seq<nat>) {
    && |ys| <= |depss| && Adds(b, now, Flat(depss[..|ys|]), Elems(ys)) && AllAreReal(now, depss)
    && Gains(at, at1, First(part, l, |ys|)) && Row(plan, now, at1, part, l, ys)
  }

  ghost predicate OpReady(plan: Plan, b: Build, at: Labels, part: Part, l: nat, depss: seq<seq<nat>>) {
    && RowReady(plan, b, at, part, l, depss) && AllAreReal(b, depss) && Fresh(at, First(part, l, plan.m))
    && Width(plan, part, l) == 1 && !IsDot(part)
  }

  lemma NextOpOk(plan: Plan, b: Build, was: Build, at: Labels, at1: Labels, kind: TaskKind, part: Part, l: nat,
                 depss: seq<seq<nat>>, ys: seq<nat>)
    requires OpsDone(plan, b, was, at, at1, part, l, depss, ys) && |ys| < |depss|
    requires OpReady(plan, b, at, part, l, depss) && kind == KindFor(part)
    ensures DutyOk(plan, was, at1, kind, One(part, l, |ys|), depss[|ys|]) && AllReal(was, depss[|ys|])
  {
    var p := |ys|;
    PlaceThere(plan, b, was, at, at1, part, l, p, depss);
    StillFresh(plan, at, at1, part, l, p);
    assert OfGroup(At(part, l, p), Label(part, l, p, 0, 0));
    PlaceDuty(plan, was, at1, kind, part, l, p, depss[p]);
  }

  lemma OpsMore(plan: Plan, b: Build, was: Build, now: Build, at: Labels, at1: Labels, at2: Labels, part: Part, l: nat,
                depss: seq<seq<nat>>, ys: seq<nat>, y: nat)
    requires OpsDone(plan, b, was, at, at1, part, l, depss, ys) && |ys| < |depss| && AllAreReal(b, depss)
    requires Adds(was, now, Elems(depss[|ys|]), {y}) && Gains(at1, at2, At(part, l, |ys|))
    requires Covers(plan, now, at2, At(part, l, |ys|), y)
    ensures OpsDone(plan, b, now, at, at2, part, l, depss, ys + [y])
  {
    ChainAdds(b, was, now, depss, ys, y);
    AllAreRealStays(was, now, depss);
    GainsJoin(at, at1, at2, First(part, l, |ys|), At(part, l, |ys|), First(part, l, |ys| + 1));
    RowMore(plan, was, now, at1, at2, part, l, ys, y);
  }

  method NextOp(g: Builder, kind: TaskKind, depss: seq<seq<nat>>, ys: seq<nat>, ghost plan: Plan, ghost part: Part,
                ghost l: nat, ghost b: Build, ghost at: Labels, ghost at1: Labels)
    returns (one: Result<nat>, ghost at2: Labels)
    requires Passing(g, plan, at1) && |ys| < |depss| && kind == KindFor(part)
    requires OpsDone(plan, b, g.View(), at, at1, part, l, depss, ys) && OpReady(plan, b, at, part, l, depss)
    modifies g, g.graph
    ensures one.Ok? ==> Passing(g, plan, at2) && OpsDone(plan, b, g.View(), at, at2, part, l, depss, ys + [one.value])
    ensures one.Died? ==> one.why == FULL
  {
    ghost var was, p := g.View(), |ys|;
    NextOpOk(plan, b, was, at, at1, kind, part, l, depss, ys);
    one, at2 := AddLabelled(g, kind, depss[|ys|], plan, One(part, l, p), at1);
    if one.Ok? { OpsMore(plan, b, was, g.View(), at, at1, at2, part, l, depss, ys, one.value); }
  }

  /** The same op for every position. */
  method EachOp(g: Builder, kind: TaskKind, depss: seq<seq<nat>>, ghost plan: Plan, ghost part: Part, ghost l: nat,
                ghost at: Labels)
    returns (r: Result<seq<nat>>, ghost at': Labels)
    requires Passing(g, plan, at) && kind == KindFor(part) && OpReady(plan, g.View(), at, part, l, depss)
    modifies g, g.graph
    ensures r.Ok? ==> Built(g, old(g.View()), Flat(depss), Elems(r.value)) && |r.value| == |depss|
    ensures r.Ok? ==> Lawful(plan, g.View(), at') && Row(plan, g.View(), at', part, l, r.value)
    ensures r.Ok? ==> Gains(at, at', First(part, l, plan.m))
    ensures r.Died? ==> r.why == FULL
  {
    ghost var b := g.View();
    at' := at;
    var ys: seq<nat> := [];
    AddsNothing(b);
    assert Flat(depss[..0]) == {} == Elems(ys);
    for p := 0 to |depss|
      invariant Passing(g, plan, at') && |ys| == p && OpsDone(plan, b, g.View(), at, at', part, l, depss, ys)
    {
      var one;
      one, at' := NextOp(g, kind, depss, ys, plan, part, l, b, at, at');
      if one.Died? { return Died(one.why), at'; }
      ys := ys + [one.value];
    }
    assert depss[..|depss|] == depss;
    r := Ok(ys);
  }

  // --------------------------------------------------------- what a row waits for

  /** At every position, the part needs just one other. */
  ghost predicate Takes(plan: Plan, part: Part, src: Part, l: nat) {
    forall p: nat {:trigger At(src, l, p)} :: p < plan.m ==>
      OfPass(plan, Label(part, l, p, 0, 0)) && NeedsOf(plan, Label(part, l, p, 0, 0)) == [At(src, l, p)]
  }

  lemma TakesReady(plan: Plan, b: Build, at: Labels, part: Part, src: Part, l: nat, xs: seq<nat>)
    requires Takes(plan, part, src, l) && Row(plan, b, at, src, l, xs) && |xs| == plan.m
    ensures RowReady(plan, b, at, part, l, Singles(xs))
  {
    forall p | 0 <= p < |xs| ensures PlaceReady(plan, b, at, part, l, p, Singles(xs)[p]) {
      assert Covers(plan, b, at, At(src, l, p), xs[p]);
      assert Singles(xs)[p][0] == xs[p];
      assert HeldBy(plan, b, at, At(src, l, p), Singles(xs)[p]);
    }
  }

  lemma SinglesReal(b: Build, xs: seq<nat>)
    requires AllReal(b, xs)
    ensures AllAreReal(b, Singles(xs))
  {
    forall p | 0 <= p < |xs| ensures AllReal(b, Singles(xs)[p]) { assert IsReal(b, xs[p]); }
  }

  lemma RowReal(plan: Plan, b: Build, at: Labels, part: Part, l: nat, ys: seq<nat>)
    requires Row(plan, b, at, part, l, ys)
    ensures AllReal(b, ys)
  {
    forall p | 0 <= p < |ys| ensures IsReal(b, ys[p]) { assert Covers(plan, b, at, At(part, l, p), ys[p]); }
  }

  // -------------------------------------------------------- stage after stage

  lemma ReachesFresh(at: Labels, l: nat, s: nat, part: Part, n: nat)
    requires Reaches(at, l, s, 0, 0) && s <= StageOf(part)
    ensures Fresh(at, First(part, l, n))
  {}

  lemma GainsReaches(at: Labels, at': Labels, g: Group, l: nat, s: nat, s': nat)
    requires Reaches(at, l, s, 0, 0) && Gains(at, at', g) && g.l == l && StageOf(g.part) < s' && s <= s'
    ensures Reaches(at', l, s', 0, 0)
  {}

  lemma GainsTwoReaches(at: Labels, at': Labels, g: Group, h: Group, l: nat, s: nat, s': nat)
    requires Reaches(at, l, s, 0, 0) && GainsTwo(at, at', g, h) && g.l == l == h.l && s <= s'
    requires StageOf(g.part) < s' && StageOf(h.part) < s'
    ensures Reaches(at', l, s', 0, 0)
  {}
}
