/** The stages of a layer (src/model/decoder.cpp, build_graph_m): attention, and the feed-forward of either kind. */
module LayerStages {
  import opened GraphBuilder
  import opened GraphOps
  import opened PassLabels
  import opened PortedGraph
  import opened Results
  import opened TaskGraph
  import opened TaskTable
  import opened TaskTypes

  // ------------------------------------------------------------- projections

  /** What layer l starts from: nothing below the first, else the merges of the layer below. */
  ghost predicate ResOk(plan: Plan, b: Build, at: Labels, l: nat, res: seq<nat>) {
    AllReal(b, res) && |res| == (if l == 0 then 0 else plan.m) && Row(plan, b, at, Merge, Under(l), res)
  }

  /** The layer below; none below the first. */
  function Under(l: nat): nat { if l == 0 then 0 else l - 1 }

  lemma ResStays(plan: Plan, b: Build, b': Build, at: Labels, at': Labels, l: nat, res: seq<nat>)
    requires Grew(b, b') && Sub(at, at') && ResOk(plan, b, at, l, res)
    ensures ResOk(plan, b', at', l, res)
  {
    AllRealStays(b, b', res);
    RowStays(plan, b, b', at, at', Merge, Under(l), res);
  }

  /** The producers of the residual, position by position. */
  function ResDeps(res: seq<nat>, m: nat): (r: seq<seq<nat>>)
    requires res == [] || |res| == m
    ensures |r| == m
  {
    if res == [] then seq(m, p => []) else Singles(res)
  }

  lemma ResDepsAre(b: Build, res: seq<nat>, m: nat)
    requires (res == [] || |res| == m) && AllReal(b, res)
    ensures AllAreReal(b, ResDeps(res, m)) && Flat(ResDeps(res, m)) == Elems(res)
  {
    if res == [] {
      assert Flat(ResDeps(res, m)) == {};
    } else {
      SinglesReal(b, res);
      FlatSingles(res);
    }
  }

  /** What a norm of the residual needs. */
  lemma NormNeeds(plan: Plan, part: Part, l: nat, p: nat)
    requires (part == Norm && l < plan.layers) || (part == OutNorm && l == plan.layers)
    requires p < plan.m
    ensures OfPass(plan, Label(part, l, p, 0, 0)) && NeedsOf(plan, Label(part, l, p, 0, 0)) == Residual(l, p)
  {}

  /** A norm of the residual is ready below the residual's producers. */
  lemma NormReady(plan: Plan, b: Build, at: Labels, part: Part, l: nat, res: seq<nat>)
    requires ResOk(plan, b, at, l, res)
    requires (part == Norm && l < plan.layers) || (part == OutNorm && l == plan.layers)
    ensures RowReady(plan, b, at, part, l, ResDeps(res, plan.m))
  {
    forall p: nat | p < plan.m ensures PlaceReady(plan, b, at, part, l, p, ResDeps(res, plan.m)[p]) {
      NormNeeds(plan, part, l, p);
      if l > 0 { ResHeld(plan, b, at, l, res, p, [res[p]]); }
    }
  }

  lemma ResHeld(plan: Plan, b: Build, at: Labels, l: nat, res: seq<nat>, p: nat, deps: seq<nat>)
    requires ResOk(plan, b, at, l, res) && 0 < l && p < plan.m && res[p] in deps
    ensures HeldBy(plan, b, at, At(Merge, l - 1, p), deps)
  {
    assert Covers(plan, b, at, At(Merge, l - 1, p), res[p]);
    var i :| 0 <= i < |deps| && deps[i] == res[p];
  }

  lemma PairIs(plan: Plan, part: Part, quant: Part, l: nat)
    requires (part == Norm && quant == NormQ && l < plan.layers)
      || (part == KeyNorm && quant == KeyNormQ && l < plan.layers)
      || (part == Silu && quant == SiluQ && l < plan.layers)
          || (part == OutNorm && quant == OutNormQ && l == plan.layers)
    ensures forall p: nat {:trigger One(part, l, p)} :: p < plan.m ==> Quantizes(plan, One(part, l, p), quant)
  {}

  /** Stage A: the norms that open a layer, or the head. */
  method Norms(g: Builder, plan: Plan, res: seq<nat>, ghost part: Part, ghost quant: Part, ghost l: nat,
               ghost at: Labels)
    returns (r: Result<seq<nat>>, ghost at': Labels)
    requires Passing(g, plan, at) && ResOk(plan, g.View(), at, l, res) && Reaches(at, l, 0, 0, 0)
    requires (part == Norm && quant == NormQ && l < plan.layers)
      || (part == OutNorm && quant == OutNormQ && l == plan.layers)
    modifies g, g.graph
    ensures r.Ok? ==> Built(g, old(g.View()), Elems(res), Elems(r.value)) && |r.value| == plan.m
    ensures r.Ok? ==> Lawful(plan, g.View(), at') && Sub(at, at') && Reaches(at', l, 1, 0, 0)
    ensures r.Ok? ==> Row(plan, g.View(), at', quant, l, r.value) && Distinct(r.value)
    ensures r.Died? ==> r.why == FULL
  {
    ghost var b := g.View();
    ResDepsAre(b, res, plan.m);
    NormReady(plan, b, at, part, l, res);
    PairIs(plan, part, quant, l);
    ReachesFresh(at, l, 0, part, plan.m);
    ReachesFresh(at, l, 0, quant, plan.m);
    r, at' := EachQuantized(g, RMSNORM, ResDeps(res, plan.m), plan, part, quant, l, at);
    if r.Ok? { NormsReach(plan, part, quant, l, at, at'); }
  }

  lemma NormsReach(plan: Plan, part: Part, quant: Part, l: nat, at: Labels, at': Labels)
    requires (part == Norm && quant == NormQ) || (part == OutNorm && quant == OutNormQ)
    requires Reaches(at, l, 0, 0, 0) && GainsTwo(at, at', First(part, l, plan.m), First(quant, l, plan.m))
    ensures Sub(at, at') && Reaches(at', l, 1, 0, 0)
  {
    GainsTwoReaches(at, at', First(part, l, plan.m), First(quant, l, plan.m), l, 0, 1);
  }

  /** The parts that wait for one other part of their position. */
  predicate WaitsFor(part: Part, src: Part) {
    || (part == Query && src == NormQ) || (part == KeyValueA && src == NormQ) || (part == KeyNorm && src == KeyValueA)
    || (part == KeyValueB && src == KeyNormQ) || (part == AttnOut && src == HeadQ) || (part == Gate && src == FfnNormQ)
    || (part == Up && src == FfnNormQ) || (part == Down && src == SiluQ)
  }

  lemma TakesOne(plan: Plan, part: Part, src: Part, l: nat)
    requires l < plan.layers && WaitsFor(part, src)
    ensures Takes(plan, part, src, l)
  {
    forall p: nat | p < plan.m
      ensures OfPass(plan, Label(part, l, p, 0, 0)) && NeedsOf(plan, Label(part, l, p, 0, 0)) == [At(src, l, p)]
    {
      match part
      case Query =>
      case KeyValueA =>
      case KeyNorm =>
      case KeyValueB =>
      case AttnOut =>
      case Gate =>
      case Up =>
      case Down =>
    }
  }

  /** stage_dot of a part that waits for one other. */
  method Stage(g: Builder, plan: Plan, deps: seq<nat>, tiles: Count, ghost part: Part, ghost src: Part, ghost l: nat,
               ghost s: nat, ghost at: Labels)
    returns (r: Result<seq<nat>>, ghost at': Labels)
    requires Passing(g, plan, at) && l < plan.layers && WaitsFor(part, src) && IsDot(part)
    requires |deps| == plan.m && Row(plan, g.View(), at, src, l, deps) && tiles == plan.tiles(l, part)
    requires s == StageOf(part) && Reaches(at, l, s, 0, 0)
    modifies g, g.graph
    ensures r.Ok? ==> Built(g, old(g.View()), Elems(deps), Elems(r.value)) && |r.value| == plan.m
    ensures r.Ok? ==> Lawful(plan, g.View(), at') && Sub(at, at') && Reaches(at', l, s + 1, 0, 0)
    ensures r.Ok? ==> Row(plan, g.View(), at', part, l, r.value)
    ensures r.Died? ==> r.why == FULL
  {
    RowReal(plan, g.View(), at, src, l, deps);
    TakesOne(plan, part, src, l);
    TakesReady(plan, g.View(), at, part, src, l, deps);
    ReachesFresh(at, l, s, part, plan.m);
    r, at' := StageDot(g, plan.multicol, deps, tiles, plan, part, l, at);
    if r.Ok? { GainsReaches(at, at', First(part, l, plan.m), l, s, s + 1); }
  }

  /** What stages A to D leave to attend with. */
  ghost predicate Projected(plan: Plan, b: Build, now: Build, at: Labels, l: nat, res: seq<nat>, sq: seq<nat>,
                            skva: seq<nat>, skvb: seq<nat>) {
    && Adds(b, now, Elems(res), Elems(sq) + Elems(skvb)) && |sq| == |skva| == |skvb| == plan.m
    && Row(plan, now, at, Query, l, sq) && Row(plan, now, at, KeyValueA, l, skva)
        && Row(plan, now, at, KeyValueB, l, skvb)
    && forall x :: x in Elems(skva) ==> |b.role| <= x && x !in LooseEnds(now)
  }

  /** Stage C: the norms of the compressed keys. */
  method KeyNorms(g: Builder, plan: Plan, kva: seq<nat>, ghost l: nat, ghost at: Labels)
    returns (r: Result<seq<nat>>, ghost at': Labels)
    requires Passing(g, plan, at) && l < plan.layers && |kva| == plan.m && Row(plan, g.View(), at, KeyValueA, l, kva)
    requires Reaches(at, l, 3, 0, 0)
    modifies g, g.graph
    ensures r.Ok? ==> Built(g, old(g.View()), Elems(kva), Elems(r.value)) && |r.value| == plan.m
    ensures r.Ok? ==> Lawful(plan, g.View(), at') && Sub(at, at') && Reaches(at', l, 4, 0, 0)
    ensures r.Ok? ==> Row(plan, g.View(), at', KeyNormQ, l, r.value)
    ensures r.Died? ==> r.why == FULL
  {
    ghost var b := g.View();
    RowReal(plan, b, at, KeyValueA, l, kva);
    SinglesReal(b, kva);
    FlatSingles(kva);
    TakesOne(plan, KeyNorm, KeyValueA, l);
    TakesReady(plan, b, at, KeyNorm, KeyValueA, l, kva);
    PairIs(plan, KeyNorm, KeyNormQ, l);
    ReachesFresh(at, l, 3, KeyNorm, plan.m);
    ReachesFresh(at, l, 3, KeyNormQ, plan.m);
    r, at' := EachQuantized(g, RMSNORM, Singles(kva), plan, KeyNorm, KeyNormQ, l, at);
    if r.Ok? { GainsTwoReaches(at, at', First(KeyNorm, l, plan.m), First(KeyNormQ, l, plan.m), l, 3, 4); }
  }

  /** Two stage_dots with the same producers. */
  method TwoStages(g: Builder, plan: Plan, xs: seq<nat>, tiles: Count, tiles2: Count, ghost part: Part,
                   ghost part2: Part,
                   ghost src: Part, ghost l: nat, ghost s: nat, ghost at: Labels)
    returns (r: Result<seq<nat>>, zs: seq<nat>, ghost at': Labels)
    requires Passing(g, plan, at) && l < plan.layers && |xs| == plan.m && Row(plan, g.View(), at, src, l, xs)
    requires WaitsFor(part, src) && WaitsFor(part2, src) && IsDot(part) && IsDot(part2)
    requires tiles == plan.tiles(l, part) && tiles2 == plan.tiles(l, part2)
    requires s == StageOf(part) && s + 1 == StageOf(part2) && Reaches(at, l, s, 0, 0)
    modifies g, g.graph
    ensures r.Ok? ==> Built(g, old(g.View()), Elems(xs), Elems(r.value) + Elems(zs)) && |r.value| == |zs| == plan.m
    ensures r.Ok? ==> Elems(r.value) !! Elems(zs)
    ensures r.Ok? ==> Row(plan, g.View(), at', part, l, r.value) && Row(plan, g.View(), at', part2, l, zs)
    ensures r.Ok? ==> Lawful(plan, g.View(), at') && Sub(at, at') && Reaches(at', l, s + 2, 0, 0)
    ensures r.Died? ==> r.why == FULL
  {
    ghost var b := g.View();
    zs := [];
    ghost var at1;
    r, at1 := Stage(g, plan, xs, tiles, part, src, l, s, at);
    if r.Died? { return r, [], at; }
    ghost var b1 := g.View();
    RowStays(plan, b, b1, at, at1, src, l, xs);
    var second;
    second, at' := Stage(g, plan, xs, tiles2, part2, src, l, s + 1, at1);
    if second.Died? { return second, [], at; }
    zs := second.value;
    RowStays(plan, b1, g.View(), at1, at', part, l, r.value);
    RowReal(plan, b, at, src, l, xs);
    BothOf(b, b1, g.View(), xs, r.value, zs);
  }

  /** Two stages with the same producers. */
  lemma BothOf(b: Build, b1: Build, b2: Build, xs: seq<nat>, ys: seq<nat>, zs: seq<nat>)
    requires Adds(b, b1, Elems(xs), Elems(ys)) && Adds(b1, b2, Elems(xs), Elems(zs)) && AllReal(b, xs)
    ensures Adds(b, b2, Elems(xs), Elems(ys) + Elems(zs)) && Elems(ys) !! Elems(zs)
  {
    OutsReal(b, b1, Elems(xs), ys);
    RealAreOld(b1, ys);
    RealAreOld(b, xs);
    AddsBeside(b, b1, b2, Elems(xs), Elems(ys), Elems(xs), Elems(zs));
    assert Elems(xs) + Elems(xs) == Elems(xs);
  }

  /** Stages A and B: the norms, the query and the compressed keys. */
  method Queries(g: Builder, plan: Plan, res: seq<nat>, l: nat, ghost at: Labels)
    returns (r: Result<seq<nat>>, skva: seq<nat>, ghost at': Labels)
    requires Passing(g, plan, at) && ResOk(plan, g.View(), at, l, res) && Reaches(at, l, 0, 0, 0) && l < plan.layers
    modifies g, g.graph
    ensures r.Ok? ==> Built(g, old(g.View()), Elems(res), Elems(r.value) + Elems(skva)) && |r.value| == |skva| == plan.m
    ensures r.Ok? ==> Elems(r.value) !! Elems(skva)
    ensures r.Ok? ==> Row(plan, g.View(), at', Query, l, r.value) && Row(plan, g.View(), at', KeyValueA, l, skva)
    ensures r.Ok? ==> Lawful(plan, g.View(), at') && Sub(at, at') && Reaches(at', l, 3, 0, 0)
    ensures r.Died? ==> r.why == FULL
  {
    ghost var b := g.View();
    var aq;
    aq, at' := Norms(g, plan, res, Norm, NormQ, l, at);
    if aq.Died? { return aq, [], at; }
    ghost var b1 := g.View();
    r, skva, at' := TwoStages(g, plan, aq.value, plan.tiles(l, Query), plan.tiles(l, KeyValueA), Query, KeyValueA,
        NormQ, l, 1,
                              at');
    if r.Ok? { AddsAfter(b, b1, g.View(), Elems(res), Elems(aq.value), Elems(r.value) + Elems(skva)); }
  }

  /** Stages C and D: the expanded keys and values. */
  method KeyValues(g: Builder, plan: Plan, skva: seq<nat>, l: nat, ghost at: Labels)
    returns (r: Result<seq<nat>>, ghost at': Labels)
    requires Passing(g, plan, at) && l < plan.layers && |skva| == plan.m && Row(plan, g.View(), at, KeyValueA, l, skva)
    requires Reaches(at, l, 3, 0, 0)
    modifies g, g.graph
    ensures r.Ok? ==> Built(g, old(g.View()), Elems(skva), Elems(r.value)) && |r.value| == plan.m
    ensures r.Ok? ==> Row(plan, g.View(), at', KeyValueB, l, r.value)
    ensures r.Ok? ==> Lawful(plan, g.View(), at') && Sub(at, at') && Reaches(at', l, 5, 0, 0)
    ensures r.Died? ==> r.why == FULL
  {
    ghost var b := g.View();
    var kq;
    kq, at' := KeyNorms(g, plan, skva, l, at);
    if kq.Died? { return kq, at; }
    ghost var b1 := g.View();
    r, at' := Stage(g, plan, kq.value, plan.tiles(l, KeyValueB), KeyValueB, KeyNormQ, l, 4, at');
    if r.Ok? { AddsAfter(b, b1, g.View(), Elems(skva), Elems(kq.value), Elems(r.value)); }
  }

  /** Stages A to D: norms, query and key-value projections. */
  method Projections(g: Builder, plan: Plan, res: seq<nat>, l: nat, ghost at: Labels)
    returns (r: Result<seq<nat>>, skva: seq<nat>, skvb: seq<nat>, ghost at': Labels)
    requires Passing(g, plan, at) && ResOk(plan, g.View(), at, l, res) && Reaches(at, l, 0, 0, 0) && l < plan.layers
    modifies g, g.graph
    ensures r.Ok? ==> g.Valid() && Projected(plan, old(g.View()), g.View(), at', l, res, r.value, skva, skvb)
    ensures r.Ok? ==> Lawful(plan, g.View(), at') && Sub(at, at') && Reaches(at', l, 5, 0, 0)
    ensures r.Died? ==> r.why == FULL
  {
    ghost var b := g.View();
    skvb := [];
    ghost var at1;
    r, skva, at1 := Queries(g, plan, res, l, at);
    if r.Died? { return r, [], [], at; }
    ghost var b1 := g.View();
    var kvb;
    kvb, at' := KeyValues(g, plan, skva, l, at1);
    if kvb.Died? { return kvb, [], [], at; }
    skvb := kvb.value;
    RowStays(plan, b1, g.View(), at1, at', Query, l, r.value);
    RowStays(plan, b1, g.View(), at1, at', KeyValueA, l, skva);
    ProjectionsAdd(b, b1, g.View(), Elems(res), r.value, skva, skvb);
  }

  lemma ProjectionsAdd(b: Build, b1: Build, b2: Build, used: set<nat>, sq: seq<nat>, skva: seq<nat>, skvb: seq<nat>)
    requires Adds(b, b1, used, Elems(sq) + Elems(skva)) && Adds(b1, b2, Elems(skva), Elems(skvb))
    requires Elems(sq) !! Elems(skva)
    ensures Adds(b, b2, used, Elems(sq) + Elems(skvb))
    ensures forall x :: x in Elems(skva) ==> |b.role| <= x && x !in LooseEnds(b2)
  {
    assert Elems(sq) + Elems(skva) - Elems(skva) + Elems(skvb) == Elems(sq) + Elems(skvb);
    AddsThen(b, b1, b2, used, Elems(sq) + Elems(skva), Elems(skva), Elems(skvb), used, Elems(sq) + Elems(skvb));
    forall x | x in Elems(skva) ensures |b.role| <= x && x !in LooseEnds(b2) {
      assert x in Elems(sq) + Elems(skva) && x < |b1.role|;
    }
  }

  // --------------------------------------------------------------- attention

  /** A single task that needs one group, or two. */
  lemma OneNeed(plan: Plan, b: Build, at: Labels, kind: TaskKind, d: Duty, g: Group, x: nat)
    requires d.hi == d.lo + 1 && !IsDot(d.part) && kind == KindFor(d.part)
    requires OfPass(plan, LabelAt(d, d.lo)) && LabelAt(d, d.lo) !in at
    requires NeedsOf(plan, LabelAt(d, d.lo)) == [g] && Covers(plan, b, at, g, x)
    ensures DutyOk(plan, b, at, kind, d, [x]) && AllReal(b, [x])
  {
    assert [x][0] == x;
    assert HeldBy(plan, b, at, g, [x]);
    forall p | d.lo <= p < d.hi ensures LabelReady(plan, b, at, d, p, [x]) { assert p == d.lo; }
  }

  lemma TwoNeeds(plan: Plan, b: Build, at: Labels, kind: TaskKind, d: Duty, g: Group, h: Group, x: nat, y: nat)
    requires d.hi == d.lo + 1 && !IsDot(d.part) && kind == KindFor(d.part)
    requires OfPass(plan, LabelAt(d, d.lo)) && LabelAt(d, d.lo) !in at
    requires NeedsOf(plan, LabelAt(d, d.lo)) == [g, h] && Covers(plan, b, at, g, x) && Covers(plan, b, at, h, y)
    ensures DutyOk(plan, b, at, kind, d, [x, y]) && AllReal(b, [x, y])
  {
    BothHeld(plan, b, at, g, h, x, y);
    forall p | d.lo <= p < d.hi ensures LabelReady(plan, b, at, d, p, [x, y]) { assert p == d.lo; }
  }

  lemma BothHeld(plan: Plan, b: Build, at: Labels, g: Group, h: Group, x: nat, y: nat)
    requires Covers(plan, b, at, g, x) && Covers(plan, b, at, h, y)
    ensures HeldBy(plan, b, at, g, [x, y]) && HeldBy(plan, b, at, h, [x, y]) && AllReal(b, [x, y])
  {
    assert [x, y][0] == x && [x, y][1] == y;
  }

  // The labels of stage E and what they need.

  lemma QueryRopeNeeds(plan: Plan, l: nat, p: nat)
    requires Place(plan, l, p)
    ensures OfPass(plan, Label(QueryRope, l, p, 0, 0))
      && NeedsOf(plan, Label(QueryRope, l, p, 0, 0)) == [At(Query, l, p)]
  {}

  lemma KeyRopeNeeds(plan: Plan, l: nat, p: nat)
    requires Place(plan, l, p)
    ensures OfPass(plan, Label(KeyRope, l, p, 0, 0))
      && NeedsOf(plan, Label(KeyRope, l, p, 0, 0)) == [At(KeyValueA, l, p)]
  {}

  lemma AppendNeeds(plan: Plan, l: nat, p: nat)
    requires Place(plan, l, p)
    ensures OfPass(plan, Label(Append, l, p, 0, 0))
    ensures NeedsOf(plan, Label(Append, l, p, 0, 0)) == [At(KeyValueB, l, p), At(KeyRope, l, p)]
  {}

  lemma HeadNeeds(plan: Plan, l: nat, p: nat)
    requires Place(plan, l, p)
    ensures OfPass(plan, Label(Head, l, p, 0, 0))
    ensures NeedsOf(plan, Label(Head, l, p, 0, 0)) == [At(QueryRope, l, p), First(Append, l, p + 1)]
  {}

  lemma HeadQNeeds(plan: Plan, l: nat, p: nat)
    requires Place(plan, l, p)
    ensures OfPass(plan, Label(HeadQ, l, p, 0, 0)) && NeedsOf(plan, Label(HeadQ, l, p, 0, 0)) == [At(Head, l, p)]
  {}

  /** A place of the pass: position p of layer l. */
  predicate Place(plan: Plan, l: nat, p: nat) { l < plan.layers && p < plan.m }

  /** The rotated key and the append. */
  method AppendRow(g: Builder, skva: nat, skvb: nat, ghost plan: Plan, ghost l: nat, ghost p: nat, ghost at: Labels)
    returns (r: Result<nat>, ghost at': Labels)
    requires Passing(g, plan, at) && Place(plan, l, p)
    requires Covers(plan, g.View(), at, At(KeyValueA, l, p), skva)
      && Covers(plan, g.View(), at, At(KeyValueB, l, p), skvb)
    requires Label(KeyRope, l, p, 0, 0) !in at && Label(Append, l, p, 0, 0) !in at
    modifies g, g.graph
    ensures r.Ok? ==> Built(g, old(g.View()), {skva, skvb}, {r.value}) && |old(g.View()).role| <= r.value
    ensures r.Ok? ==> Lawful(plan, g.View(), at') && GainsTwo(at, at', At(KeyRope, l, p), At(Append, l, p))
    ensures r.Ok? ==> Covers(plan, g.View(), at', At(Append, l, p), r.value)
    ensures r.Died? ==> r.why == FULL
  {
    ghost var b := g.View();
    var rk;
    KeyRopeReady(plan, b, at, l, p, skva);
    rk, at' := AddLabelled(g, ROPE_DS2, [skva], plan, One(KeyRope, l, p), at);
    if rk.Died? { return rk, at; }
    ghost var was, at1 := g.View(), at';
    AppendReady(plan, b, was, at, at1, l, p, skvb, rk.value);
    r, at' := AddLabelled(g, KV_APPEND, [skvb, rk.value], plan, One(Append, l, p), at1);
    if r.Ok? {
      RowAdded(b, was, g.View(), skva, skvb, rk.value, r.value);
      GainsBoth(at, at1, at', At(KeyRope, l, p), At(Append, l, p));
    }
  }

  lemma KeyRopeReady(plan: Plan, b: Build, at: Labels, l: nat, p: nat, skva: nat)
    requires Place(plan, l, p) && Covers(plan, b, at, At(KeyValueA, l, p), skva) && Label(KeyRope, l, p, 0, 0) !in at
    ensures DutyOk(plan, b, at, ROPE_DS2, One(KeyRope, l, p), [skva]) && AllReal(b, [skva])
      && Width(plan, KeyRope, l) == 1
  {
    KeyRopeNeeds(plan, l, p);
    OneNeed(plan, b, at, ROPE_DS2, One(KeyRope, l, p), At(KeyValueA, l, p), skva);
  }

  lemma AppendReady(plan: Plan, b: Build, was: Build, at: Labels, at1: Labels, l: nat, p: nat, skvb: nat, rk: nat)
    requires Place(plan, l, p) && Grew(b, was) && Gains(at, at1, At(KeyRope, l, p)) && Label(Append, l, p, 0, 0) !in at
    requires Covers(plan, b, at, At(KeyValueB, l, p), skvb) && Covers(plan, was, at1, At(KeyRope, l, p), rk)
    ensures DutyOk(plan, was, at1, KV_APPEND, One(Append, l, p), [skvb, rk]) && AllReal(was, [skvb, rk])
    ensures Width(plan, Append, l) == 1
  {
    AppendNeeds(plan, l, p);
    CoversStays(plan, b, was, at, at1, At(KeyValueB, l, p), skvb);
    TwoNeeds(plan, was, at1, KV_APPEND, One(Append, l, p), At(KeyValueB, l, p), At(KeyRope, l, p), skvb, rk);
  }

  lemma RowAdded(b: Build, was: Build, now: Build, skva: nat, skvb: nat, rk: nat, a: nat)
    requires IsReal(b, skva) && IsReal(b, skvb)
    requires Adds(b, was, Elems([skva]), {rk}) && Adds(was, now, Elems([skvb, rk]), {a})
    ensures Adds(b, now, {skva, skvb}, {a}) && |b.role| <= a
  {
    ElemsOne(skva);
    ElemsTwo(skvb, rk);
    AddsThen(b, was, now, {skva}, {rk}, {skvb, rk}, {a}, {skva, skvb}, {a});
  }

  /** Joins position p's append to the chain. */
  method JoinChain(g: Builder, a: nat, first: bool, cum0: nat, ghost plan: Plan, ghost l: nat, ghost p: nat,
                   ghost at: Labels)
    returns (cum: Result<nat>)
    requires Passing(g, plan, at) && Covers(plan, g.View(), at, At(Append, l, p), a) && (first <==> p == 0)
    requires !first ==> Covers(plan, g.View(), at, First(Append, l, p), cum0)
    modifies g, g.graph
    ensures cum.Ok? ==> Passing(g, plan, at) && Covers(plan, g.View(), at, First(Append, l, p + 1), cum.value)
    ensures cum.Ok? && first ==> g.View() == old(g.View()) && cum.value == a
    ensures cum.Ok? && !first ==> Built(g, old(g.View()), {cum0, a}, {cum.value})
    ensures cum.Died? ==> cum.why == FULL
  {
    if first { return Ok(a); }
    ghost var b := g.View();
    AppendsGathered(plan, b, at, l, p, cum0, a);
    cum := FanIn(g, [cum0, a], plan, First(Append, l, p + 1), at);
    ElemsTwo(cum0, a);
  }

  lemma AppendsGathered(plan: Plan, b: Build, at: Labels, l: nat, p: nat, cum0: nat, a: nat)
    requires Covers(plan, b, at, First(Append, l, p), cum0) && Covers(plan, b, at, At(Append, l, p), a)
    ensures Gathered(plan, b, at, First(Append, l, p + 1), [cum0, a]) && AllReal(b, [cum0, a])
  {
    var both, all := [cum0, a], First(Append, l, p + 1);
    forall c | InGroup(plan, all, c) ensures exists i :: 0 <= i < |both| && Reached(b, at, c, both[i]) {
      if c.p < p {
        assert InGroup(plan, First(Append, l, p), c);
        assert Reached(b, at, c, both[0]);
      } else {
        assert InGroup(plan, At(Append, l, p), c);
        assert Reached(b, at, c, both[1]);
      }
    }
  }

  lemma HeadsReady(plan: Plan, b: Build, at: Labels, l: nat, p: nat, rq: nat, cum: nat)
    requires Place(plan, l, p) && Fresh(at, At(Head, l, p))
    requires Covers(plan, b, at, At(QueryRope, l, p), rq) && Covers(plan, b, at, First(Append, l, p + 1), cum)
    ensures TilesOk(plan, b, at, ATTN_HEAD, One(Head, l, p), [rq, cum]) && AllReal(b, [rq, cum])
  {
    var d := One(Head, l, p);
    HeadNeeds(plan, l, p);
    BothHeld(plan, b, at, At(QueryRope, l, p), First(Append, l, p + 1), rq, cum);
    forall q | d.lo <= q < d.hi ensures OfPass(plan, LabelAt(d, q)) && Ready(plan, b, at, LabelAt(d, q), [rq, cum]) {
      assert q == p;
    }
    TilesAreOk(plan, b, at, ATTN_HEAD, d, [rq, cum]);
  }

  /** Position p's attention heads, gathered. */
  method Heads(g: Builder, rq: nat, cum: nat, nh: Count, ghost plan: Plan, ghost l: nat, ghost p: nat, ghost at: Labels)
    returns (r: Result<nat>, ghost at': Labels)
    requires Passing(g, plan, at) && Place(plan, l, p) && nh == plan.heads && Fresh(at, At(Head, l, p))
    requires Covers(plan, g.View(), at, At(QueryRope, l, p), rq)
      && Covers(plan, g.View(), at, First(Append, l, p + 1), cum)
    modifies g, g.graph
    ensures r.Ok? ==> Built(g, old(g.View()), {rq, cum}, {r.value})
    ensures r.Ok? ==> Lawful(plan, g.View(), at') && Gains(at, at', At(Head, l, p))
    ensures r.Ok? ==> Covers(plan, g.View(), at', At(Head, l, p), r.value)
    ensures r.Died? ==> r.why == FULL
  {
    ghost var b := g.View();
    HeadsReady(plan, b, at, l, p, rq, cum);
    var hs;
    hs, at' := Tiles(g, ATTN_HEAD, [rq, cum], nh, plan, One(Head, l, p), at);
    if hs.Died? { return Died(hs.why), at'; }
    ghost var b1 := g.View();
    OutsReal(b, b1, Elems([rq, cum]), hs.value);
    TiledGathered(plan, b1, at, at', One(Head, l, p), hs.value);
    r := FanIn(g, hs.value, plan, At(Head, l, p), at');
    if r.Ok? {
      ElemsTwo(rq, cum);
      AddsAfter(b, b1, g.View(), {rq, cum}, Elems(hs.value), {r.value});
    }
  }

  lemma HeadQReady(plan: Plan, b: Build, at: Labels, l: nat, p: nat, sig: nat)
    requires Place(plan, l, p) && Covers(plan, b, at, At(Head, l, p), sig) && Label(HeadQ, l, p, 0, 0) !in at
    ensures DutyOk(plan, b, at, ACT_Q8, One(HeadQ, l, p), [sig]) && AllReal(b, [sig]) && Width(plan, HeadQ, l) == 1
  {
    HeadQNeeds(plan, l, p);
    OneNeed(plan, b, at, ACT_Q8, One(HeadQ, l, p), At(Head, l, p), sig);
  }

  lemma GainsBoth(at: Labels, at1: Labels, at2: Labels, g: Group, h: Group)
    requires Gains(at, at1, g) && Gains(at1, at2, h)
    ensures GainsTwo(at, at2, g, h)
  {}

  /** Position p's attention heads, gathered and quantized. */
  method HeadsOne(g: Builder, rq: nat, cum: nat, nh: Count, ghost plan: Plan, ghost l: nat, ghost p: nat,
                  ghost at: Labels)
    returns (r: Result<nat>, ghost at': Labels)
    requires Passing(g, plan, at) && Place(plan, l, p) && nh == plan.heads
    requires Fresh(at, At(Head, l, p)) && Label(HeadQ, l, p, 0, 0) !in at
    requires Covers(plan, g.View(), at, At(QueryRope, l, p), rq)
      && Covers(plan, g.View(), at, First(Append, l, p + 1), cum)
    modifies g, g.graph
    ensures r.Ok? ==> Built(g, old(g.View()), {rq, cum}, {r.value})
    ensures r.Ok? ==> Lawful(plan, g.View(), at') && GainsTwo(at, at', At(Head, l, p), At(HeadQ, l, p))
    ensures r.Ok? ==> Covers(plan, g.View(), at', At(HeadQ, l, p), r.value)
    ensures r.Died? ==> r.why == FULL
  {
    ghost var b := g.View();
    var sig;
    sig, at' := Heads(g, rq, cum, nh, plan, l, p, at);
    if sig.Died? { return sig, at'; }
    ghost var b1, at1 := g.View(), at';
    HeadQReady(plan, b1, at1, l, p, sig.value);
    r, at' := AddLabelled(g, ACT_Q8, [sig.value], plan, One(HeadQ, l, p), at1);
    if r.Ok? {
      ElemsOne(sig.value);
      AddsAfter(b, b1, g.View(), {rq, cum}, {sig.value}, {r.value});
      GainsBoth(at, at1, at', At(Head, l, p), At(HeadQ, l, p));
    }
  }

  /** What one position uses that was there before. */
  ghost function PositionUses(sq: nat, skva: nat, skvb: nat, first: bool, cum0: nat): set<nat> {
    {sq, skva, skvb} + if first then {} else {cum0}
  }

  /** What a position's attention starts from. */
  ghost predicate Attendable(plan: Plan, b: Build, at: Labels, l: nat, p: nat, sq: nat, skva: nat, skvb: nat,
                             cum0: nat) {
    && Place(plan, l, p) && Reaches(at, l, 5, p, 0)
    && Covers(plan, b, at, At(Query, l, p), sq) && Covers(plan, b, at, At(KeyValueA, l, p), skva)
    && Covers(plan, b, at, At(KeyValueB, l, p), skvb) && (p > 0 ==> Covers(plan, b, at, First(Append, l, p), cum0))
  }

  /** What it leaves: the quantized context c, and the end of the chain of appends. */
  ghost predicate Attended(plan: Plan, b: Build, now: Build, at: Labels, at': Labels, l: nat, p: nat, c: nat,
                           cum: nat) {
    && Sub(at, at') && Reaches(at', l, 5, p + 1, 0) && |b.role| <= cum && cum != c
    && Covers(plan, now, at', At(HeadQ, l, p), c) && Covers(plan, now, at', First(Append, l, p + 1), cum)
  }

  lemma QueryRopeReady(plan: Plan, b: Build, at: Labels, l: nat, p: nat, sq: nat)
    requires Place(plan, l, p) && Covers(plan, b, at, At(Query, l, p), sq) && Label(QueryRope, l, p, 0, 0) !in at
    ensures DutyOk(plan, b, at, ROPE_DS2, One(QueryRope, l, p), [sq]) && AllReal(b, [sq])
      && Width(plan, QueryRope, l) == 1
  {
    QueryRopeNeeds(plan, l, p);
    OneNeed(plan, b, at, ROPE_DS2, One(QueryRope, l, p), At(Query, l, p), sq);
  }

  /** Nothing of stage E is marked at position p yet. */
  lemma StageFresh(at: Labels, l: nat, p: nat)
    requires Reaches(at, l, 5, p, 0)
    ensures Label(QueryRope, l, p, 0, 0) !in at && Label(KeyRope, l, p, 0, 0) !in at && Label(Append, l, p, 0, 0) !in at
    ensures Label(HeadQ, l, p, 0, 0) !in at && Fresh(at, At(Head, l, p))
  {}

  /** The labels of the position, in the order they are taken. */
  lemma StageGains(at: Labels, at1: Labels, at2: Labels, at3: Labels, l: nat, p: nat)
    requires Reaches(at, l, 5, p, 0) && Gains(at, at1, At(QueryRope, l, p))
    requires GainsTwo(at1, at2, At(KeyRope, l, p), At(Append, l, p))
      && GainsTwo(at2, at3, At(Head, l, p), At(HeadQ, l, p))
    ensures Sub(at, at3) && Reaches(at3, l, 5, p + 1, 0)
  {
    forall a | a in at3 ensures Earlier(a, l, 5, p + 1, 0) {
      if a in at { assert Earlier(a, l, 5, p, 0); }
    }
  }

  /** What stays free while the row is appended. */
  lemma StageFresher(at: Labels, at1: Labels, at2: Labels, l: nat, p: nat)
    requires Reaches(at, l, 5, p, 0) && Gains(at, at1, At(QueryRope, l, p))
    requires GainsTwo(at1, at2, At(KeyRope, l, p), At(Append, l, p))
    ensures Label(KeyRope, l, p, 0, 0) !in at1 && Label(Append, l, p, 0, 0) !in at1
    ensures Label(HeadQ, l, p, 0, 0) !in at2 && Fresh(at2, At(Head, l, p))
  {
    StageFresh(at, l, p);
  }

  /** Rotated query and appended row of position p. */
  method RotateAndAppend(g: Builder, sq: nat, skva: nat, skvb: nat, ghost cum0: nat, ghost plan: Plan, ghost l: nat,
                         ghost p: nat, ghost at: Labels)
    returns (rq: Result<nat>, a: nat, ghost at1: Labels, ghost at': Labels)
    requires Passing(g, plan, at) && Attendable(plan, g.View(), at, l, p, sq, skva, skvb, cum0)
    modifies g, g.graph
    ensures rq.Ok? ==> Built(g, old(g.View()), {sq, skva, skvb}, {rq.value, a}) && rq.value != a
    ensures rq.Ok? ==> Lawful(plan, g.View(), at')
    ensures rq.Ok? ==> Gains(at, at1, At(QueryRope, l, p)) && GainsTwo(at1, at', At(KeyRope, l, p), At(Append, l, p))
    ensures rq.Ok? ==> Covers(plan, g.View(), at', At(QueryRope, l, p), rq.value)
    ensures rq.Ok? ==> Covers(plan, g.View(), at', At(Append, l, p), a)
    ensures rq.Ok? ==> p > 0 ==> Covers(plan, g.View(), at', First(Append, l, p), cum0)
    ensures rq.Died? ==> rq.why == FULL
  {
    ghost var b := g.View();
    a := 0;
    StageFresh(at, l, p);
    QueryRopeReady(plan, b, at, l, p, sq);
    rq, at1 := AddLabelled(g, ROPE_DS2, [sq], plan, One(QueryRope, l, p), at);
    if rq.Died? { return rq, 0, at, at; }
    ghost var b1 := g.View();
    KeysStay(plan, b, b1, at, at1, l, p, skva, skvb, cum0);
    var row;
    row, at' := AppendRow(g, skva, skvb, plan, l, p, at1);
    if row.Died? { return row, 0, at, at; }
    a := row.value;
    RotateAdds(b, b1, g.View(), sq, skva, skvb, rq.value, a);
    CoversStays(plan, b1, g.View(), at1, at', At(QueryRope, l, p), rq.value);
    if p > 0 { CoversStays(plan, b1, g.View(), at1, at', First(Append, l, p), cum0); }
  }

  lemma KeysStay(plan: Plan, b: Build, b1: Build, at: Labels, at1: Labels, l: nat, p: nat, skva: nat, skvb: nat,
                 cum0: nat)
    requires Grew(b, b1) && Gains(at, at1, At(QueryRope, l, p)) && Reaches(at, l, 5, p, 0)
    requires Covers(plan, b, at, At(KeyValueA, l, p), skva) && Covers(plan, b, at, At(KeyValueB, l, p), skvb)
    requires p > 0 ==> Covers(plan, b, at, First(Append, l, p), cum0)
    ensures Covers(plan, b1, at1, At(KeyValueA, l, p), skva) && Covers(plan, b1, at1, At(KeyValueB, l, p), skvb)
    ensures p > 0 ==> Covers(plan, b1, at1, First(Append, l, p), cum0)
    ensures Label(KeyRope, l, p, 0, 0) !in at1 && Label(Append, l, p, 0, 0) !in at1
  {
    StageFresh(at, l, p);
    CoversStays(plan, b, b1, at, at1, At(KeyValueA, l, p), skva);
    CoversStays(plan, b, b1, at, at1, At(KeyValueB, l, p), skvb);
    if p > 0 { CoversStays(plan, b, b1, at, at1, First(Append, l, p), cum0); }
  }

  lemma RotateAdds(b: Build, b1: Build, b2: Build, sq: nat, skva: nat, skvb: nat, rq: nat, a: nat)
    requires IsReal(b, sq) && IsReal(b, skva) && IsReal(b, skvb)
    requires Adds(b, b1, Elems([sq]), {rq}) && Adds(b1, b2, {skva, skvb}, {a})
    ensures Adds(b, b2, {sq, skva, skvb}, {rq, a}) && rq != a
  {
    ElemsOne(sq);
    AddsBeside(b, b1, b2, {sq}, {rq}, {skva, skvb}, {a});
    assert {sq} + {skva, skvb} == {sq, skva, skvb} && {rq} + {a} == {rq, a};
  }

  /** One position: rotate, append, extend the chain, attend. */
  method AttendOne(g: Builder, sq: nat, skva: nat, skvb: nat, first: bool, cum0: nat, nh: Count, ghost plan: Plan,
                   ghost l: nat, ghost p: nat, ghost at: Labels)
    returns (c: Result<nat>, cum: nat, ghost at': Labels)
    requires Passing(g, plan, at) && (first <==> p == 0) && nh == plan.heads
    requires Attendable(plan, g.View(), at, l, p, sq, skva, skvb, cum0)
    modifies g, g.graph
    ensures c.Ok? ==> Built(g, old(g.View()), PositionUses(sq, skva, skvb, first, cum0), {c.value})
    ensures c.Ok? ==> Lawful(plan, g.View(), at')
    ensures c.Ok? ==> Attended(plan, old(g.View()), g.View(), at, at', l, p, c.value, cum)
    ensures c.Died? ==> c.why == FULL
  {
    ghost var b := g.View();
    cum := 0;
    var rq, a;
    ghost var at1, at2;
    rq, a, at1, at2 := RotateAndAppend(g, sq, skva, skvb, cum0, plan, l, p, at);
    if rq.Died? { return rq, 0, at; }
    ghost var b2 := g.View();
    var joined := JoinChain(g, a, first, cum0, plan, l, p, at2);
    if joined.Died? { return joined, 0, at; }
    ghost var b3 := g.View();
    cum := joined.value;
    ChainAddsUp(b, b2, b3, sq, skva, skvb, first, cum0, rq.value, a, cum);
    CoversStays(plan, b2, b3, at2, at2, At(QueryRope, l, p), rq.value);
    StageFresher(at, at1, at2, l, p);
    c, at' := HeadsOne(g, rq.value, cum, nh, plan, l, p, at2);
    if c.Died? { return; }
    AddsAfter(b, b3, g.View(), PositionUses(sq, skva, skvb, first, cum0), {rq.value, cum}, {c.value});
    PositionDone(plan, b, b3, g.View(), at, at1, at2, at', l, p, c.value, cum);
  }

  lemma PositionDone(plan: Plan, b: Build, b3: Build, now: Build, at: Labels, at1: Labels, at2: Labels, at3: Labels,
                     l: nat, p: nat, c: nat, cum: nat)
    requires Reaches(at, l, 5, p, 0) && Gains(at, at1, At(QueryRope, l, p))
    requires GainsTwo(at1, at2, At(KeyRope, l, p), At(Append, l, p))
      && GainsTwo(at2, at3, At(Head, l, p), At(HeadQ, l, p))
    requires Covers(plan, b3, at2, First(Append, l, p + 1), cum) && |b.role| <= cum && Grew(b3, now) && |b3.role| <= c
    requires Covers(plan, now, at3, At(HeadQ, l, p), c)
    ensures Attended(plan, b, now, at, at3, l, p, c, cum)
  {
    StageGains(at, at1, at2, at3, l, p);
    CoversStays(plan, b3, now, at2, at3, First(Append, l, p + 1), cum);
  }

  /** The rotated query and the chain's end are what the heads will use. */
  lemma ChainAddsUp(b: Build, b2: Build, b3: Build, sq: nat, skva: nat, skvb: nat, first: bool, cum0: nat, rq: nat,
                    a: nat,
                    cum: nat)
    requires Adds(b, b2, {sq, skva, skvb}, {rq, a}) && (!first ==> IsReal(b, cum0))
    requires if first then b3 == b2 && cum == a else Adds(b2, b3, {cum0, a}, {cum})
    requires sq < |b.role| && skva < |b.role| && skvb < |b.role| && rq != a
    ensures Adds(b, b3, PositionUses(sq, skva, skvb, first, cum0), {rq, cum}) && Grew(b2, b3)
    ensures |b.role| <= cum
  {
    if first {
      assert {sq, skva, skvb} == PositionUses(sq, skva, skvb, first, cum0);
    } else {
      AddsThen(b, b2, b3, {sq, skva, skvb}, {rq, a}, {cum0, a}, {cum},
               PositionUses(sq, skva, skvb, first, cum0), {rq, cum});
    }
  }

  ghost function StageUses(sq: seq<nat>, skva: seq<nat>, skvb: seq<nat>, p: nat): set<nat>
    requires p <= |sq| == |skva| == |skvb|
  {
    Elems(sq[..p]) + Elems(skva[..p]) + Elems(skvb[..p])
  }

  /** What all positions' attention starts from. */
  ghost predicate RowsProjected(plan: Plan, b: Build, at: Labels, l: nat, sq: seq<nat>, skva: seq<nat>,
                                skvb: seq<nat>) {
    && l < plan.layers && |sq| == |skva| == |skvb| == plan.m
    && Row(plan, b, at, Query, l, sq) && Row(plan, b, at, KeyValueA, l, skva) && Row(plan, b, at, KeyValueB, l, skvb)
  }

  /** The loop over positions: what of it is still loose. */
  ghost predicate HalfwayLoose(b: Build, now: Build, sq: seq<nat>, skva: seq<nat>, skvb: seq<nat>, p: nat,
                               ctx: seq<nat>,
                               cum: nat) {
    && p <= |sq| == |skva| == |skvb| && Adds(b, now, StageUses(sq, skva, skvb, p), Elems(ctx))
    && (p > 0 ==> |b.role| <= cum && cum !in Elems(ctx))
  }

  /** What it has labelled, and the chain of appends. */
  ghost predicate HalfwayMarked(plan: Plan, now: Build, at: Labels, at1: Labels, l: nat, ctx: seq<nat>, cum: nat) {
    && Sub(at, at1) && Reaches(at1, l, 5, |ctx|, 0) && Row(plan, now, at1, HeadQ, l, ctx)
    && (ctx != [] ==> Covers(plan, now, at1, First(Append, l, |ctx|), cum))
  }

  ghost predicate Halfway(plan: Plan, b: Build, now: Build, at: Labels, at1: Labels, l: nat, sq: seq<nat>,
                          skva: seq<nat>, skvb: seq<nat>, ctx: seq<nat>, cum: nat) {
    HalfwayLoose(b, now, sq, skva, skvb, |ctx|, ctx, cum) && HalfwayMarked(plan, now, at, at1, l, ctx, cum)
  }

  lemma NextAttendable(plan: Plan, b: Build, was: Build, at: Labels, at1: Labels, l: nat, sq: seq<nat>, skva: seq<nat>,
                       skvb: seq<nat>, ctx: seq<nat>, cum: nat)
    requires Halfway(plan, b, was, at, at1, l, sq, skva, skvb, ctx, cum) && |ctx| < |sq|
    requires RowsProjected(plan, b, at, l, sq, skva, skvb)
    ensures Attendable(plan, was, at1, l, |ctx|, sq[|ctx|], skva[|ctx|], skvb[|ctx|], cum)
  {
    RowStays(plan, b, was, at, at1, Query, l, sq);
    RowStays(plan, b, was, at, at1, KeyValueA, l, skva);
    RowStays(plan, b, was, at, at1, KeyValueB, l, skvb);
  }

  lemma FurtherLoose(b: Build, was: Build, now: Build, sq: seq<nat>, skva: seq<nat>, skvb: seq<nat>, p: nat,
                     ctx: seq<nat>, cum0: nat, c: nat, cum: nat)
    requires HalfwayLoose(b, was, sq, skva, skvb, p, ctx, cum0) && p < |sq|
    requires AllReal(b, sq) && AllReal(b, skva) && AllReal(b, skvb)
    requires Adds(was, now, PositionUses(sq[p], skva[p], skvb[p], p == 0, cum0), {c})
    requires |was.role| <= cum && cum != c
    ensures HalfwayLoose(b, now, sq, skva, skvb, p + 1, ctx + [c], cum)
  {
    assert IsReal(b, sq[p]) && IsReal(b, skva[p]) && IsReal(b, skvb[p]);
    OnePosition(b, was, now, StageUses(sq, skva, skvb, p), ctx, sq[p], skva[p], skvb[p], p == 0, cum0, c);
    UsesMore(sq, skva, skvb, p);
    NotTheChain(b, was, StageUses(sq, skva, skvb, p), ctx, c, cum);
  }

  lemma FurtherMarked(plan: Plan, was: Build, now: Build, at: Labels, at1: Labels, at2: Labels, l: nat, ctx: seq<nat>,
                      cum0: nat, c: nat, cum: nat)
    requires HalfwayMarked(plan, was, at, at1, l, ctx, cum0) && Grew(was, now)
    requires Attended(plan, was, now, at1, at2, l, |ctx|, c, cum)
    ensures HalfwayMarked(plan, now, at, at2, l, ctx + [c], cum)
  {
    RowMore(plan, was, now, at1, at2, HeadQ, l, ctx, c);
  }

  lemma OneFurther(plan: Plan, b: Build, was: Build, now: Build, at: Labels, at1: Labels, at2: Labels, l: nat,
                   sq: seq<nat>, skva: seq<nat>, skvb: seq<nat>, ctx: seq<nat>, cum0: nat, c: nat, cum: nat)
    requires Halfway(plan, b, was, at, at1, l, sq, skva, skvb, ctx, cum0) && |ctx| < |sq|
    requires AllReal(b, sq) && AllReal(b, skva) && AllReal(b, skvb)
    requires Adds(was, now, PositionUses(sq[|ctx|], skva[|ctx|], skvb[|ctx|], |ctx| == 0, cum0), {c})
    requires Attended(plan, was, now, at1, at2, l, |ctx|, c, cum)
    ensures Halfway(plan, b, now, at, at2, l, sq, skva, skvb, ctx + [c], cum)
  {
    FurtherLoose(b, was, now, sq, skva, skvb, |ctx|, ctx, cum0, c, cum);
    FurtherMarked(plan, was, now, at, at1, at2, l, ctx, cum0, c, cum);
  }

  lemma NotTheChain(b: Build, was: Build, used: set<nat>, ctx: seq<nat>, c: nat, cum: nat)
    requires Adds(b, was, used, Elems(ctx)) && |was.role| <= cum && cum != c
    ensures cum !in Elems(ctx + [c])
  {
    OutsReal(b, was, used, ctx);
    RealAreOld(was, ctx);
    ElemsMore(ctx, c);
  }

  lemma OnePosition(b: Build, was: Build, now: Build, used: set<nat>, ctx: seq<nat>, x: nat, y: nat, z: nat,
                    first: bool, cum0: nat, c: nat)
    requires x < |b.role| && y < |b.role| && z < |b.role| && (!first ==> |b.role| <= cum0 && cum0 !in Elems(ctx))
    requires Adds(b, was, used, Elems(ctx)) && Adds(was, now, PositionUses(x, y, z, first, cum0), {c})
    ensures Adds(b, now, used + {x, y, z}, Elems(ctx + [c]))
  {
    ElemsMore(ctx, c);
    AddsOlder(b, was, now, used, Elems(ctx), {x, y, z}, PositionUses(x, y, z, first, cum0), {c});
  }

  /** The second addition uses old tasks `olds` and tasks of the first that were not loose. */
  lemma AddsOlder(a: Build, b: Build, c: Build, u1: set<nat>, o1: set<nat>, olds: set<nat>, u2: set<nat>, o2: set<nat>)
    requires Adds(a, b, u1, o1) && Adds(b, c, u2, o2)
    requires forall x :: x in u2 ==> x in olds || (|a.role| <= x && x !in o1)
    requires forall x :: x in olds ==> x in u2 && x < |a.role|
    ensures Adds(a, c, u1 + olds, o1 + o2)
  {
    assert o1 - u2 == o1;
    AddsThen(a, b, c, u1, o1, u2, o2, u1 + olds, o1 + o2);
  }

  lemma UsesMore(sq: seq<nat>, skva: seq<nat>, skvb: seq<nat>, p: nat)
    requires p < |sq| == |skva| == |skvb|
    ensures StageUses(sq, skva, skvb, p + 1) == StageUses(sq, skva, skvb, p) + {sq[p], skva[p], skvb[p]}
  {
    assert sq[..p + 1] == sq[..p] + [sq[p]] && skva[..p + 1] == skva[..p] + [skva[p]];
    assert skvb[..p + 1] == skvb[..p] + [skvb[p]];
    ElemsMore(sq[..p], sq[p]);
    ElemsMore(skva[..p], skva[p]);
    ElemsMore(skvb[..p], skvb[p]);
  }

  method AttendNext(g: Builder, plan: Plan, sq: seq<nat>, skva: seq<nat>, skvb: seq<nat>, ctx: seq<nat>, cum: nat,
                    ghost l: nat, ghost b: Build, ghost at: Labels, ghost at1: Labels)
    returns (c: Result<nat>, next: nat, ghost at2: Labels)
    requires Passing(g, plan, at1) && |ctx| < |sq| && RowsProjected(plan, b, at, l, sq, skva, skvb)
    requires Halfway(plan, b, g.View(), at, at1, l, sq, skva, skvb, ctx, cum)
    requires AllReal(b, sq) && AllReal(b, skva) && AllReal(b, skvb)
    modifies g, g.graph
    ensures c.Ok? ==> Passing(g, plan, at2)
    ensures c.Ok? ==> Halfway(plan, b, g.View(), at, at2, l, sq, skva, skvb, ctx + [c.value], next)
    ensures c.Died? ==> c.why == FULL
  {
    ghost var was := g.View();
    var p := |ctx|;
    NextAttendable(plan, b, was, at, at1, l, sq, skva, skvb, ctx, cum);
    c, next, at2 := AttendOne(g, sq[p], skva[p], skvb[p], p == 0, cum, plan.heads, plan, l, p, at1);
    if c.Ok? { OneFurther(plan, b, was, g.View(), at, at1, at2, l, sq, skva, skvb, ctx, cum, c.value, next); }
  }

  lemma NoneThrough(plan: Plan, b: Build, at: Labels, l: nat, sq: seq<nat>, skva: seq<nat>, skvb: seq<nat>)
    requires |sq| == |skva| == |skvb| && Reaches(at, l, 5, 0, 0)
    ensures Halfway(plan, b, b, at, at, l, sq, skva, skvb, [], 0)
  {
    AddsNothing(b);
  }

  lemma AllThrough(plan: Plan, b: Build, now: Build, at: Labels, at1: Labels, l: nat, sq: seq<nat>, skva: seq<nat>,
                   skvb: seq<nat>, ctx: seq<nat>, cum: nat)
    requires Halfway(plan, b, now, at, at1, l, sq, skva, skvb, ctx, cum) && |ctx| == |sq|
    ensures Adds(b, now, Elems(sq) + Elems(skva) + Elems(skvb), Elems(ctx))
    ensures Sub(at, at1) && Reaches(at1, l, 6, 0, 0)
  {
    assert skvb[..|sq|] == skvb && sq[..|sq|] == sq && skva[..|sq|] == skva;
  }

  /** Stage E, position by position: each attends to its own row and to those before it. */
  method Attention(g: Builder, plan: Plan, sq: seq<nat>, skva: seq<nat>, skvb: seq<nat>, ghost l: nat, ghost at: Labels)
    returns (r: Result<seq<nat>>, ghost at': Labels)
    requires Passing(g, plan, at) && RowsProjected(plan, g.View(), at, l, sq, skva, skvb) && Reaches(at, l, 5, 0, 0)
    modifies g, g.graph
    ensures r.Ok? ==>
      Built(g, old(g.View()), Elems(sq) + Elems(skva) + Elems(skvb), Elems(r.value)) && |r.value| == plan.m
    ensures r.Ok? ==> Lawful(plan, g.View(), at') && Sub(at, at') && Reaches(at', l, 6, 0, 0)
    ensures r.Ok? ==> Row(plan, g.View(), at', HeadQ, l, r.value)
    ensures r.Died? ==> r.why == FULL
  {
    ghost var b := g.View();
    at' := at;
    var ctx: seq<nat>, cum := [], 0;
    RowReal(plan, b, at, Query, l, sq);
    RowReal(plan, b, at, KeyValueA, l, skva);
    RowReal(plan, b, at, KeyValueB, l, skvb);
    NoneThrough(plan, b, at, l, sq, skva, skvb);
    for p := 0 to |sq|
      invariant Passing(g, plan, at') && |ctx| == p
      invariant Halfway(plan, b, g.View(), at, at', l, sq, skva, skvb, ctx, cum)
    {
      var c, next;
      c, next, at' := AttendNext(g, plan, sq, skva, skvb, ctx, cum, l, b, at, at');
      if c.Died? { return Died(c.why), at'; }
      ctx, cum := ctx + [c.value], next;
    }
    AllThrough(plan, b, g.View(), at, at', l, sq, skva, skvb, ctx, cum);
    r := Ok(ctx);
  }

  // ------------------------------------------------------- residual and norms

  /** A new task that something waits for. */
  ghost predicate NewInner(b: Build, now: Build, x: nat) { IsReal(now, x) && |b.role| <= x && x !in LooseEnds(now) }

  lemma NewInnerStays(b: Build, was: Build, now: Build, used: set<nat>, outs: set<nat>, x: nat)
    requires NewInner(b, was, x) && Adds(was, now, used, outs)
    ensures NewInner(b, now, x)
  {
    assert IsReal(was, x);
  }

  /** The new tasks of all positions, something waiting for each. */
  ghost predicate AllInner(b: Build, now: Build, xs: seq<nat>) { forall i :: 0 <= i < |xs| ==> NewInner(b, now, xs[i]) }

  lemma AllInnerStays(b: Build, was: Build, now: Build, used: set<nat>, outs: set<nat>, xs: seq<nat>)
    requires AllInner(b, was, xs) && Adds(was, now, used, outs)
    ensures AllInner(b, now, xs)
  {
    forall i | 0 <= i < |xs| ensures NewInner(b, now, xs[i]) { NewInnerStays(b, was, now, used, outs, xs[i]); }
  }

  /** What a residual add waits for. */
  function AddDeps(so: seq<nat>, res: seq<nat>): (r: seq<seq<nat>>)
    requires res == [] || |res| == |so|
    ensures |r| == |so|
  {
    if res == [] then Singles(so) else Pairs(so, res)
  }

  lemma AddDepsAre(b: Build, so: seq<nat>, res: seq<nat>)
    requires (res == [] || |res| == |so|) && AllReal(b, res) && AllReal(b, so)
    ensures AllAreReal(b, AddDeps(so, res)) && Flat(AddDeps(so, res)) == Elems(so) + Elems(res)
  {
    forall p | 0 <= p < |so| ensures AllReal(b, AddDeps(so, res)[p]) {
      assert IsReal(b, so[p]) && (res != [] ==> IsReal(b, res[p]));
    }
    if res == [] { FlatSingles(so); } else { FlatPairs(so, res); }
  }

  lemma AddNeeds(plan: Plan, l: nat, p: nat)
    requires Place(plan, l, p)
    ensures OfPass(plan, Label(Add, l, p, 0, 0))
    ensures NeedsOf(plan, Label(Add, l, p, 0, 0)) == [At(AttnOut, l, p)] + Residual(l, p)
  {}

  lemma AddsReady(plan: Plan, b: Build, at: Labels, l: nat, so: seq<nat>, res: seq<nat>)
    requires l < plan.layers && ResOk(plan, b, at, l, res) && |so| == plan.m && Row(plan, b, at, AttnOut, l, so)
    ensures RowReady(plan, b, at, Add, l, AddDeps(so, res))
  {
    forall p: nat | p < plan.m ensures PlaceReady(plan, b, at, Add, l, p, AddDeps(so, res)[p]) {
      AddNeeds(plan, l, p);
      assert Covers(plan, b, at, At(AttnOut, l, p), so[p]);
      if l == 0 {
        assert [so[p]][0] == so[p];
        assert HeldBy(plan, b, at, At(AttnOut, l, p), [so[p]]);
      } else {
        assert Covers(plan, b, at, At(Merge, l - 1, p), res[p]);
        BothHeld(plan, b, at, At(AttnOut, l, p), At(Merge, l - 1, p), so[p], res[p]);
      }
    }
  }

  lemma FfnNormReady(plan: Plan, b: Build, at: Labels, l: nat, p: nat, tx: nat)
    requires Place(plan, l, p) && Covers(plan, b, at, At(Add, l, p), tx) && Label(FfnNorm, l, p, 0, 0) !in at
    ensures DutyOk(plan, b, at, RMSNORM, One(FfnNorm, l, p), [tx]) && AllReal(b, [tx]) && Width(plan, FfnNorm, l) == 1
  {
    OneNeed(plan, b, at, RMSNORM, One(FfnNorm, l, p), At(Add, l, p), tx);
  }

  lemma FfnNormQReady(plan: Plan, b: Build, at: Labels, l: nat, p: nat, fn: nat)
    requires Place(plan, l, p) && Covers(plan, b, at, At(FfnNorm, l, p), fn) && Label(FfnNormQ, l, p, 0, 0) !in at
    ensures DutyOk(plan, b, at, ACT_Q8, One(FfnNormQ, l, p), [fn]) && AllReal(b, [fn]) && Width(plan, FfnNormQ, l) == 1
  {
    OneNeed(plan, b, at, ACT_Q8, One(FfnNormQ, l, p), At(FfnNorm, l, p), fn);
  }

  lemma AddIsReady(plan: Plan, b: Build, at: Labels, l: nat, p: nat, deps: seq<nat>)
    requires PlaceReady(plan, b, at, Add, l, p, deps) && Reaches(at, l, 7, p, 0)
    ensures DutyOk(plan, b, at, ADD2, One(Add, l, p), deps) && Width(plan, Add, l) == 1
    ensures Label(FfnNorm, l, p, 0, 0) !in at && Label(FfnNormQ, l, p, 0, 0) !in at
  {
    PlaceDuty(plan, b, at, ADD2, Add, l, p, deps);
  }

  lemma NormLabels(at: Labels, at1: Labels, at2: Labels, at3: Labels, l: nat, p: nat)
    requires Reaches(at, l, 7, p, 0) && Gains(at, at1, At(Add, l, p)) && Gains(at1, at2, At(FfnNorm, l, p))
    requires Gains(at2, at3, At(FfnNormQ, l, p))
    ensures Sub(at, at3) && Sub(at1, at3) && Reaches(at3, l, 7, p + 1, 0)
  {
    forall a | a in at3 ensures Earlier(a, l, 7, p + 1, 0) {
      if a in at { assert Earlier(a, l, 7, p, 0); }
    }
  }

  /** What stage G leaves of a position: its residual, the norm and its quantization. */
  ghost predicate NormedAt(plan: Plan, now: Build, at: Labels, at': Labels, l: nat, p: nat, tx: nat, fn: nat, fq: nat) {
    && Sub(at, at') && Reaches(at', l, 7, p + 1, 0) && Covers(plan, now, at', At(Add, l, p), tx)
    && Covers(plan, now, at', At(FfnNorm, l, p), fn) && Covers(plan, now, at', At(FfnNormQ, l, p), fq)
  }

  lemma NormedAtIs(plan: Plan, b1: Build, b2: Build, b3: Build, at: Labels, at1: Labels, at2: Labels, at3: Labels,
                   l: nat,
                   p: nat, tx: nat, fn: nat, fq: nat)
    requires Reaches(at, l, 7, p, 0) && Gains(at, at1, At(Add, l, p)) && Gains(at1, at2, At(FfnNorm, l, p))
    requires Gains(at2, at3, At(FfnNormQ, l, p)) && Grew(b1, b2) && Grew(b2, b3)
    requires Covers(plan, b1, at1, At(Add, l, p), tx) && Covers(plan, b2, at2, At(FfnNorm, l, p), fn)
    requires Covers(plan, b3, at3, At(FfnNormQ, l, p), fq)
    ensures NormedAt(plan, b3, at, at3, l, p, tx, fn, fq)
  {
    NormLabels(at, at1, at2, at3, l, p);
    GrewMore(b1, b2, b3);
    CoversStays(plan, b1, b3, at1, at3, At(Add, l, p), tx);
    CoversStays(plan, b2, b3, at2, at3, At(FfnNorm, l, p), fn);
  }

  /** Residual add, norm and quantization of one position. */
  method AddNorm(g: Builder, deps: seq<nat>, ghost plan: Plan, ghost l: nat, ghost p: nat, ghost at: Labels)
    returns (tx: Result<nat>, fn: nat, fq: nat, ghost at': Labels)
    requires Passing(g, plan, at) && Place(plan, l, p) && AllReal(g.View(), deps)
    requires PlaceReady(plan, g.View(), at, Add, l, p, deps) && Reaches(at, l, 7, p, 0)
    modifies g, g.graph
    ensures tx.Ok? ==> Built(g, old(g.View()), Elems(deps), {fq}) && Lawful(plan, g.View(), at')
    ensures tx.Ok? ==> NewInner(old(g.View()), g.View(), fn) && NewInner(old(g.View()), g.View(), tx.value)
    ensures tx.Ok? ==> NormedAt(plan, g.View(), at, at', l, p, tx.value, fn, fq)
    ensures tx.Died? ==> tx.why == FULL
  {
    ghost var b := g.View();
    fn, fq := 0, 0;
    ghost var at1, at2;
    AddIsReady(plan, b, at, l, p, deps);
    tx, at1 := AddLabelled(g, ADD2, deps, plan, One(Add, l, p), at);
    if tx.Died? { return tx, 0, 0, at; }
    ghost var b1 := g.View();
    FfnNormReady(plan, b1, at1, l, p, tx.value);
    var norm;
    norm, at2 := AddLabelled(g, RMSNORM, [tx.value], plan, One(FfnNorm, l, p), at1);
    if norm.Died? { return norm, 0, 0, at; }
    ghost var b2 := g.View();
    fn := norm.value;
    FfnNormQReady(plan, b2, at2, l, p, fn);
    var quant;
    quant, at' := AddLabelled(g, ACT_Q8, [fn], plan, One(FfnNormQ, l, p), at2);
    if quant.Died? { return quant, 0, 0, at; }
    fq := quant.value;
    AddNormAdds(b, b1, b2, g.View(), deps, tx.value, fn, fq);
    NormedAtIs(plan, b1, b2, g.View(), at, at1, at2, at', l, p, tx.value, fn, fq);
  }

  lemma AddNormAdds(b: Build, b1: Build, b2: Build, b3: Build, deps: seq<nat>, tx: nat, fn: nat, fq: nat)
    requires Adds(b, b1, Elems(deps), {tx}) && Adds(b1, b2, Elems([tx]), {fn}) && Adds(b2, b3, Elems([fn]), {fq})
    ensures Adds(b, b3, Elems(deps), {fq}) && NewInner(b, b3, tx) && NewInner(b, b3, fn)
  {
    ElemsOne(tx);
    ElemsOne(fn);
    AddsAfter(b, b1, b2, Elems(deps), {tx}, {fn});
    AddsAfter(b, b2, b3, Elems(deps), {fn}, {fq});
    assert IsReal(b1, tx) && IsReal(b2, fn);
  }

  /** Stage G over the first p positions: what is loose, and what is labelled. */
  ghost predicate NormedLoose(b: Build, now: Build, depss: seq<seq<nat>>, p: nat, tx: seq<nat>, fn: seq<nat>,
                              fq: seq<nat>) {
    && p <= |depss| && Adds(b, now, Flat(depss[..p]), Elems(fq)) && |tx| == |fn| == |fq| == p
    && AllInner(b, now, tx) && AllInner(b, now, fn)
  }

  ghost predicate NormedMarked(plan: Plan, now: Build, at: Labels, at1: Labels, l: nat, p: nat, tx: seq<nat>,
                               fn: seq<nat>,
                               fq: seq<nat>) {
    && Sub(at, at1) && Reaches(at1, l, 7, p, 0) && Row(plan, now, at1, Add, l, tx)
    && Row(plan, now, at1, FfnNorm, l, fn) && Row(plan, now, at1, FfnNormQ, l, fq)
  }

  lemma LooseMore(b: Build, was: Build, now: Build, depss: seq<seq<nat>>, p: nat, tx: seq<nat>, fn: seq<nat>,
                  fq: seq<nat>,
                  t: nat, f: nat, q: nat)
    requires AllAreReal(b, depss) && p < |depss| && NormedLoose(b, was, depss, p, tx, fn, fq)
    requires Adds(was, now, Elems(depss[p]), {q}) && NewInner(was, now, t) && NewInner(was, now, f)
    ensures NormedLoose(b, now, depss, p + 1, tx + [t], fn + [f], fq + [q])
  {
    ChainAdds(b, was, now, depss, fq, q);
    AllInnerStays(b, was, now, Elems(depss[p]), {q}, tx);
    AllInnerStays(b, was, now, Elems(depss[p]), {q}, fn);
  }

  lemma MarkedMore(plan: Plan, was: Build, now: Build, at: Labels, at1: Labels, at2: Labels, l: nat, p: nat,
                   tx: seq<nat>,
                   fn: seq<nat>, fq: seq<nat>, t: nat, f: nat, q: nat)
    requires NormedMarked(plan, was, at, at1, l, p, tx, fn, fq) && |tx| == |fn| == |fq| == p && Grew(was, now)
    requires NormedAt(plan, now, at1, at2, l, p, t, f, q)
    ensures NormedMarked(plan, now, at, at2, l, p + 1, tx + [t], fn + [f], fq + [q])
  {
    RowMore(plan, was, now, at1, at2, Add, l, tx, t);
    RowMore(plan, was, now, at1, at2, FfnNorm, l, fn, f);
    RowMore(plan, was, now, at1, at2, FfnNormQ, l, fq, q);
  }

  /** Stage G: residual adds, norms and quantizations, position by position. */
  method AddNorms(g: Builder, depss: seq<seq<nat>>, ghost plan: Plan, ghost l: nat, ghost at: Labels)
    returns (tx: Result<seq<nat>>, fn: seq<nat>, fq: seq<nat>, ghost at': Labels)
    requires Passing(g, plan, at) && l < plan.layers && AllAreReal(g.View(), depss)
    requires RowReady(plan, g.View(), at, Add, l, depss) && Reaches(at, l, 7, 0, 0)
    modifies g, g.graph
    ensures tx.Ok? ==> Passing(g, plan, at') && NormedLoose(old(g.View()), g.View(), depss, plan.m, tx.value, fn, fq)
    ensures tx.Ok? ==> NormedMarked(plan, g.View(), at, at', l, plan.m, tx.value, fn, fq)
    ensures tx.Died? ==> tx.why == FULL
  {
    ghost var b := g.View();
    at' := at;
    var adds: seq<nat> := [];
    fn, fq := [], [];
    AddsNothing(b);
    assert Flat(depss[..0]) == {} == Elems(fq);
    for p := 0 to |depss|
      invariant Passing(g, plan, at') && NormedLoose(b, g.View(), depss, p, adds, fn, fq)
      invariant NormedMarked(plan, g.View(), at, at', l, p, adds, fn, fq)
    {
      ghost var was, at1 := g.View(), at';
      AllAreRealStays(b, was, depss);
      PlaceThere(plan, b, was, at, at1, Add, l, p, depss);
      var t, f, q;
      t, f, q, at' := AddNorm(g, depss[p], plan, l, p, at1);
      if t.Died? { return Died(t.why), fn, fq, at'; }
      LooseMore(b, was, g.View(), depss, p, adds, fn, fq, t.value, f, q);
      MarkedMore(plan, was, g.View(), at, at1, at', l, p, adds, fn, fq, t.value, f, q);
      adds, fn, fq := adds + [t.value], fn + [f], fq + [q];
    }
    tx := Ok(adds);
  }

  // ------------------------------------- the dense feed-forward, the shared expert

  lemma SiluNeeds(plan: Plan, l: nat, p: nat)
    requires Place(plan, l, p)
    ensures OfPass(plan, Label(Silu, l, p, 0, 0))
    ensures NeedsOf(plan, Label(Silu, l, p, 0, 0)) == [At(Gate, l, p), At(Up, l, p)]
  {}

  /** What the silu of every position waits for. */
  lemma SilusReady(plan: Plan, b: Build, at: Labels, l: nat, sg: seq<nat>, su: seq<nat>)
    requires l < plan.layers && |sg| == |su| == plan.m && Reaches(at, l, 12, 0, 0)
    requires Row(plan, b, at, Gate, l, sg) && Row(plan, b, at, Up, l, su)
    ensures PairReady(plan, b, at, Silu, SiluQ, l, Pairs(sg, su))
  {
    forall p: nat | p < plan.m
      ensures PlaceReady(plan, b, at, Silu, l, p, Pairs(sg, su)[p]) && AllReal(b, Pairs(sg, su)[p])
    {
      SiluNeeds(plan, l, p);
      BothHeld(plan, b, at, At(Gate, l, p), At(Up, l, p), sg[p], su[p]);
    }
    PairIs(plan, Silu, SiluQ, l);
    ReachesFresh(at, l, 12, Silu, plan.m);
    ReachesFresh(at, l, 12, SiluQ, plan.m);
  }

  /** silu(gate) * up and its quantization, position by position. */
  method Silus(g: Builder, sg: seq<nat>, su: seq<nat>, ghost plan: Plan, ghost l: nat, ghost at: Labels)
    returns (r: Result<seq<nat>>, ghost at': Labels)
    requires Passing(g, plan, at) && l < plan.layers && |sg| == |su| == plan.m && Reaches(at, l, 12, 0, 0)
    requires Row(plan, g.View(), at, Gate, l, sg) && Row(plan, g.View(), at, Up, l, su)
    modifies g, g.graph
    ensures r.Ok? ==> Built(g, old(g.View()), Elems(sg) + Elems(su), Elems(r.value)) && |r.value| == plan.m
    ensures r.Ok? ==> Lawful(plan, g.View(), at') && Sub(at, at') && Reaches(at', l, 13, 0, 0)
    ensures r.Ok? ==> Row(plan, g.View(), at', SiluQ, l, r.value)
    ensures r.Died? ==> r.why == FULL
  {
    SilusReady(plan, g.View(), at, l, sg, su);
    FlatPairs(sg, su);
    r, at' := EachQuantized(g, SILU_MUL, Pairs(sg, su), plan, Silu, SiluQ, l, at);
    if r.Ok? { SilusReach(plan, l, at, at'); }
  }

  lemma SilusReach(plan: Plan, l: nat, at: Labels, at': Labels)
    requires Reaches(at, l, 12, 0, 0) && GainsTwo(at, at', First(Silu, l, plan.m), First(SiluQ, l, plan.m))
    ensures Sub(at, at') && Reaches(at', l, 13, 0, 0)
  {
    GainsTwoReaches(at, at', First(Silu, l, plan.m), First(SiluQ, l, plan.m), l, 12, 13);
  }

  /** silu, quantization, down. */
  method SiluDown(g: Builder, plan: Plan, sg: seq<nat>, su: seq<nat>, l: nat, ghost at: Labels)
    returns (r: Result<seq<nat>>, ghost at': Labels)
    requires Passing(g, plan, at) && l < plan.layers && |sg| == |su| == plan.m && Reaches(at, l, 12, 0, 0)
    requires Row(plan, g.View(), at, Gate, l, sg) && Row(plan, g.View(), at, Up, l, su)
    modifies g, g.graph
    ensures r.Ok? ==> Built(g, old(g.View()), Elems(sg) + Elems(su), Elems(r.value)) && |r.value| == plan.m
    ensures r.Ok? ==> Row(plan, g.View(), at', Down, l, r.value)
    ensures r.Ok? ==> Lawful(plan, g.View(), at') && Sub(at, at') && Reaches(at', l, 14, 0, 0)
    ensures r.Died? ==> r.why == FULL
  {
    ghost var b := g.View();
    var hq;
    hq, at' := Silus(g, sg, su, plan, l, at);
    if hq.Died? { return hq, at; }
    ghost var b1 := g.View();
    r, at' := Stage(g, plan, hq.value, plan.tiles(l, Down), Down, SiluQ, l, 13, at');
    if r.Ok? { AddsAfter(b, b1, g.View(), Elems(sg) + Elems(su), Elems(hq.value), Elems(r.value)); }
  }

  /** Gate and up, silu, down: the dense feed-forward and the shared expert. */
  method GateUpDown(g: Builder, plan: Plan, fq: seq<nat>, l: nat, ghost at: Labels)
    returns (r: Result<seq<nat>>, ghost at': Labels)
    requires Passing(g, plan, at) && l < plan.layers && |fq| == plan.m && Row(plan, g.View(), at, FfnNormQ, l, fq)
    requires Reaches(at, l, 10, 0, 0)
    modifies g, g.graph
    ensures r.Ok? ==> Built(g, old(g.View()), Elems(fq), Elems(r.value)) && |r.value| == plan.m
    ensures r.Ok? ==> Lawful(plan, g.View(), at') && Sub(at, at') && Reaches(at', l, 14, 0, 0)
    ensures r.Ok? ==> Row(plan, g.View(), at', Down, l, r.value)
    ensures r.Died? ==> r.why == FULL
  {
    ghost var b := g.View();
    var sg, su;
    sg, su, at' := TwoStages(g, plan, fq, plan.tiles(l, Gate), plan.tiles(l, Up), Gate, Up, FfnNormQ, l, 10, at);
    if sg.Died? { return sg, at; }
    ghost var b1 := g.View();
    r, at' := SiluDown(g, plan, sg.value, su, l, at');
    if r.Ok? { AddsAfter(b, b1, g.View(), Elems(fq), Elems(sg.value) + Elems(su), Elems(r.value)); }
  }

  // ---------------------------------------------------------------- routers

  /** A routed place. */
  predicate Routed(plan: Plan, l: nat, p: nat) { Place(plan, l, p) && plan.dense <= l }

  lemma RouterReady(plan: Plan, b: Build, at: Labels, l: nat, p: nat, fn: nat)
    requires Routed(plan, l, p) && Covers(plan, b, at, At(FfnNorm, l, p), fn) && Reaches(at, l, 8, p, 0)
    ensures TilesOk(plan, b, at, STREAM_DOT, One(Logits, l, p), [fn]) && AllReal(b, [fn])
    ensures Label(Select, l, p, 0, 0) !in at
  {
    assert [fn][0] == fn;
    assert HeldBy(plan, b, at, At(FfnNorm, l, p), [fn]);
    assert PlaceReady(plan, b, at, Logits, l, p, [fn]);
    OneDotIsOk(plan, b, at, Logits, l, p, [fn]);
  }

  lemma SelectReady(plan: Plan, b: Build, at: Labels, l: nat, p: nat, rl: nat)
    requires Routed(plan, l, p) && Covers(plan, b, at, At(Logits, l, p), rl) && Label(Select, l, p, 0, 0) !in at
    ensures DutyOk(plan, b, at, ROUTER_SEL, One(Select, l, p), [rl]) && AllReal(b, [rl]) && Width(plan, Select, l) == 1
  {
    OneNeed(plan, b, at, ROUTER_SEL, One(Select, l, p), At(Logits, l, p), rl);
  }

  lemma RouterLabels(at: Labels, at1: Labels, at2: Labels, l: nat, p: nat)
    requires Reaches(at, l, 8, p, 0) && Gains(at, at1, At(Logits, l, p)) && Gains(at1, at2, At(Select, l, p))
    ensures Sub(at, at2) && Reaches(at2, l, 8, p + 1, 0)
  {
    forall a | a in at2 ensures Earlier(a, l, 8, p + 1, 0) {
      if a in at { assert Earlier(a, l, 8, p, 0); }
    }
  }

  /** Router logits and selection of one position. */
  method Router(g: Builder, fn: nat, tiles: Count, ghost plan: Plan, ghost l: nat, ghost p: nat, ghost at: Labels)
    returns (r: Result<nat>, ghost at': Labels)
    requires Passing(g, plan, at) && Routed(plan, l, p) && Covers(plan, g.View(), at, At(FfnNorm, l, p), fn)
    requires Reaches(at, l, 8, p, 0) && tiles == plan.tiles(l, Logits)
    modifies g, g.graph
    ensures r.Ok? ==> Built(g, old(g.View()), Elems([fn]), {r.value}) && Lawful(plan, g.View(), at')
    ensures r.Ok? ==> Sub(at, at') && Reaches(at', l, 8, p + 1, 0)
    ensures r.Ok? ==> Covers(plan, g.View(), at', At(Select, l, p), r.value)
    ensures r.Died? ==> r.why == FULL
  {
    ghost var b := g.View();
    RouterReady(plan, b, at, l, p, fn);
    var rl;
    ghost var at1;
    rl, at1 := AddDot(g, STREAM_DOT, [fn], tiles, plan, One(Logits, l, p), at);
    if rl.Died? { return rl, at; }
    ghost var b1 := g.View();
    SelectReady(plan, b1, at1, l, p, rl.value);
    r, at' := AddLabelled(g, ROUTER_SEL, [rl.value], plan, One(Select, l, p), at1);
    if r.Ok? {
      ElemsOne(rl.value);
      AddsAfter(b, b1, g.View(), Elems([fn]), {rl.value}, {r.value});
      RouterLabels(at, at1, at', l, p);
    }
  }

  /** Routers of the first |rts| positions. */
  ghost predicate RoutersDone(plan: Plan, b: Build, now: Build, at: Labels, at1: Labels, l: nat, fn: seq<nat>,
                              rts: seq<nat>) {
    && |rts| <= |fn| && Adds(b, now, Elems(fn[..|rts|]), Elems(rts)) && AllReal(now, fn)
    && Sub(at, at1) && Reaches(at1, l, 8, |rts|, 0) && Row(plan, now, at1, Select, l, rts)
  }

  lemma RoutersMore(plan: Plan, b: Build, was: Build, now: Build, at: Labels, at1: Labels, at2: Labels, l: nat,
                    fn: seq<nat>, rts: seq<nat>, rt: nat)
    requires RoutersDone(plan, b, was, at, at1, l, fn, rts) && |rts| < |fn| && AllReal(b, fn)
    requires Adds(was, now, Elems([fn[|rts|]]), {rt}) && Sub(at1, at2) && Reaches(at2, l, 8, |rts| + 1, 0)
    requires Covers(plan, now, at2, At(Select, l, |rts|), rt)
    ensures RoutersDone(plan, b, now, at, at2, l, fn, rts + [rt])
  {
    AddsOne(b, was, now, fn, rts, rt);
    RowMore(plan, was, now, at1, at2, Select, l, rts, rt);
  }

  method NextRouter(g: Builder, plan: Plan, fn: seq<nat>, rts: seq<nat>, l: nat, ghost b: Build, ghost at: Labels,
                    ghost at1: Labels)
    returns (one: Result<nat>, ghost at2: Labels)
    requires Passing(g, plan, at1) && plan.dense <= l < plan.layers && |rts| < |fn| == plan.m
    requires AllReal(b, fn) && Row(plan, b, at, FfnNorm, l, fn)
    requires RoutersDone(plan, b, g.View(), at, at1, l, fn, rts)
    modifies g, g.graph
    ensures one.Ok? ==> Passing(g, plan, at2) && RoutersDone(plan, b, g.View(), at, at2, l, fn, rts + [one.value])
    ensures one.Died? ==> one.why == FULL
  {
    ghost var was, p := g.View(), |rts|;
    RowStays(plan, b, was, at, at1, FfnNorm, l, fn);
    one, at2 := Router(g, fn[|rts|], plan.tiles(l, Logits), plan, l, p, at1);
    if one.Ok? { RoutersMore(plan, b, was, g.View(), at, at1, at2, l, fn, rts, one.value); }
  }

  /** Router logits and selection, position by position. */
  method Routers(g: Builder, plan: Plan, fn: seq<nat>, l: nat, ghost at: Labels)
    returns (r: Result<seq<nat>>, ghost at': Labels)
    requires Passing(g, plan, at) && plan.dense <= l < plan.layers && |fn| == plan.m
    requires Row(plan, g.View(), at, FfnNorm, l, fn) && Reaches(at, l, 8, 0, 0)
    modifies g, g.graph
    ensures r.Ok? ==> Built(g, old(g.View()), Elems(fn), Elems(r.value)) && |r.value| == plan.m
    ensures r.Ok? ==> Lawful(plan, g.View(), at') && Sub(at, at') && Reaches(at', l, 8, plan.m, 0)
    ensures r.Ok? ==> Row(plan, g.View(), at', Select, l, r.value)
    ensures r.Died? ==> r.why == FULL
  {
    ghost var b := g.View();
    at' := at;
    var rts: seq<nat> := [];
    AddsNothing(b);
    RowReal(plan, b, at, FfnNorm, l, fn);
    for p := 0 to |fn|
      invariant Passing(g, plan, at') && |rts| == p && RoutersDone(plan, b, g.View(), at, at', l, fn, rts)
    {
      var one;
      one, at' := NextRouter(g, plan, fn, rts, l, b, at, at');
      if one.Died? { return Died(one.why), at'; }
      rts := rts + [one.value];
    }
    assert fn[..|fn|] == fn;
    r := Ok(rts);
  }

  /** Producers that cover the selection each position's experts wait for. */
  ghost predicate SelectRow(plan: Plan, b: Build, at: Labels, l: nat, rts: seq<nat>) {
    |rts| == plan.m && forall p :: 0 <= p < |rts| ==> Covers(plan, b, at, Selected(plan, l, p), rts[p])
  }

  lemma AllSelected(plan: Plan, b: Build, at: Labels, l: nat, rts: seq<nat>)
    requires |rts| == plan.m && Row(plan, b, at, Select, l, rts)
    ensures Gathered(plan, b, at, First(Select, l, plan.m), rts)
  {
    var all := First(Select, l, plan.m);
    forall c | InGroup(plan, all, c) ensures exists i :: 0 <= i < |rts| && Reached(b, at, c, rts[i]) {
      assert Covers(plan, b, at, At(Select, l, c.p), rts[c.p]);
      assert InGroup(plan, At(Select, l, c.p), c);
      assert Reached(b, at, c, rts[c.p]);
    }
  }

  /** The selections, gathered under the barrier switch. */
  method Selections(g: Builder, plan: Plan, fn: seq<nat>, l: nat, ghost at: Labels)
    returns (r: Result<seq<nat>>, ghost at': Labels)
    requires Passing(g, plan, at) && plan.dense <= l < plan.layers && |fn| == plan.m
    requires Row(plan, g.View(), at, FfnNorm, l, fn) && Reaches(at, l, 8, 0, 0)
    modifies g, g.graph
    ensures r.Ok? ==> Built(g, old(g.View()), Elems(fn), Elems(r.value)) && SelectRow(plan, g.View(), at', l, r.value)
    ensures r.Ok? ==> Lawful(plan, g.View(), at') && Sub(at, at') && Reaches(at', l, 9, 0, 0)
    ensures r.Died? ==> r.why == FULL
  {
    ghost var b := g.View();
    r, at' := Routers(g, plan, fn, l, at);
    if r.Died? { return; }
    SelectsReach(at', l, plan.m);
    if !plan.barrier { return; }
    ghost var was := g.View();
    OutsReal(b, was, Elems(fn), r.value);
    AllSelected(plan, was, at', l, r.value);
    var gate := FanIn(g, r.value, plan, First(Select, l, plan.m), at');
    if gate.Died? { return Died(gate.why), at'; }
    AddsAfter(b, was, g.View(), Elems(fn), Elems(r.value), {gate.value});
    r := Ok(Copies(gate.value, |fn|));
    CopiesElems(gate.value, |fn|);
  }

  lemma SelectsReach(at: Labels, l: nat, m: nat)
    requires Reaches(at, l, 8, m, 0)
    ensures Reaches(at, l, 9, 0, 0)
  {}

  // ----------------------------------------------------------------- experts

  /** The u-th expert that position p runs. */
  predicate ExpertPlace(plan: Plan, l: nat, p: nat, u: nat) { Routed(plan, l, p) && u < plan.used(p) }

  lemma ExpertDotReady(plan: Plan, b: Build, at: Labels, part: Part, l: nat, p: nat, u: nat, fq: nat, rt: nat)
    requires ExpertPlace(plan, l, p, u) && (part == ExpertGate || part == ExpertUp)
    requires Covers(plan, b, at, At(FfnNormQ, l, p), fq) && Covers(plan, b, at, Selected(plan, l, p), rt)
    requires Fresh(at, AtExpert(part, l, p, u))
    ensures TilesOk(plan, b, at, STREAM_DOT_IDX, OneExpert(part, l, p, u), [fq, rt]) && AllReal(b, [fq, rt])
    ensures Width(plan, part, l) == plan.tiles(l, part)
  {
    var d := OneExpert(part, l, p, u);
    BothHeld(plan, b, at, At(FfnNormQ, l, p), Selected(plan, l, p), fq, rt);
    ExpertDotNeeds(plan, part, l, p, u);
    forall q | d.lo <= q < d.hi ensures OfPass(plan, LabelAt(d, q)) && Ready(plan, b, at, LabelAt(d, q), [fq, rt]) {
      assert q == p;
    }
    TilesAreOk(plan, b, at, STREAM_DOT_IDX, d, [fq, rt]);
  }

  lemma ExpertDotNeeds(plan: Plan, part: Part, l: nat, p: nat, u: nat)
    requires ExpertPlace(plan, l, p, u) && (part == ExpertGate || part == ExpertUp)
    ensures OfPass(plan, Label(part, l, p, u, 0))
    ensures NeedsOf(plan, Label(part, l, p, u, 0)) == [At(FfnNormQ, l, p), Selected(plan, l, p)]
  {}

  lemma ExpertQuantizes(plan: Plan, l: nat, p: nat, u: nat)
    requires ExpertPlace(plan, l, p, u)
    ensures Quantizes(plan, OneExpert(ExpertSilu, l, p, u), ExpertSiluQ)
    ensures OfPass(plan, Label(ExpertSilu, l, p, u, 0))
    ensures NeedsOf(plan, Label(ExpertSilu, l, p, u, 0)) == [AtExpert(ExpertGate, l, p, u), AtExpert(ExpertUp, l, p, u)]
  {}

  lemma ExpertSiluReady(plan: Plan, b: Build, at: Labels, l: nat, p: nat, u: nat, ge: nat, ue: nat)
    requires ExpertPlace(plan, l, p, u) && Fresh(at, AtExpert(ExpertSilu, l, p, u))
      && Fresh(at, AtExpert(ExpertSiluQ, l, p, u))
    requires Covers(plan, b, at, AtExpert(ExpertGate, l, p, u), ge)
      && Covers(plan, b, at, AtExpert(ExpertUp, l, p, u), ue)
    ensures DutyOk(plan, b, at, SILU_MUL, OneExpert(ExpertSilu, l, p, u), [ge, ue]) && AllReal(b, [ge, ue])
    ensures Quantizes(plan, OneExpert(ExpertSilu, l, p, u), ExpertSiluQ) && Label(ExpertSiluQ, l, p, u, 0) !in at
  {
    ExpertQuantizes(plan, l, p, u);
    assert OfGroup(AtExpert(ExpertSilu, l, p, u), Label(ExpertSilu, l, p, u, 0));
    assert OfGroup(AtExpert(ExpertSiluQ, l, p, u), Label(ExpertSiluQ, l, p, u, 0));
    TwoNeeds(plan, b, at, SILU_MUL, OneExpert(ExpertSilu, l, p, u), AtExpert(ExpertGate, l, p, u),
             AtExpert(ExpertUp, l, p, u), ge, ue);
  }

  lemma ExpertDownReady(plan: Plan, b: Build, at: Labels, l: nat, p: nat, u: nat, hq: nat)
    requires ExpertPlace(plan, l, p, u) && Fresh(at, AtExpert(ExpertDown, l, p, u))
    requires Covers(plan, b, at, AtExpert(ExpertSiluQ, l, p, u), hq)
    ensures TilesOk(plan, b, at, STREAM_DOT_IDX, OneExpert(ExpertDown, l, p, u), [hq]) && AllReal(b, [hq])
    ensures Width(plan, ExpertDown, l) == plan.tiles(l, ExpertDown)
  {
    var d := OneExpert(ExpertDown, l, p, u);
    assert [hq][0] == hq;
    assert HeldBy(plan, b, at, AtExpert(ExpertSiluQ, l, p, u), [hq]);
    forall q | d.lo <= q < d.hi ensures OfPass(plan, LabelAt(d, q)) && Ready(plan, b, at, LabelAt(d, q), [hq]) {
      assert q == p;
    }
    TilesAreOk(plan, b, at, STREAM_DOT_IDX, d, [hq]);
  }

  /** Nothing of expert u of position p is marked yet. */
  lemma ExpertFresh(at: Labels, l: nat, p: nat, u: nat, part: Part)
    requires Reaches(at, l, 9, p, u) && StageOf(part) == 9
    ensures Fresh(at, AtExpert(part, l, p, u))
  {
    forall a | a in at ensures !OfGroup(AtExpert(part, l, p, u), a) { assert Earlier(a, l, 9, p, u); }
  }

  /** Other parts do not take a place. */
  lemma FreshStays(at: Labels, at': Labels, g: Group, h: Group, k: Group)
    requires Fresh(at, k) && GainsTwo(at, at', g, h) && k.part != g.part && k.part != h.part
    ensures Fresh(at', k)
  {}

  /** Only labels of one expert of one position are new. */
  ghost predicate GainsPlace(at: Labels, at': Labels, l: nat, p: nat, u: nat) {
    && Sub(at, at')
    && forall a {:trigger a in at'} :: a in at' ==>
         a in at || (a.l == l && StageOf(a.part) == 9 && a.p == p && a.u == u)
  }

  lemma TwoAtPlace(at: Labels, at': Labels, part: Part, other: Part, l: nat, p: nat, u: nat)
    requires GainsTwo(at, at', AtExpert(part, l, p, u), AtExpert(other, l, p, u))
    requires StageOf(part) == 9 == StageOf(other)
    ensures GainsPlace(at, at', l, p, u)
  {}

  lemma PlaceReaches(at: Labels, at': Labels, l: nat, p: nat, u: nat)
    requires Reaches(at, l, 9, p, u) && GainsPlace(at, at', l, p, u)
    ensures Reaches(at', l, 9, p, u + 1)
  {}

  /** An expert's products, its activation and its second product. */
  lemma ExpertReaches(at: Labels, at1: Labels, at2: Labels, at3: Labels, l: nat, p: nat, u: nat)
    requires Reaches(at, l, 9, p, u) && GainsTwo(at, at1, AtExpert(ExpertGate, l, p, u), AtExpert(ExpertUp, l, p, u))
    requires GainsTwo(at1, at2, AtExpert(ExpertSilu, l, p, u), AtExpert(ExpertSiluQ, l, p, u))
    requires Gains(at2, at3, AtExpert(ExpertDown, l, p, u))
    ensures Sub(at, at3) && Reaches(at3, l, 9, p, u + 1)
  {
    var down := AtExpert(ExpertDown, l, p, u);
    TwoAtPlace(at, at1, ExpertGate, ExpertUp, l, p, u);
    TwoAtPlace(at1, at2, ExpertSilu, ExpertSiluQ, l, p, u);
    GainsBoth(at2, at3, at3, down, down);
    TwoAtPlace(at2, at3, ExpertDown, ExpertDown, l, p, u);
    assert GainsPlace(at, at3, l, p, u);
    PlaceReaches(at, at3, l, p, u);
  }

  lemma SameGroup(part: Part, other: Part, l: nat, p: nat, u: nat)
    ensures GroupOf(OneExpert(part, l, p, u)) == AtExpert(part, l, p, u)
    ensures GroupOf(OneExpert(other, l, p, u)) == AtExpert(other, l, p, u)
    ensures GroupOf(OneExpert(part, l, p, u).(part := other)) == AtExpert(other, l, p, u)
  {}

  /** An expert's gate and up projections. */
  method ExpertGateUp(g: Builder, fq: nat, rt: nat, plan: Plan, l: nat, ghost p: nat, ghost u: nat, ghost at: Labels)
    returns (ge: Result<nat>, ue: nat, ghost at': Labels)
    requires Passing(g, plan, at) && ExpertPlace(plan, l, p, u)
    requires Fresh(at, AtExpert(ExpertGate, l, p, u)) && Fresh(at, AtExpert(ExpertUp, l, p, u))
    requires Covers(plan, g.View(), at, At(FfnNormQ, l, p), fq) && Covers(plan, g.View(), at, Selected(plan, l, p), rt)
    modifies g, g.graph
    ensures ge.Ok? ==> Built(g, old(g.View()), {fq, rt}, {ge.value, ue}) && Lawful(plan, g.View(), at')
    ensures ge.Ok? ==> GainsTwo(at, at', AtExpert(ExpertGate, l, p, u), AtExpert(ExpertUp, l, p, u))
    ensures ge.Ok? ==> Covers(plan, g.View(), at', AtExpert(ExpertGate, l, p, u), ge.value)
    ensures ge.Ok? ==> Covers(plan, g.View(), at', AtExpert(ExpertUp, l, p, u), ue)
    ensures ge.Died? ==> ge.why == FULL
  {
    ghost var b := g.View();
    ue := 0;
    ghost var at1;
    SameGroup(ExpertGate, ExpertUp, l, p, u);
    ExpertDotReady(plan, b, at, ExpertGate, l, p, u, fq, rt);
    ge, at1 := AddDot(g, STREAM_DOT_IDX, [fq, rt], plan.tiles(l, ExpertGate), plan, OneExpert(ExpertGate, l, p, u), at);
    if ge.Died? { return ge, 0, at; }
    ghost var b1 := g.View();
    UpReady(plan, b, b1, at, at1, l, p, u, fq, rt);
    var up;
    up, at' := AddDot(g, STREAM_DOT_IDX, [fq, rt], plan.tiles(l, ExpertUp), plan, OneExpert(ExpertUp, l, p, u), at1);
    if up.Died? { return up, 0, at; }
    ue := up.value;
    CoversStays(plan, b1, g.View(), at1, at', AtExpert(ExpertGate, l, p, u), ge.value);
    GateUpAdds(b, b1, g.View(), fq, rt, ge.value, ue);
    GainsBoth(at, at1, at', AtExpert(ExpertGate, l, p, u), AtExpert(ExpertUp, l, p, u));
  }

  lemma UpReady(plan: Plan, b: Build, b1: Build, at: Labels, at1: Labels, l: nat, p: nat, u: nat, fq: nat, rt: nat)
    requires ExpertPlace(plan, l, p, u) && Gains(at, at1, AtExpert(ExpertGate, l, p, u)) && Grew(b, b1)
    requires Fresh(at, AtExpert(ExpertUp, l, p, u))
    requires Covers(plan, b, at, At(FfnNormQ, l, p), fq) && Covers(plan, b, at, Selected(plan, l, p), rt)
    ensures TilesOk(plan, b1, at1, STREAM_DOT_IDX, OneExpert(ExpertUp, l, p, u), [fq, rt]) && AllReal(b1, [fq, rt])
    ensures Width(plan, ExpertUp, l) == plan.tiles(l, ExpertUp)
  {
    CoversStays(plan, b, b1, at, at1, At(FfnNormQ, l, p), fq);
    CoversStays(plan, b, b1, at, at1, Selected(plan, l, p), rt);
    GainsBoth(at, at1, at1, AtExpert(ExpertGate, l, p, u), AtExpert(ExpertGate, l, p, u));
    FreshStays(at, at1, AtExpert(ExpertGate, l, p, u), AtExpert(ExpertGate, l, p, u), AtExpert(ExpertUp, l, p, u));
    ExpertDotReady(plan, b1, at1, ExpertUp, l, p, u, fq, rt);
  }

  lemma GateUpAdds(b: Build, b1: Build, b2: Build, fq: nat, rt: nat, ge: nat, ue: nat)
    requires IsReal(b, fq) && IsReal(b, rt)
    requires Adds(b, b1, Elems([fq, rt]), {ge}) && Adds(b1, b2, Elems([fq, rt]), {ue})
    ensures Adds(b, b2, {fq, rt}, {ge, ue})
  {
    ElemsTwo(fq, rt);
    AddsBeside(b, b1, b2, {fq, rt}, {ge}, {fq, rt}, {ue});
    assert {fq, rt} + {fq, rt} == {fq, rt} && {ge} + {ue} == {ge, ue};
  }

  /** An expert's activation. */
  method ExpertSilus(g: Builder, ge: nat, ue: nat, ghost plan: Plan, ghost l: nat, ghost p: nat, ghost u: nat,
                     ghost at: Labels)
    returns (r: Result<nat>, ghost at': Labels)
    requires Passing(g, plan, at) && ExpertPlace(plan, l, p, u)
    requires Fresh(at, AtExpert(ExpertSilu, l, p, u)) && Fresh(at, AtExpert(ExpertSiluQ, l, p, u))
    requires Covers(plan, g.View(), at, AtExpert(ExpertGate, l, p, u), ge)
      && Covers(plan, g.View(), at, AtExpert(ExpertUp, l, p, u), ue)
    modifies g, g.graph
    ensures r.Ok? ==> Built(g, old(g.View()), {ge, ue}, {r.value}) && Lawful(plan, g.View(), at')
    ensures r.Ok? ==> GainsTwo(at, at', AtExpert(ExpertSilu, l, p, u), AtExpert(ExpertSiluQ, l, p, u))
    ensures r.Ok? ==> Covers(plan, g.View(), at', AtExpert(ExpertSiluQ, l, p, u), r.value)
    ensures r.Died? ==> r.why == FULL
  {
    ExpertSiluReady(plan, g.View(), at, l, p, u, ge, ue);
    SameGroup(ExpertSilu, ExpertSiluQ, l, p, u);
    ElemsTwo(ge, ue);
    r, at' := QuantizedOp(g, SILU_MUL, [ge, ue], plan, OneExpert(ExpertSilu, l, p, u), ExpertSiluQ, at);
  }

  /** An expert's second product. */
  method ExpertDownOf(g: Builder, hq: nat, plan: Plan, l: nat, ghost p: nat, ghost u: nat, ghost at: Labels)
    returns (r: Result<nat>, ghost at': Labels)
    requires Passing(g, plan, at) && ExpertPlace(plan, l, p, u) && Fresh(at, AtExpert(ExpertDown, l, p, u))
    requires Covers(plan, g.View(), at, AtExpert(ExpertSiluQ, l, p, u), hq)
    modifies g, g.graph
    ensures r.Ok? ==> Built(g, old(g.View()), {hq}, {r.value}) && Lawful(plan, g.View(), at')
    ensures r.Ok? ==> Gains(at, at', AtExpert(ExpertDown, l, p, u))
    ensures r.Ok? ==> Covers(plan, g.View(), at', AtExpert(ExpertDown, l, p, u), r.value)
    ensures r.Died? ==> r.why == FULL
  {
    ExpertDownReady(plan, g.View(), at, l, p, u, hq);
    SameGroup(ExpertDown, ExpertDown, l, p, u);
    ElemsOne(hq);
    r, at' := AddDot(g, STREAM_DOT_IDX, [hq], plan.tiles(l, ExpertDown), plan, OneExpert(ExpertDown, l, p, u), at);
  }

  /** What of an expert is still free after its gate and up, and after its activation. */
  lemma ExpertStillFresh(at: Labels, at1: Labels, at2: Labels, l: nat, p: nat, u: nat)
    requires Reaches(at, l, 9, p, u) && GainsTwo(at, at1, AtExpert(ExpertGate, l, p, u), AtExpert(ExpertUp, l, p, u))
    ensures Fresh(at1, AtExpert(ExpertSilu, l, p, u)) && Fresh(at1, AtExpert(ExpertSiluQ, l, p, u))
    ensures GainsTwo(at1, at2, AtExpert(ExpertSilu, l, p, u), AtExpert(ExpertSiluQ, l, p, u)) ==>
      Fresh(at2, AtExpert(ExpertDown, l, p, u))
  {
    ExpertFresh(at, l, p, u, ExpertSilu);
    ExpertFresh(at, l, p, u, ExpertSiluQ);
    ExpertFresh(at, l, p, u, ExpertDown);
    var gate, up := AtExpert(ExpertGate, l, p, u), AtExpert(ExpertUp, l, p, u);
    var silu, quant := AtExpert(ExpertSilu, l, p, u), AtExpert(ExpertSiluQ, l, p, u);
    FreshStays(at, at1, gate, up, silu);
    FreshStays(at, at1, gate, up, quant);
    FreshStays(at, at1, gate, up, AtExpert(ExpertDown, l, p, u));
    if GainsTwo(at1, at2, silu, quant) { FreshStays(at1, at2, silu, quant, AtExpert(ExpertDown, l, p, u)); }
  }

  /** One routed expert of one position. */
  method Expert(g: Builder, fq: nat, rt: nat, plan: Plan, l: nat, ghost p: nat, ghost u: nat, ghost at: Labels)
    returns (r: Result<nat>, ghost at': Labels)
    requires Passing(g, plan, at) && ExpertPlace(plan, l, p, u) && Reaches(at, l, 9, p, u)
    requires Covers(plan, g.View(), at, At(FfnNormQ, l, p), fq) && Covers(plan, g.View(), at, Selected(plan, l, p), rt)
    modifies g, g.graph
    ensures r.Ok? ==> Built(g, old(g.View()), {fq, rt}, {r.value}) && Lawful(plan, g.View(), at')
    ensures r.Ok? ==> Sub(at, at') && Reaches(at', l, 9, p, u + 1)
    ensures r.Ok? ==> Covers(plan, g.View(), at', AtExpert(ExpertDown, l, p, u), r.value)
    ensures r.Died? ==> r.why == FULL
  {
    ghost var b := g.View();
    var ge, ue, hq;
    ghost var at1, at2;
    ExpertFresh(at, l, p, u, ExpertGate);
    ExpertFresh(at, l, p, u, ExpertUp);
    ge, ue, at1 := ExpertGateUp(g, fq, rt, plan, l, p, u, at);
    if ge.Died? { return ge, at; }
    ghost var b1 := g.View();
    ExpertStillFresh(at, at1, at1, l, p, u);
    hq, at2 := ExpertSilus(g, ge.value, ue, plan, l, p, u, at1);
    if hq.Died? { return hq, at; }
    ghost var b2 := g.View();
    ExpertStillFresh(at, at1, at2, l, p, u);
    r, at' := ExpertDownOf(g, hq.value, plan, l, p, u, at2);
    if r.Ok? {
      AddsAfter(b, b1, b2, {fq, rt}, {ge.value, ue}, {hq.value});
      AddsAfter(b, b2, g.View(), {fq, rt}, {hq.value}, {r.value});
      ExpertReaches(at, at1, at2, at', l, p, u);
    }
  }

  /** The first |downs| experts of position p. */
  ghost predicate DownsDone(plan: Plan, b: Build, now: Build, at: Labels, at1: Labels, l: nat, p: nat, fq: nat, rt: nat,
                            downs: seq<nat>) {
    && Adds(b, now, if downs == [] then {} else {fq, rt}, Elems(downs)) && Sub(at, at1)
        && Reaches(at1, l, 9, p, |downs|)
    && forall u :: 0 <= u < |downs| ==> Covers(plan, now, at1, AtExpert(ExpertDown, l, p, u), downs[u])
  }

  lemma DownsMore(plan: Plan, b: Build, was: Build, now: Build, at: Labels, at1: Labels, at2: Labels, l: nat, p: nat,
                  fq: nat, rt: nat, downs: seq<nat>, y: nat)
    requires DownsDone(plan, b, was, at, at1, l, p, fq, rt, downs) && IsReal(b, fq) && IsReal(b, rt)
    requires Adds(was, now, {fq, rt}, {y}) && Sub(at1, at2) && Reaches(at2, l, 9, p, |downs| + 1)
    requires Covers(plan, now, at2, AtExpert(ExpertDown, l, p, |downs|), y)
    ensures DownsDone(plan, b, now, at, at2, l, p, fq, rt, downs + [y])
  {
    MoreOfSame(b, was, now, if downs == [] then {} else {fq, rt}, {fq, rt}, downs, y);
    forall u | 0 <= u < |downs| ensures Covers(plan, now, at2, AtExpert(ExpertDown, l, p, u), downs[u]) {
      CoversStays(plan, was, now, at1, at2, AtExpert(ExpertDown, l, p, u), downs[u]);
    }
  }

  /** One more task that uses the same old tasks as those before it. */
  lemma MoreOfSame(b: Build, was: Build, now: Build, used: set<nat>, olds: set<nat>, ys: seq<nat>, y: nat)
    requires used <= olds && forall x :: x in olds ==> x < |b.role|
    requires Adds(b, was, used, Elems(ys)) && Adds(was, now, olds, {y})
    ensures Adds(b, now, olds, Elems(ys + [y]))
  {
    ElemsMore(ys, y);
    AddsBeside(b, was, now, used, Elems(ys), olds, {y});
    assert used + olds == olds;
  }

  method NextExpert(g: Builder, fq: nat, rt: nat, downs: seq<nat>, plan: Plan, l: nat, ghost p: nat, ghost b: Build,
                    ghost at: Labels, ghost at1: Labels)
    returns (one: Result<nat>, ghost at2: Labels)
    requires Passing(g, plan, at1) && ExpertPlace(plan, l, p, |downs|)
    requires Covers(plan, b, at, At(FfnNormQ, l, p), fq) && Covers(plan, b, at, Selected(plan, l, p), rt)
    requires DownsDone(plan, b, g.View(), at, at1, l, p, fq, rt, downs)
    modifies g, g.graph
    ensures one.Ok? ==> Passing(g, plan, at2)
    ensures one.Ok? ==> DownsDone(plan, b, g.View(), at, at2, l, p, fq, rt, downs + [one.value])
    ensures one.Died? ==> one.why == FULL
  {
    ghost var was := g.View();
    CoversStays(plan, b, was, at, at1, At(FfnNormQ, l, p), fq);
    CoversStays(plan, b, was, at, at1, Selected(plan, l, p), rt);
    one, at2 := Expert(g, fq, rt, plan, l, p, |downs|, at1);
    if one.Ok? { DownsMore(plan, b, was, g.View(), at, at1, at2, l, p, fq, rt, downs, one.value); }
  }

  method EachExpert(g: Builder, fq: nat, rt: nat, n: Count, plan: Plan, l: nat, ghost p: nat, ghost at: Labels)
    returns (r: Result<seq<nat>>, ghost at': Labels)
    requires Passing(g, plan, at) && Routed(plan, l, p) && n == plan.used(p) && Reaches(at, l, 9, p, 0)
    requires Covers(plan, g.View(), at, At(FfnNormQ, l, p), fq) && Covers(plan, g.View(), at, Selected(plan, l, p), rt)
    modifies g, g.graph
    ensures r.Ok? ==> Passing(g, plan, at') && |r.value| == n
    ensures r.Ok? ==> DownsDone(plan, old(g.View()), g.View(), at, at', l, p, fq, rt, r.value)
    ensures r.Died? ==> r.why == FULL
  {
    ghost var b := g.View();
    at' := at;
    var downs: seq<nat> := [];
    AddsNothing(b);
    for u := 0 to n
      invariant Passing(g, plan, at') && |downs| == u && DownsDone(plan, b, g.View(), at, at', l, p, fq, rt, downs)
    {
      var one;
      one, at' := NextExpert(g, fq, rt, downs, plan, l, p, b, at, at');
      if one.Died? { return Died(one.why), at'; }
      downs := downs + [one.value];
    }
    r := Ok(downs);
  }

  /** All routed experts of a position. */
  function ExpertsOf(plan: Plan, l: nat, p: nat): Group { Group(ExpertDown, l, p, p + 1, 0, plan.used(p)) }

  lemma DownsGathered(plan: Plan, b: Build, now: Build, at: Labels, at1: Labels, l: nat, p: nat, fq: nat, rt: nat,
                      downs: seq<nat>)
    requires DownsDone(plan, b, now, at, at1, l, p, fq, rt, downs) && |downs| == plan.used(p)
    ensures Gathered(plan, now, at1, ExpertsOf(plan, l, p), downs) && Reaches(at1, l, 9, p + 1, 0)
  {
    var all := ExpertsOf(plan, l, p);
    forall c | InGroup(plan, all, c) ensures exists i :: 0 <= i < |downs| && Reached(now, at1, c, downs[i]) {
      assert Covers(plan, now, at1, AtExpert(ExpertDown, l, p, c.u), downs[c.u]);
      assert InGroup(plan, AtExpert(ExpertDown, l, p, c.u), c);
      assert Reached(now, at1, c, downs[c.u]);
    }
  }

  /** A position's routed experts, gathered. */
  method Gathers(g: Builder, fq: nat, rt: nat, n: Count, plan: Plan, l: nat, ghost p: nat, ghost at: Labels)
    returns (r: Result<nat>, ghost at': Labels)
    requires Passing(g, plan, at) && Routed(plan, l, p) && n == plan.used(p) && Reaches(at, l, 9, p, 0)
    requires Covers(plan, g.View(), at, At(FfnNormQ, l, p), fq) && Covers(plan, g.View(), at, Selected(plan, l, p), rt)
    modifies g, g.graph
    ensures r.Ok? ==> Built(g, old(g.View()), {fq, rt}, {r.value}) && Lawful(plan, g.View(), at')
    ensures r.Ok? ==> Sub(at, at') && Reaches(at', l, 9, p + 1, 0)
    ensures r.Ok? ==> Covers(plan, g.View(), at', ExpertsOf(plan, l, p), r.value)
    ensures r.Died? ==> r.why == FULL
  {
    ghost var b := g.View();
    var downs;
    downs, at' := EachExpert(g, fq, rt, n, plan, l, p, at);
    if downs.Died? { return Died(downs.why), at'; }
    ghost var was := g.View();
    OutsReal(b, was, {fq, rt}, downs.value);
    DownsGathered(plan, b, was, at, at', l, p, fq, rt, downs.value);
    r := FanIn(g, downs.value, plan, ExpertsOf(plan, l, p), at');
    if r.Ok? { AddsAfter(b, was, g.View(), {fq, rt}, Elems(downs.value), {r.value}); }
  }

  /** Producers that cover each position's routed experts. */
  ghost predicate ExpertRow(plan: Plan, b: Build, at: Labels, l: nat, ys: seq<nat>) {
    forall p :: 0 <= p < |ys| ==> Covers(plan, b, at, ExpertsOf(plan, l, p), ys[p])
  }

  lemma ExpertRowStays(plan: Plan, b: Build, b': Build, at: Labels, at': Labels, l: nat, ys: seq<nat>)
    requires Grew(b, b') && Sub(at, at') && ExpertRow(plan, b, at, l, ys)
    ensures ExpertRow(plan, b', at', l, ys)
  {
    forall p | 0 <= p < |ys| ensures Covers(plan, b', at', ExpertsOf(plan, l, p), ys[p]) {
      CoversStays(plan, b, b', at, at', ExpertsOf(plan, l, p), ys[p]);
    }
  }

  /** The experts of the first |ys| positions. */
  ghost predicate ExpertsDone(plan: Plan, b: Build, now: Build, at: Labels, at1: Labels, l: nat, depss: seq<seq<nat>>,
                              ys: seq<nat>) {
    && |ys| <= |depss| && Adds(b, now, Flat(depss[..|ys|]), Elems(ys))
    && Sub(at, at1) && Reaches(at1, l, 9, |ys|, 0) && ExpertRow(plan, now, at1, l, ys)
  }

  lemma ExpertsMore(plan: Plan, b: Build, was: Build, now: Build, at: Labels, at1: Labels, at2: Labels, l: nat,
                    depss: seq<seq<nat>>, ys: seq<nat>, y: nat)
    requires ExpertsDone(plan, b, was, at, at1, l, depss, ys) && |ys| < |depss| && AllAreReal(b, depss)
    requires Adds(was, now, Elems(depss[|ys|]), {y}) && Sub(at1, at2) && Reaches(at2, l, 9, |ys| + 1, 0)
    requires Covers(plan, now, at2, ExpertsOf(plan, l, |ys|), y)
    ensures ExpertsDone(plan, b, now, at, at2, l, depss, ys + [y])
  {
    ChainAdds(b, was, now, depss, ys, y);
    ExpertRowStays(plan, was, now, at1, at2, l, ys);
  }

  /** What all positions' experts start from. */
  ghost predicate ExpertsReady(plan: Plan, b: Build, at: Labels, l: nat, fq: seq<nat>, rts: seq<nat>) {
    && plan.dense <= l < plan.layers && |fq| == plan.m && Row(plan, b, at, FfnNormQ, l, fq)
        && SelectRow(plan, b, at, l, rts)
  }

  lemma ExpertsReal(plan: Plan, b: Build, at: Labels, l: nat, fq: seq<nat>, rts: seq<nat>)
    requires ExpertsReady(plan, b, at, l, fq, rts)
    ensures AllAreReal(b, Pairs(fq, rts)) && Flat(Pairs(fq, rts)) == Elems(fq) + Elems(rts)
  {
    forall p | 0 <= p < |fq| ensures AllReal(b, Pairs(fq, rts)[p]) {
      BothHeld(plan, b, at, At(FfnNormQ, l, p), Selected(plan, l, p), fq[p], rts[p]);
    }
    FlatPairs(fq, rts);
  }

  method NextGathers(g: Builder, plan: Plan, fq: seq<nat>, rts: seq<nat>, ys: seq<nat>, l: nat, ghost b: Build,
                     ghost at: Labels, ghost at1: Labels)
    returns (one: Result<nat>, ghost at2: Labels)
    requires Passing(g, plan, at1) && ExpertsReady(plan, b, at, l, fq, rts) && |ys| < |fq|
    requires ExpertsDone(plan, b, g.View(), at, at1, l, Pairs(fq, rts), ys)
    modifies g, g.graph
    ensures one.Ok? ==> Passing(g, plan, at2)
    ensures one.Ok? ==> ExpertsDone(plan, b, g.View(), at, at2, l, Pairs(fq, rts), ys + [one.value])
    ensures one.Died? ==> one.why == FULL
  {
    ghost var was := g.View();
    var p := |ys|;
    ExpertsReal(plan, b, at, l, fq, rts);
    CoversStays(plan, b, was, at, at1, At(FfnNormQ, l, p), fq[p]);
    CoversStays(plan, b, was, at, at1, Selected(plan, l, p), rts[p]);
    one, at2 := Gathers(g, fq[p], rts[p], plan.used(p), plan, l, p, at1);
    if one.Ok? {
      ElemsTwo(fq[p], rts[p]);
      ExpertsMore(plan, b, was, g.View(), at, at1, at2, l, Pairs(fq, rts), ys, one.value);
    }
  }

  method EachExperts(g: Builder, plan: Plan, fq: seq<nat>, rts: seq<nat>, l: nat, ghost at: Labels)
    returns (r: Result<seq<nat>>, ghost at': Labels)
    requires Passing(g, plan, at) && ExpertsReady(plan, g.View(), at, l, fq, rts) && Reaches(at, l, 9, 0, 0)
    modifies g, g.graph
    ensures r.Ok? ==> Built(g, old(g.View()), Elems(fq) + Elems(rts), Elems(r.value)) && |r.value| == plan.m
    ensures r.Ok? ==> Lawful(plan, g.View(), at') && Sub(at, at') && Reaches(at', l, 10, 0, 0)
    ensures r.Ok? ==> ExpertRow(plan, g.View(), at', l, r.value)
    ensures r.Died? ==> r.why == FULL
  {
    ghost var b := g.View();
    ghost var depss := Pairs(fq, rts);
    at' := at;
    var ys: seq<nat> := [];
    AddsNothing(b);
    assert Flat(depss[..0]) == {} == Elems(ys);
    for p := 0 to |fq|
      invariant Passing(g, plan, at') && |ys| == p && ExpertsDone(plan, b, g.View(), at, at', l, depss, ys)
    {
      var one;
      one, at' := NextGathers(g, plan, fq, rts, ys, l, b, at, at');
      if one.Died? { return Died(one.why), at'; }
      ys := ys + [one.value];
    }
    assert depss[..|fq|] == depss;
    ExpertsReal(plan, b, at, l, fq, rts);
    ExpertsReach(at', l, plan.m);
    r := Ok(ys);
  }

  lemma ExpertsReach(at: Labels, l: nat, m: nat)
    requires Reaches(at, l, 9, m, 0)
    ensures Reaches(at, l, 10, 0, 0)
  {}

  /** Routers and routed experts of all positions. */
  method Experts(g: Builder, plan: Plan, fn: seq<nat>, fq: seq<nat>, l: nat, ghost at: Labels)
    returns (r: Result<seq<nat>>, ghost at': Labels)
    requires Passing(g, plan, at) && plan.dense <= l < plan.layers && |fn| == |fq| == plan.m
    requires Row(plan, g.View(), at, FfnNorm, l, fn) && Row(plan, g.View(), at, FfnNormQ, l, fq)
      && Reaches(at, l, 8, 0, 0)
    modifies g, g.graph
    ensures r.Ok? ==> Built(g, old(g.View()), Elems(fn) + Elems(fq), Elems(r.value)) && |r.value| == plan.m
    ensures r.Ok? ==> Lawful(plan, g.View(), at') && Sub(at, at') && Reaches(at', l, 10, 0, 0)
    ensures r.Ok? ==> ExpertRow(plan, g.View(), at', l, r.value)
    ensures r.Died? ==> r.why == FULL
  {
    ghost var b := g.View();
    ghost var at1;
    var rts;
    rts, at1 := Selections(g, plan, fn, l, at);
    if rts.Died? { return rts, at; }
    ghost var b1 := g.View();
    RowReal(plan, b, at, FfnNormQ, l, fq);
    RowStays(plan, b, b1, at, at1, FfnNormQ, l, fq);
    r, at' := EachExperts(g, plan, fq, rts.value, l, at1);
    if r.Ok? { RoutedAdds(b, b1, g.View(), fn, fq, Elems(rts.value), Elems(r.value)); }
  }

  lemma RoutedAdds(b: Build, b1: Build, b2: Build, fn: seq<nat>, fq: seq<nat>, rts: set<nat>, o: set<nat>)
    requires AllReal(b, fq) && Adds(b, b1, Elems(fn), rts) && Adds(b1, b2, Elems(fq) + rts, o)
    ensures Adds(b, b2, Elems(fn) + Elems(fq), o)
  {
    RealAreOld(b, fq);
    AddsThen(b, b1, b2, Elems(fn), rts, Elems(fq) + rts, o, Elems(fn) + Elems(fq), o);
  }

  // ------------------------------------------------------------ the merges

  /** What a position's merge waits for; no routed experts in a dense layer. */
  function MergeDeps(rd: seq<nat>, sd: seq<nat>, tx: seq<nat>): (r: seq<seq<nat>>)
    requires |sd| == |tx| && (rd == [] || |rd| == |tx|)
    ensures |r| == |tx|
  {
    if rd == [] then Pairs(sd, tx) else seq(|tx|, p requires 0 <= p < |tx| => [rd[p], sd[p], tx[p]])
  }

  lemma FlatMerge(rd: seq<nat>, sd: seq<nat>, tx: seq<nat>)
    requires |sd| == |tx| && (rd == [] || |rd| == |tx|)
    ensures Flat(MergeDeps(rd, sd, tx)) == Elems(rd) + Elems(sd) + Elems(tx)
  {
    var ds := MergeDeps(rd, sd, tx);
    if rd == [] { FlatPairs(sd, tx); }
    else {
      forall x ensures x in Flat(ds) <==> x in Elems(rd) || x in Elems(sd) || x in Elems(tx) {
        if x in Elems(rd) { var p :| 0 <= p < |rd| && rd[p] == x; assert ds[p][0] == x && x in ds[p]; }
        if x in Elems(sd) { var p :| 0 <= p < |sd| && sd[p] == x; assert ds[p][1] == x && x in ds[p]; }
        if x in Elems(tx) { var p :| 0 <= p < |tx| && tx[p] == x; assert ds[p][2] == x && x in ds[p]; }
      }
    }
  }

  /** What the branches of the feed-forward leave to merge. */
  ghost predicate Branched(plan: Plan, b: Build, at: Labels, l: nat, rd: seq<nat>, sd: seq<nat>) {
    && |sd| == plan.m && Row(plan, b, at, Down, l, sd)
    && if l < plan.dense then rd == [] else |rd| == plan.m && ExpertRow(plan, b, at, l, rd)
  }

  lemma MergeNeeds(plan: Plan, l: nat, p: nat)
    requires Place(plan, l, p)
    ensures OfPass(plan, Label(Merge, l, p, 0, 0)) && Width(plan, Merge, l) == 1
    ensures NeedsOf(plan, Label(Merge, l, p, 0, 0)) ==
            if l < plan.dense then [At(Down, l, p), At(Add, l, p)]
                else [ExpertsOf(plan, l, p), At(Down, l, p), At(Add, l, p)]
  {}

  lemma MergePlaceReady(plan: Plan, b: Build, at: Labels, l: nat, p: nat, rd: seq<nat>, sd: seq<nat>, tx: seq<nat>)
    requires Place(plan, l, p) && Branched(plan, b, at, l, rd, sd) && |tx| == plan.m && Row(plan, b, at, Add, l, tx)
    ensures PlaceReady(plan, b, at, Merge, l, p, MergeDeps(rd, sd, tx)[p]) && AllReal(b, MergeDeps(rd, sd, tx)[p])
  {
    MergeNeeds(plan, l, p);
    if l < plan.dense {
      BothHeld(plan, b, at, At(Down, l, p), At(Add, l, p), sd[p], tx[p]);
    } else {
      ThreeHeld(plan, b, at, ExpertsOf(plan, l, p), At(Down, l, p), At(Add, l, p), rd[p], sd[p], tx[p]);
    }
  }

  lemma ThreeHeld(plan: Plan, b: Build, at: Labels, g: Group, h: Group, k: Group, x: nat, y: nat, z: nat)
    requires Covers(plan, b, at, g, x) && Covers(plan, b, at, h, y) && Covers(plan, b, at, k, z)
    ensures HeldBy(plan, b, at, g, [x, y, z]) && HeldBy(plan, b, at, h, [x, y, z]) && HeldBy(plan, b, at, k, [x, y, z])
    ensures AllReal(b, [x, y, z])
  {
    assert [x, y, z][0] == x && [x, y, z][1] == y && [x, y, z][2] == z;
  }

  /** The merges that end the layer. */
  method Merges(g: Builder, plan: Plan, rd: seq<nat>, sd: seq<nat>, tx: seq<nat>, ghost l: nat, ghost at: Labels)
    returns (r: Result<seq<nat>>, ghost at': Labels)
    requires Passing(g, plan, at) && l < plan.layers && Branched(plan, g.View(), at, l, rd, sd)
    requires |tx| == plan.m && Row(plan, g.View(), at, Add, l, tx) && Reaches(at, l, 14, 0, 0)
    modifies g, g.graph
    ensures r.Ok? ==> Built(g, old(g.View()), Elems(rd) + Elems(sd) + Elems(tx), Elems(r.value)) && |r.value| == plan.m
    ensures r.Ok? ==> Lawful(plan, g.View(), at') && Sub(at, at') && Reaches(at', l + 1, 0, 0, 0)
    ensures r.Ok? ==> Row(plan, g.View(), at', Merge, l, r.value)
    ensures r.Died? ==> r.why == FULL
  {
    MergesReady(plan, g.View(), at, l, rd, sd, tx);
    FlatMerge(rd, sd, tx);
    r, at' := EachOp(g, WMERGE, MergeDeps(rd, sd, tx), plan, Merge, l, at);
    if r.Ok? { MergesReach(plan, l, at, at'); }
  }

  lemma MergesReady(plan: Plan, b: Build, at: Labels, l: nat, rd: seq<nat>, sd: seq<nat>, tx: seq<nat>)
    requires l < plan.layers && Branched(plan, b, at, l, rd, sd) && Reaches(at, l, 14, 0, 0)
    requires |tx| == plan.m && Row(plan, b, at, Add, l, tx)
    ensures OpReady(plan, b, at, Merge, l, MergeDeps(rd, sd, tx))
  {
    forall p: nat | p < plan.m
      ensures PlaceReady(plan, b, at, Merge, l, p, MergeDeps(rd, sd, tx)[p]) && AllReal(b, MergeDeps(rd, sd, tx)[p])
    {
      MergePlaceReady(plan, b, at, l, p, rd, sd, tx);
    }
    MergeNeeds(plan, l, 0);
    ReachesFresh(at, l, 14, Merge, plan.m);
  }

  lemma MergesReach(plan: Plan, l: nat, at: Labels, at': Labels)
    requires Reaches(at, l, 14, 0, 0) && Gains(at, at', First(Merge, l, plan.m))
    ensures Sub(at, at') && Reaches(at', l + 1, 0, 0, 0)
  {}

  /** Stage H: the feed-forward of either kind, without the merges. */
  method Branches(g: Builder, plan: Plan, fn: seq<nat>, fq: seq<nat>, dense: bool, l: nat, ghost at: Labels)
    returns (r: Result<seq<nat>>, rd: seq<nat>, ghost at': Labels)
    requires Passing(g, plan, at) && l < plan.layers && dense == (l < plan.dense) && |fn| == |fq| == plan.m
    requires Row(plan, g.View(), at, FfnNorm, l, fn) && Row(plan, g.View(), at, FfnNormQ, l, fq)
      && Reaches(at, l, 8, 0, 0)
    modifies g, g.graph
    ensures r.Ok? ==>
      Built(g, old(g.View()), (if dense then {} else Elems(fn)) + Elems(fq), Elems(rd) + Elems(r.value))
    ensures r.Ok? ==> Lawful(plan, g.View(), at') && Sub(at, at') && Reaches(at', l, 14, 0, 0)
    ensures r.Ok? ==> Branched(plan, g.View(), at', l, rd, r.value)
    ensures r.Died? ==> r.why == FULL
  {
    ghost var b := g.View();
    rd := [];
    if dense {
      DenseReach(at, l);
      r, at' := GateUpDown(g, plan, fq, l, at);
      assert {} + Elems(fq) == Elems(fq) && Elems(rd) == {};
    } else {
      r, rd, at' := RoutedBranches(g, plan, fn, fq, l, at);
    }
  }

  lemma DenseReach(at: Labels, l: nat)
    requires Reaches(at, l, 8, 0, 0)
    ensures Reaches(at, l, 10, 0, 0)
  {}

  /** Routed experts, then the shared one. */
  method RoutedBranches(g: Builder, plan: Plan, fn: seq<nat>, fq: seq<nat>, l: nat, ghost at: Labels)
    returns (r: Result<seq<nat>>, rd: seq<nat>, ghost at': Labels)
    requires Passing(g, plan, at) && plan.dense <= l < plan.layers && |fn| == |fq| == plan.m
    requires Row(plan, g.View(), at, FfnNorm, l, fn) && Row(plan, g.View(), at, FfnNormQ, l, fq)
      && Reaches(at, l, 8, 0, 0)
    modifies g, g.graph
    ensures r.Ok? ==> Built(g, old(g.View()), Elems(fn) + Elems(fq), Elems(rd) + Elems(r.value))
    ensures r.Ok? ==> Lawful(plan, g.View(), at') && Sub(at, at') && Reaches(at', l, 14, 0, 0)
    ensures r.Ok? ==> Branched(plan, g.View(), at', l, rd, r.value)
    ensures r.Died? ==> r.why == FULL
  {
    ghost var b := g.View();
    ghost var at1;
    var routed;
    routed, at1 := Experts(g, plan, fn, fq, l, at);
    if routed.Died? { return routed, [], at; }
    ghost var b1 := g.View();
    rd := routed.value;
    RowReal(plan, b, at, FfnNormQ, l, fq);
    RowStays(plan, b, b1, at, at1, FfnNormQ, l, fq);
    r, at' := GateUpDown(g, plan, fq, l, at1);
    if r.Ok? {
      ExpertRowStays(plan, b1, g.View(), at1, at', l, rd);
      SharedAdds(b, b1, g.View(), fn, fq, Elems(rd), Elems(r.value));
    }
  }

  lemma SharedAdds(b: Build, b1: Build, b2: Build, fn: seq<nat>, fq: seq<nat>, rd: set<nat>, sd: set<nat>)
    requires AllReal(b, fq) && Adds(b, b1, Elems(fn) + Elems(fq), rd) && Adds(b1, b2, Elems(fq), sd)
    ensures Adds(b, b2, Elems(fn) + Elems(fq), rd + sd)
  {
    RealAreOld(b, fq);
    AddsBeside(b, b1, b2, Elems(fn) + Elems(fq), rd, Elems(fq), sd);
    assert Elems(fn) + Elems(fq) + Elems(fq) == Elems(fn) + Elems(fq);
  }

  /** Stage F: output projection; stage G: residual, norm. */
  method Residuals(g: Builder, plan: Plan, ctx: seq<nat>, res: seq<nat>, l: nat, ghost at: Labels)
    returns (tx: Result<seq<nat>>, fn: seq<nat>, fq: seq<nat>, so: seq<nat>, ghost b1: Build, ghost at': Labels)
    requires Passing(g, plan, at) && l < plan.layers && ResOk(plan, g.View(), at, l, res)
    requires |ctx| == plan.m && Row(plan, g.View(), at, HeadQ, l, ctx) && Reaches(at, l, 6, 0, 0)
    modifies g, g.graph
    ensures tx.Ok? ==> Passing(g, plan, at') && Adds(old(g.View()), b1, Elems(ctx), Elems(so)) && |so| == plan.m
    ensures tx.Ok? ==> NormedLoose(b1, g.View(), AddDeps(so, res), plan.m, tx.value, fn, fq)
    ensures tx.Ok? ==> NormedMarked(plan, g.View(), at, at', l, plan.m, tx.value, fn, fq)
    ensures tx.Ok? ==> Flat(AddDeps(so, res)) == Elems(so) + Elems(res) && |tx.value| == |fn| == |fq| == plan.m
    ensures tx.Died? ==> tx.why == FULL
  {
    ghost var b := g.View();
    b1 := b;
    fn, fq, so := [], [], [];
    ghost var at1;
    var outs;
    outs, at1 := Stage(g, plan, ctx, plan.tiles(l, AttnOut), AttnOut, HeadQ, l, 6, at);
    if outs.Died? { return outs, [], [], [], b, at; }
    b1 := g.View();
    so := outs.value;
    ResStays(plan, b, b1, at, at1, l, res);
    RowReal(plan, b1, at1, AttnOut, l, so);
    AddsReady(plan, b1, at1, l, so, res);
    AddDepsAre(b1, so, res);
    tx, fn, fq, at' := AddNorms(g, AddDeps(so, res), plan, l, at1);
  }

  /** The branches of the feed-forward and their merges. */
  method Merged(g: Builder, plan: Plan, tx: seq<nat>, fn: seq<nat>, fq: seq<nat>, dense: bool, l: nat, ghost at: Labels)
    returns (r: Result<seq<nat>>, ghost at': Labels)
    requires Passing(g, plan, at) && l < plan.layers && dense == (l < plan.dense) && |tx| == |fn| == |fq| == plan.m
    requires Row(plan, g.View(), at, Add, l, tx) && Row(plan, g.View(), at, FfnNorm, l, fn)
    requires Row(plan, g.View(), at, FfnNormQ, l, fq) && Reaches(at, l, 8, 0, 0)
    modifies g, g.graph
    ensures r.Ok? ==> |r.value| == plan.m
    ensures r.Ok? ==>
      Built(g, old(g.View()), (if dense then {} else Elems(fn)) + Elems(fq) + Elems(tx), Elems(r.value))
    ensures r.Ok? ==> Lawful(plan, g.View(), at') && Sub(at, at') && Reaches(at', l + 1, 0, 0, 0)
    ensures r.Ok? ==> Row(plan, g.View(), at', Merge, l, r.value)
    ensures r.Died? ==> r.why == FULL
  {
    ghost var b := g.View();
    var sd, rd;
    ghost var at1;
    sd, rd, at1 := Branches(g, plan, fn, fq, dense, l, at);
    if sd.Died? { return sd, at; }
    ghost var b1 := g.View();
    RowReal(plan, b, at, Add, l, tx);
    RowStays(plan, b, b1, at, at1, Add, l, tx);
    r, at' := Merges(g, plan, rd, sd.value, tx, l, at1);
    if r.Ok? {
      MergedAdds(b, b1, g.View(), (if dense then {} else Elems(fn)) + Elems(fq), Elems(rd) + Elems(sd.value), tx,
                 Elems(r.value));
    }
  }

  lemma MergedAdds(b: Build, b1: Build, b2: Build, used: set<nat>, xs: set<nat>, tx: seq<nat>, o: set<nat>)
    requires AllReal(b, tx) && Adds(b, b1, used, xs) && Adds(b1, b2, xs + Elems(tx), o)
    ensures Adds(b, b2, used + Elems(tx), o)
  {
    RealAreOld(b, tx);
    AddsThen(b, b1, b2, used, xs, xs + Elems(tx), o, used + Elems(tx), o);
  }

  lemma GReaches(at: Labels, l: nat, m: nat)
    requires Reaches(at, l, 7, m, 0)
    ensures Reaches(at, l, 8, 0, 0)
  {}

  lemma InnerNew(b: Build, now: Build, xs: seq<nat>)
    requires AllInner(b, now, xs)
    ensures forall x :: x in Elems(xs) ==> |b.role| <= x && x !in LooseEnds(now)
  {
    forall x | x in Elems(xs) ensures |b.role| <= x && x !in LooseEnds(now) {
      var i :| 0 <= i < |xs| && xs[i] == x;
      assert NewInner(b, now, xs[i]);
    }
  }

  lemma FeedForwardAdds(b: Build, b1: Build, b2: Build, b3: Build, ctx: seq<nat>, res: seq<nat>, so: seq<nat>,
                        depss: seq<seq<nat>>, tx: seq<nat>, fn: seq<nat>, fq: seq<nat>, dense: bool, o: set<nat>)
    requires AllReal(b, res) && Adds(b, b1, Elems(ctx), Elems(so)) && Flat(depss) == Elems(so) + Elems(res)
    requires NormedLoose(b1, b2, depss, |depss|, tx, fn, fq)
    requires Adds(b2, b3, (if dense then {} else Elems(fn)) + Elems(fq) + Elems(tx), o)
    ensures Adds(b, b3, Elems(ctx) + Elems(res), o)
  {
    RealAreOld(b, res);
    assert depss[..|depss|] == depss;
    AddsThen(b, b1, b2, Elems(ctx), Elems(so), Elems(so) + Elems(res), Elems(fq), Elems(ctx) + Elems(res), Elems(fq));
    InnerNew(b1, b2, fn);
    InnerNew(b1, b2, tx);
    AddsThen(b, b2, b3, Elems(ctx) + Elems(res), Elems(fq), (if dense then {} else Elems(fn)) + Elems(fq) + Elems(tx),
        o,
             Elems(ctx) + Elems(res), o);
  }

  /** Stages F to H: output projection, residual, feed-forward of either kind, final merge. */
  method FeedForward(g: Builder, plan: Plan, ctx: seq<nat>, res: seq<nat>, dense: bool, l: nat, ghost at: Labels)
    returns (r: Result<seq<nat>>, ghost at': Labels)
    requires Passing(g, plan, at) && l < plan.layers && dense == (l < plan.dense) && ResOk(plan, g.View(), at, l, res)
    requires |ctx| == plan.m && Row(plan, g.View(), at, HeadQ, l, ctx) && Reaches(at, l, 6, 0, 0)
    modifies g, g.graph
    ensures r.Ok? ==> Built(g, old(g.View()), Elems(ctx) + Elems(res), Elems(r.value)) && |r.value| == plan.m
    ensures r.Ok? ==> Lawful(plan, g.View(), at') && Sub(at, at') && Reaches(at', l + 1, 0, 0, 0)
    ensures r.Ok? ==> Row(plan, g.View(), at', Merge, l, r.value)
    ensures r.Died? ==> r.why == FULL
  {
    ghost var b := g.View();
    var tx, fn, fq, so;
    ghost var b1, at1;
    tx, fn, fq, so, b1, at1 := Residuals(g, plan, ctx, res, l, at);
    if tx.Died? { return tx, at; }
    ghost var b2 := g.View();
    GReaches(at1, l, plan.m);
    r, at' := Merged(g, plan, tx.value, fn, fq, dense, l, at1);
    if r.Ok? {
      FeedForwardAdds(b, b1, b2, g.View(), ctx, res, so, AddDeps(so, res), tx.value, fn, fq, dense, Elems(r.value));
    }
  }
}
