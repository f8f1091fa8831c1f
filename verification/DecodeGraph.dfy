/**
  The task graph of a verify batch (src/model/decoder.cpp: build_graph_m):
  every task and every dep_edge, so the relays are there too.  What a task
  computes is left out; what it is for, which tasks come before it, and that
  freeze() accepts the result, is not.
 */
module DecodeGraph {
  import opened GraphBuilder
  import opened GraphOps
  import opened LayerStages
  import opened PassLabels
  import opened PortedGraph
  import opened Results
  import opened TaskGraph
  import opened TaskTable
  import opened TaskTypes
  import D = Decoder

  // ------------------------------------------------------------------ layers

  /** One layer. */
  method BuildLayer(g: Builder, plan: Plan, res: seq<nat>, dense: bool, l: nat, ghost at: Labels)
    returns (r: Result<seq<nat>>, ghost at': Labels)
    requires Passing(g, plan, at) && l < plan.layers && dense == (l < plan.dense)
    requires ResOk(plan, g.View(), at, l, res) && Reaches(at, l, 0, 0, 0)
    modifies g, g.graph
    ensures r.Ok? ==> Built(g, old(g.View()), Elems(res), Elems(r.value)) && Lawful(plan, g.View(), at')
    ensures r.Ok? ==> Reaches(at', l + 1, 0, 0, 0) && ResOk(plan, g.View(), at', l + 1, r.value)
    ensures r.Died? ==> r.why == FULL
  {
    ghost var b := g.View();
    ghost var at1, at2;
    var sq, skva, skvb, ctx;
    sq, skva, skvb, at1 := Projections(g, plan, res, l, at);
    if sq.Died? { return Died(sq.why), at; }
    ghost var b1 := g.View();
    ctx, at2 := Attention(g, plan, sq.value, skva, skvb, l, at1);
    if ctx.Died? { return Died(ctx.why), at; }
    ghost var b2 := g.View();
    ResTwice(plan, b, b1, b2, at, at1, at2, l, res);
    r, at' := FeedForward(g, plan, ctx.value, res, dense, l, at2);
    if r.Ok? {
      LayerAdds(b, b1, b2, g.View(), res, sq.value, skva, skvb, ctx.value, r.value);
      ResNext(plan, g.View(), at', l, r.value);
    }
  }

  lemma ResTwice(plan: Plan, b: Build, b1: Build, b2: Build, at: Labels, at1: Labels, at2: Labels, l: nat,
                 res: seq<nat>)
    requires Grew(b, b1) && Grew(b1, b2) && Sub(at, at1) && Sub(at1, at2) && ResOk(plan, b, at, l, res)
    ensures ResOk(plan, b2, at2, l, res)
  {
    ResStays(plan, b, b1, at, at1, l, res);
    ResStays(plan, b1, b2, at1, at2, l, res);
  }

  lemma ResNext(plan: Plan, b: Build, at: Labels, l: nat, out: seq<nat>)
    requires |out| == plan.m && Row(plan, b, at, Merge, l, out)
    ensures ResOk(plan, b, at, l + 1, out)
  {
    RowReal(plan, b, at, Merge, l, out);
  }

  lemma LayerAdds(b: Build, b1: Build, b2: Build, b3: Build, res: seq<nat>, sq: seq<nat>, skva: seq<nat>,
                  skvb: seq<nat>, ctx: seq<nat>, out: seq<nat>)
    requires AllReal(b, res) && Adds(b, b1, Elems(res), Elems(sq) + Elems(skvb))
    requires forall x :: x in Elems(skva) ==> |b.role| <= x && x !in LooseEnds(b1)
    requires Adds(b1, b2, Elems(sq) + Elems(skva) + Elems(skvb), Elems(ctx))
    requires Adds(b2, b3, Elems(ctx) + Elems(res), Elems(out))
    ensures Adds(b, b3, Elems(res), Elems(out))
  {
    RealAreOld(b, res);
    AddsThen(b, b1, b2, Elems(res), Elems(sq) + Elems(skvb), Elems(sq) + Elems(skva) + Elems(skvb), Elems(ctx),
             Elems(res), Elems(ctx));
    AddsThen(b, b2, b3, Elems(res), Elems(ctx), Elems(ctx) + Elems(res), Elems(out), Elems(res), Elems(out));
  }

  /** The first l layers. */
  ghost predicate SoFar(plan: Plan, b: Build, now: Build, at: Labels, l: nat, res: seq<nat>) {
    && Adds(b, now, {}, Elems(res)) && Lawful(plan, now, at) && Reaches(at, l, 0, 0, 0) && ResOk(plan, now, at, l, res)
  }

  lemma SoFarMore(plan: Plan, b: Build, was: Build, now: Build, at: Labels, at': Labels, l: nat, res: seq<nat>,
                  out: seq<nat>)
    requires SoFar(plan, b, was, at, l, res) && Adds(was, now, Elems(res), Elems(out)) && Lawful(plan, now, at')
    requires Reaches(at', l + 1, 0, 0, 0) && ResOk(plan, now, at', l + 1, out)
    ensures SoFar(plan, b, now, at', l + 1, out)
  {
    AddsAfter(b, was, now, {}, Elems(res), Elems(out));
  }

  ghost function NoLabels(): Labels { map[] }

  lemma SoFarStart(plan: Plan, b: Build)
    ensures SoFar(plan, b, b, NoLabels(), 0, [])
  {
    AddsNothing(b);
  }

  /** The build stands after l layers, or the table was too small. */
  ghost predicate Standing(g: Builder, plan: Plan, b: Build, at: Labels, l: nat, r: Result<seq<nat>>)
    reads g, g.graph
  {
    match r
    case Ok(res) => g.Valid() && SoFar(plan, b, g.View(), at, l, res)
    case Died(why) => why == FULL
  }

  method NextLayer(g: Builder, plan: Plan, r: Result<seq<nat>>, l: nat, ghost b: Build, ghost at: Labels)
    returns (y: Result<seq<nat>>, ghost at': Labels)
    requires Standing(g, plan, b, at, l, r) && r.Ok? && l < plan.layers
    modifies g, g.graph
    ensures Standing(g, plan, b, at', l + 1, y)
  {
    ghost var was := g.View();
    y, at' := BuildLayer(g, plan, r.value, l < plan.dense, l, at);
    if y.Ok? { SoFarMore(plan, b, was, g.View(), at, at', l, r.value, y.value); }
  }

  /** All layers of a batch. */
  method BuildLayers(g: Builder, plan: Plan) returns (r: Result<seq<nat>>, ghost at: Labels)
    requires g.Valid()
    modifies g, g.graph
    ensures Standing(g, plan, old(g.View()), at, plan.layers, r)
  {
    ghost var b := g.View();
    at := NoLabels();
    SoFarStart(plan, b);
    r := Ok([]);
    var l := 0;
    while l < plan.layers && r.Ok?
      invariant l <= plan.layers && Standing(g, plan, b, at, l, r)
      decreases plan.layers - l
    {
      r, at := NextLayer(g, plan, r, l, b, at);
      l := l + 1;
    }
  }

  // ------------------------------------------------------- head and terminal

  /** The head's tiles may be built below all positions' quantized norms. */
  lemma OutputsReady(plan: Plan, b: Build, at: Labels, lo: nat, hi: nat, hd: seq<nat>)
    requires |hd| == plan.m && Row(plan, b, at, OutNormQ, plan.layers, hd) && !plan.certified && hi <= plan.m
    requires if plan.multicol then lo == 0 && hi == plan.m else hi == lo + 1
    requires Fresh(at, Group(Output, plan.layers, lo, hi, 0, 1))
    ensures TilesOk(plan, b, at, STREAM_DOT, Duty(Output, plan.layers, lo, hi, 0, 0), hd)
    ensures Width(plan, Output, plan.layers) == plan.tiles(plan.layers, Output)
  {
    var d := Duty(Output, plan.layers, lo, hi, 0, 0);
    forall p | d.lo <= p < d.hi ensures OfPass(plan, LabelAt(d, p)) && Ready(plan, b, at, LabelAt(d, p), hd) {
      assert Covers(plan, b, at, At(OutNormQ, plan.layers, p), hd[p]);
      assert HeldBy(plan, b, at, At(OutNormQ, plan.layers, p), hd);
    }
    assert GroupOf(d) == Group(Output, plan.layers, lo, hi, 0, 1);
    TilesAreOk(plan, b, at, STREAM_DOT, d, hd);
  }

  /** add_dot_m of the head: one tile set for all positions, or one each, every one below all of deps. */
  method HeadDot(g: Builder, hd: seq<nat>, plan: Plan, ghost at: Labels) returns (r: Result<nat>, ghost at': Labels)
    requires Passing(g, plan, at) && |hd| == plan.m && Row(plan, g.View(), at, OutNormQ, plan.layers, hd)
    requires !plan.certified && Reaches(at, plan.layers, 1, 0, 0)
    modifies g, g.graph
    ensures r.Ok? ==> Built(g, old(g.View()), Elems(hd), {r.value}) && Lawful(plan, g.View(), at')
    ensures r.Ok? ==> Covers(plan, g.View(), at', First(Output, plan.layers, plan.m), r.value)
    ensures r.Ok? ==> Sub(at, at') && Reaches(at', plan.layers, 2, 0, 0)
    ensures r.Died? ==> r.why == FULL
  {
    ghost var b, n := g.View(), plan.layers;
    RowReal(plan, b, at, OutNormQ, n, hd);
    ReachesFresh(at, n, 1, Output, plan.m);
    if plan.multicol {
      OutputsReady(plan, b, at, 0, plan.m, hd);
      ghost var d := Duty(Output, n, 0, plan.m, 0, 0);
      assert GroupOf(d) == First(Output, n, plan.m);
      r, at' := AddDot(g, STREAM_DOT, hd, plan.tiles(plan.layers, Output), plan, d, at);
    } else {
      r, at' := HeadDots(g, hd, plan, at);
    }
    if r.Ok? { GainsReaches(at, at', First(Output, n, plan.m), n, 1, 2); }
  }

  /** The head's products for the first |sigs| positions. */
  ghost predicate OutputsDone(plan: Plan, b: Build, now: Build, at: Labels, at1: Labels, hd: seq<nat>, sigs: seq<nat>) {
    && Adds(b, now, if sigs == [] then {} else Elems(hd), Elems(sigs)) && |sigs| <= plan.m
    && Gains(at, at1, First(Output, plan.layers, |sigs|)) && Row(plan, now, at1, Output, plan.layers, sigs)
  }

  lemma OutputsMore(plan: Plan, b: Build, was: Build, now: Build, at: Labels, at1: Labels, at2: Labels, hd: seq<nat>,
                    sigs: seq<nat>, y: nat)
    requires OutputsDone(plan, b, was, at, at1, hd, sigs) && |sigs| < plan.m && AllReal(b, hd)
    requires Adds(was, now, Elems(hd), {y}) && Gains(at1, at2, At(Output, plan.layers, |sigs|))
    requires Covers(plan, now, at2, At(Output, plan.layers, |sigs|), y)
    ensures OutputsDone(plan, b, now, at, at2, hd, sigs + [y])
  {
    var n := plan.layers;
    RealAreOld(b, hd);
    MoreOfSame(b, was, now, if sigs == [] then {} else Elems(hd), Elems(hd), sigs, y);
    GainsJoin(at, at1, at2, First(Output, n, |sigs|), At(Output, n, |sigs|), First(Output, n, |sigs| + 1));
    RowMore(plan, was, now, at1, at2, Output, n, sigs, y);
  }

  method NextOutput(g: Builder, hd: seq<nat>, plan: Plan, sigs: seq<nat>, ghost b: Build, ghost at: Labels,
                    ghost at1: Labels)
    returns (one: Result<nat>, ghost at2: Labels)
    requires Passing(g, plan, at1) && |sigs| < |hd| == plan.m && Row(plan, b, at, OutNormQ, plan.layers, hd)
    requires !plan.certified && !plan.multicol && Fresh(at, First(Output, plan.layers, plan.m))
    requires OutputsDone(plan, b, g.View(), at, at1, hd, sigs)
    modifies g, g.graph
    ensures one.Ok? ==> Passing(g, plan, at2) && OutputsDone(plan, b, g.View(), at, at2, hd, sigs + [one.value])
    ensures one.Died? ==> one.why == FULL
  {
    ghost var was, n, p := g.View(), plan.layers, |sigs|;
    RowReal(plan, b, at, OutNormQ, n, hd);
    AllRealStays(b, was, hd);
    RowStays(plan, b, was, at, at1, OutNormQ, n, hd);
    StillFresh(plan, at, at1, Output, n, p);
    OutputsReady(plan, was, at1, p, p + 1, hd);
    assert GroupOf(One(Output, n, p)) == At(Output, n, p);
    one, at2 := AddDot(g, STREAM_DOT, hd, plan.tiles(plan.layers, Output), plan, One(Output, n, p), at1);
    if one.Ok? { OutputsMore(plan, b, was, g.View(), at, at1, at2, hd, sigs, one.value); }
  }

  lemma OutputsGathered(plan: Plan, b: Build, at: Labels, sigs: seq<nat>)
    requires |sigs| == plan.m && Row(plan, b, at, Output, plan.layers, sigs)
    ensures Gathered(plan, b, at, First(Output, plan.layers, plan.m), sigs)
  {
    var all := First(Output, plan.layers, plan.m);
    forall c | InGroup(plan, all, c) ensures exists i :: 0 <= i < |sigs| && Reached(b, at, c, sigs[i]) {
      assert Covers(plan, b, at, At(Output, plan.layers, c.p), sigs[c.p]);
      assert InGroup(plan, At(Output, plan.layers, c.p), c);
      assert Reached(b, at, c, sigs[c.p]);
    }
  }

  method HeadDots(g: Builder, hd: seq<nat>, plan: Plan, ghost at: Labels) returns (r: Result<nat>, ghost at': Labels)
    requires Passing(g, plan, at) && |hd| == plan.m && Row(plan, g.View(), at, OutNormQ, plan.layers, hd)
    requires !plan.certified && !plan.multicol && Fresh(at, First(Output, plan.layers, plan.m))
    modifies g, g.graph
    ensures r.Ok? ==> Built(g, old(g.View()), Elems(hd), {r.value}) && Lawful(plan, g.View(), at')
    ensures r.Ok? ==> Gains(at, at', First(Output, plan.layers, plan.m))
    ensures r.Ok? ==> Covers(plan, g.View(), at', First(Output, plan.layers, plan.m), r.value)
    ensures r.Died? ==> r.why == FULL
  {
    ghost var b := g.View();
    at' := at;
    var sigs: seq<nat> := [];
    AddsNothing(b);
    for p := 0 to |hd|
      invariant Passing(g, plan, at') && |sigs| == p && OutputsDone(plan, b, g.View(), at, at', hd, sigs)
    {
      var one;
      one, at' := NextOutput(g, hd, plan, sigs, b, at, at');
      if one.Died? { return one, at'; }
      sigs := sigs + [one.value];
    }
    ghost var was := g.View();
    OutsReal(b, was, Elems(hd), sigs);
    OutputsGathered(plan, was, at', sigs);
    r := FanIn(g, sigs, plan, First(Output, plan.layers, plan.m), at');
    if r.Ok? { AddsAfter(b, was, g.View(), Elems(hd), Elems(sigs), {r.value}); }
  }

  /** What the terminal waits for is among the ends. */
  ghost predicate EndsHeld(plan: Plan, b: Build, at: Labels, ends: seq<nat>) {
    Label(End, plan.layers, 0, 0, 0) !in at && Ready(plan, b, at, Label(End, plan.layers, 0, 0, 0), ends)
  }

  lemma CertifiedEnds(plan: Plan, b: Build, at: Labels, hd: seq<nat>)
    requires plan.certified && |hd| == plan.m && Row(plan, b, at, OutNormQ, plan.layers, hd)
    requires Reaches(at, plan.layers, 1, 0, 0)
    ensures EndsHeld(plan, b, at, hd)
  {
    forall p: nat | p < plan.m ensures HeldBy(plan, b, at, At(OutNormQ, plan.layers, p), hd) {
      assert Covers(plan, b, at, At(OutNormQ, plan.layers, p), hd[p]);
    }
  }

  lemma HeadEnds(plan: Plan, b: Build, at: Labels, h: nat)
    requires !plan.certified && Covers(plan, b, at, First(Output, plan.layers, plan.m), h)
    requires Reaches(at, plan.layers, 2, 0, 0)
    ensures EndsHeld(plan, b, at, [h])
  {
    forall p: nat | p < plan.m ensures HeldBy(plan, b, at, At(Output, plan.layers, p), [h]) {
      CoversPart(plan, b, at, First(Output, plan.layers, plan.m), At(Output, plan.layers, p), h);
      assert [h][0] == h;
    }
  }

  /** What the terminal waits for: the head, or with certified argmax the quantized positions themselves. */
  method Ends(g: Builder, res: seq<nat>, plan: Plan, ghost at: Labels) returns (r: Result<seq<nat>>, ghost at': Labels)
    requires Passing(g, plan, at) && ResOk(plan, g.View(), at, plan.layers, res) && Reaches(at, plan.layers, 0, 0, 0)
    modifies g, g.graph
    ensures r.Ok? ==> Built(g, old(g.View()), Elems(res), Elems(r.value)) && Lawful(plan, g.View(), at')
    ensures r.Ok? ==> EndsHeld(plan, g.View(), at', r.value) && Distinct(r.value)
    ensures r.Died? ==> r.why == FULL
  {
    ghost var b := g.View();
    var hd;
    hd, at' := Norms(g, plan, res, OutNorm, OutNormQ, plan.layers, at);
    if hd.Died? { return hd, at'; }
    if plan.certified {
      CertifiedEnds(plan, g.View(), at', hd.value);
      return hd, at';
    }
    ghost var was := g.View();
    var h;
    h, at' := HeadDot(g, hd.value, plan, at');
    if h.Died? { return Died(h.why), at'; }
    AddsAfter(b, was, g.View(), Elems(res), Elems(hd.value), {h.value});
    ElemsOne(h.value);
    HeadEnds(plan, g.View(), at', h.value);
    r := Ok([h.value]);
  }

  /** A loose end has all its slots free, so an edge from it needs no relay. */
  lemma LooseHasRoom(b: Build, x: nat)
    requires GraphBuilder.Inv(b) && Loose(b, x)
    ensures x < |b.g| && |b.g[x]| < DIRECT
  {
    assert TreeOk(b, x);
    if b.req[x] != [] { assert Arc(b.req, x, b.req[x][0]); }
  }

  /** Hanging the terminal below the first n ends leaves the others loose. */
  lemma OthersLoose(b: Build, ends: seq<nat>, n: nat)
    requires GraphBuilder.Inv(b) && n < |ends| && Distinct(ends) && AllReal(b, ends)
    requires forall i :: 0 <= i < |ends| ==> Loose(b, ends[i])
    ensures var b1, id := AddNode(b, Real(SIGNAL)), |b.g|;
            var bn := ServeAll(b1, Joins(ends, id)[..n]);
            GraphBuilder.Inv(bn) && Loose(bn, ends[n]) && IsReal(bn, id) && ends[n] != id
  {
    var b1, id := AddNode(b, Real(SIGNAL)), |b.g|;
    AddNodeGrew(b, SIGNAL);
    NewIsReal(b, SIGNAL, ends);
    NodeArcs(b.req, b1.req);
    JoinsGrew(b1, ends, id, n);
    var bn := ServeAll(b1, Joins(ends, id)[..n]);
    assert IsReal(b1, ends[n]);
    JoinsBound(ends, id, n);
    forall y: nat ensures !Arc(bn.req, ends[n], y) {
      FirstJoinsOnly(b1, ends, id, n, ends[n], y);
    }
  }

  lemma JoinsBound(ends: seq<nat>, id: nat, n: nat)
    requires n < |ends| && Distinct(ends)
    ensures Joins(ends, id)[..n] == Joins(ends[..n], id) && ends[n] !in ends[..n]
  {}

  lemma FirstJoinsOnly(b: Build, ends: seq<nat>, id: nat, n: nat, x: nat, y: nat)
    requires GraphBuilder.Inv(b) && AllReal(b, ends) && IsReal(b, id) && n < |ends| && Distinct(ends)
    requires (forall i :: 0 <= i < |ends| ==> ends[i] < id) && x == ends[n]
    ensures Arc(ServeAll(b, Joins(ends, id)[..n]).req, x, y) ==> Arc(b.req, x, y)
  {
    JoinsBound(ends, id, n);
    forall i | 0 <= i < n ensures IsReal(b, ends[..n][i]) { assert IsReal(b, ends[i]); }
    assert Joins(ends[..n], id)[..n] == Joins(ends[..n], id);
    JoinsOnly(b, ends[..n], id, n, x, y);
  }

  /** The terminal task, with direct edges from all ends. */
  method Terminal(g: Builder, ends: seq<nat>, ghost plan: Plan, ghost at: Labels)
    returns (r: Result<nat>, ghost at': Labels)
    requires Passing(g, plan, at) && AllReal(g.View(), ends) && Distinct(ends) && EndsHeld(plan, g.View(), at, ends)
    requires forall i :: 0 <= i < |ends| ==> Loose(g.View(), ends[i])
    modifies g, g.graph
    ensures r.Ok? ==> Built(g, old(g.View()), Elems(ends), {r.value}) && Lawful(plan, g.View(), at')
    ensures r.Ok? ==> EndIs(plan, g.View(), at', r.value)
    ensures r.Died? ==> r.why == FULL
  {
    ghost var b := g.View();
    at' := at;
    r := g.AddTask(SIGNAL);
    if r.Died? { return; }
    ghost var b1, reqs := g.View(), Joins(ends, r.value);
    assert reqs[..0] == [];
    for i: nat := 0 to |ends|
      invariant g.Valid() && g.View() == ServeAll(b1, reqs[..i])
    {
      OthersLoose(b, ends, i);
      LooseHasRoom(g.View(), ends[i]);
      ServeAllSnoc(b1, reqs, i);
      var e := g.Direct(ends[i], r.value);
    }
    assert reqs[..|ends|] == reqs;
    BelowIs(b, SIGNAL, ends);
    JoinedAdds(b, g.View(), ends, r.value);
    at' := Mark(at, EndDuty(plan), r.value);
    EndLawful(plan, b, g.View(), at, ends, r.value);
  }

  ghost function EndDuty(plan: Plan): Duty { One(End, plan.layers, 0) }

  /** The terminal is a task and done by x. */
  ghost predicate EndIs(plan: Plan, b: Build, at: Labels, x: nat) {
    IsA(b, x, SIGNAL) && Label(End, plan.layers, 0, 0, 0) in at && at[Label(End, plan.layers, 0, 0, 0)] == x
  }

  lemma EndLawful(plan: Plan, b: Build, b': Build, at: Labels, ends: seq<nat>, id: nat)
    requires Lawful(plan, b, at) && EndsHeld(plan, b, at, ends) && Grew(b, b') && Joined(b', ends, |ends|, id)
    requires IsA(b', id, SIGNAL) && |b.role| <= id
    ensures Lawful(plan, b', Mark(at, EndDuty(plan), id)) && EndIs(plan, b', Mark(at, EndDuty(plan), id), id)
  {
    var d := EndDuty(plan);
    assert Width(plan, End, plan.layers) == 1;
    forall p | d.lo <= p < d.hi ensures LabelReady(plan, b, at, d, p, ends) { assert p == 0; }
    MarkLawful(plan, b, b', at, SIGNAL, d, ends, id);
    assert Does(d, Label(End, plan.layers, 0, 0, 0));
  }

  lemma EndsLoose(b: Build, now: Build, used: set<nat>, ends: seq<nat>)
    requires Adds(b, now, used, Elems(ends))
    ensures AllReal(now, ends) && forall i :: 0 <= i < |ends| ==> Loose(now, ends[i])
  {
    OutsReal(b, now, used, ends);
    forall i | 0 <= i < |ends| ensures Loose(now, ends[i]) {
      assert ends[i] in Elems(ends) && ends[i] in LooseEnds(now);
    }
  }

  /** The whole graph of a batch, before freeze(). */
  method BuildTasks(g: Builder, plan: Plan) returns (r: Result<nat>, ghost at: Labels)
    requires g.Valid() && g.View() == Empty()
    modifies g, g.graph
    ensures r.Ok? ==> Built(g, Empty(), {}, {r.value}) && Lawful(plan, g.View(), at)
    ensures r.Ok? ==> EndIs(plan, g.View(), at, r.value)
    ensures r.Died? ==> r.why == FULL
  {
    var res;
    res, at := BuildLayers(g, plan);
    if res.Died? { return Died(res.why), at; }
    ghost var b1 := g.View();
    var ends;
    ends, at := Ends(g, res.value, plan, at);
    if ends.Died? { return Died(ends.why), at; }
    ghost var b2 := g.View();
    EndsLoose(b1, b2, Elems(res.value), ends.value);
    r, at := Terminal(g, ends.value, plan, at);
    if r.Died? { return; }
    AddsAfter(b1, b2, g.View(), Elems(res.value), Elems(ends.value), {r.value});
    AddsAfter(Empty(), b1, g.View(), {}, Elems(res.value), {r.value});
  }

  // ------------------------------------------------------- nothing is missing

  /** A label that waits for a. */
  function Taker(plan: Plan, a: Label): Label
    requires a.part != End
  {
    var l, p, u := a.l, a.p, a.u;
    match a.part
    case Norm => Label(NormQ, l, p, 0, 0)
    case NormQ => Label(Query, l, p, 0, 0)
    case Query => Label(QueryRope, l, p, 0, 0)
    case KeyValueA => Label(KeyNorm, l, p, 0, 0)
    case KeyNorm => Label(KeyNormQ, l, p, 0, 0)
    case KeyNormQ => Label(KeyValueB, l, p, 0, 0)
    case KeyValueB | KeyRope => Label(Append, l, p, 0, 0)
    case QueryRope | Append => Label(Head, l, p, 0, 0)
    case Head => Label(HeadQ, l, p, 0, 0)
    case HeadQ => Label(AttnOut, l, p, 0, 0)
    case AttnOut => Label(Add, l, p, 0, 0)
    case Add => Label(FfnNorm, l, p, 0, 0)
    case FfnNorm => Label(FfnNormQ, l, p, 0, 0)
    case FfnNormQ => Label(Gate, l, p, 0, 0)
    case Gate | Up => Label(Silu, l, p, 0, 0)
    case Silu => Label(SiluQ, l, p, 0, 0)
    case SiluQ => Label(Down, l, p, 0, 0)
    case Down | ExpertDown => Label(Merge, l, p, 0, 0)
    case Merge => if l + 1 < plan.layers then Label(Norm, l + 1, p, 0, 0) else Label(OutNorm, l + 1, p, 0, 0)
    case Logits => Label(Select, l, p, 0, 0)
    case Select => Label(ExpertGate, l, p, 0, 0)
    case ExpertGate | ExpertUp => Label(ExpertSilu, l, p, u, 0)
    case ExpertSilu => Label(ExpertSiluQ, l, p, u, 0)
    case ExpertSiluQ => Label(ExpertDown, l, p, u, 0)
    case OutNorm => Label(OutNormQ, l, p, 0, 0)
    case OutNormQ => if plan.certified then Label(End, l, 0, 0, 0) else Label(Output, l, p, 0, 0)
    case Output => Label(End, l, 0, 0, 0)
  }

  /** How far above the end of its layer a part is. */
  function Height(part: Part): nat {
    match part
    case Norm => 19
    case NormQ => 18
    case Query | KeyValueA => 17
    case KeyNorm => 16
    case KeyNormQ => 15
    case KeyValueB | KeyRope | QueryRope => 14
    case Append => 13
    case Head => 12
    case HeadQ => 11
    case AttnOut => 10
    case Add => 9
    case FfnNorm => 8
    case FfnNormQ | Logits => 7
    case Select => 6
    case Gate | Up | ExpertGate | ExpertUp => 5
    case Silu | ExpertSilu => 4
    case SiluQ | ExpertSiluQ | OutNorm => 3
    case Down | ExpertDown | OutNormQ => 2
    case Merge | Output => 1
    case End => 0
  }

  /** Which of its needs a is for the label that waits for it. */
  function TakenAs(plan: Plan, a: Label): nat {
    match a.part
    case KeyRope | Append | Up | ExpertUp | Select => 1
    case Down => if a.l < plan.dense then 0 else 1
    case OutNormQ => if plan.certified then a.p else 0
    case Output => a.p
    case _ => 0
  }

  ghost predicate Taken(plan: Plan, a: Label)
    requires a.part != End
  {
    var c, k := Taker(plan, a), TakenAs(plan, a);
    && OfPass(plan, c) && k < |NeedsOf(plan, c)| && InGroup(plan, NeedsOf(plan, c)[k], a)
    && (c.l > a.l || (c.l == a.l && Height(c.part) < Height(a.part)))
  }

  lemma TakenInAttention(plan: Plan, a: Label)
    requires OfPass(plan, a) && Height(a.part) >= 15
    ensures Taken(plan, a)
  {}

  lemma TakenByHeads(plan: Plan, a: Label)
    requires OfPass(plan, a) && 10 <= Height(a.part) < 15
    ensures Taken(plan, a)
  {}

  lemma TakenInFeedForward(plan: Plan, a: Label)
    requires OfPass(plan, a) && 1 < Height(a.part) < 10 && !IsRouted(a.part) && !IsLast(a.part)
    ensures Taken(plan, a)
  {}

  lemma TakenByRouter(plan: Plan, a: Label)
    requires OfPass(plan, a) && IsRouted(a.part) && !IsExpert(a.part)
    ensures Taken(plan, a)
  {}

  lemma TakenBySilu(plan: Plan, a: Label)
    requires OfPass(plan, a) && (a.part == ExpertGate || a.part == ExpertUp)
    ensures Taken(plan, a)
  {}

  lemma TakenByExpert(plan: Plan, a: Label)
    requires OfPass(plan, a) && (a.part == ExpertSilu || a.part == ExpertSiluQ)
    ensures Taken(plan, a)
  {}

  lemma TakenByMerge(plan: Plan, a: Label)
    requires OfPass(plan, a) && a.part == ExpertDown
    ensures Taken(plan, a)
  {}

  lemma TakenLast(plan: Plan, a: Label)
    requires OfPass(plan, a) && a.part != End && IsLast(a.part)
    ensures Taken(plan, a)
  {}

  lemma TakenAbove(plan: Plan, a: Label)
    requires OfPass(plan, a) && a.part == Merge
    ensures Taken(plan, a)
  {}

  lemma TakerNeeds(plan: Plan, a: Label)
    requires OfPass(plan, a) && a.part != End
    ensures Taken(plan, a)
  {
    if IsLast(a.part) { TakenLast(plan, a); }
    else if a.part == Merge { TakenAbove(plan, a); }
    else if a.part == ExpertGate || a.part == ExpertUp { TakenBySilu(plan, a); }
    else if a.part == ExpertDown { TakenByMerge(plan, a); }
    else if IsExpert(a.part) { TakenByExpert(plan, a); }
    else if IsRouted(a.part) { TakenByRouter(plan, a); }
    else if Height(a.part) < 10 { TakenInFeedForward(plan, a); }
    else if Height(a.part) < 15 { TakenByHeads(plan, a); }
    else { TakenInAttention(plan, a); }
  }

  /** Every label of the pass is done by a task, all as they should be. */
  ghost predicate PassOk(plan: Plan, b: Build, at: Labels) {
    Lawful(plan, b, at) && forall a {:trigger OfPass(plan, a)} :: OfPass(plan, a) ==> a in at
  }

  /** Whatever the terminal waits for, through others or at once, is there: that is the whole pass. */
  lemma {:induction false} InPass(plan: Plan, b: Build, at: Labels, a: Label)
    requires Lawful(plan, b, at) && OfPass(plan, a) && Label(End, plan.layers, 0, 0, 0) in at
    ensures a in at
    decreases plan.layers - a.l, Height(a.part)
  {
    if a.part == End {
      assert a == Label(End, plan.layers, 0, 0, 0);
    } else {
      TakerNeeds(plan, a);
      var c := Taker(plan, a);
      InPass(plan, b, at, c);
      assert TaskOk(plan, b, at, c, at[c]);
      assert Follows(plan, b, at, NeedsOf(plan, c)[TakenAs(plan, a)], at[c]);
    }
  }

  lemma Complete(plan: Plan, b: Build, at: Labels, x: nat)
    requires Lawful(plan, b, at) && EndIs(plan, b, at, x)
    ensures PassOk(plan, b, at)
  {
    forall a | OfPass(plan, a) ensures a in at { InPass(plan, b, at, a); }
  }

  // -------------------------------------------------------------- the freeze

  /** A graph with one loose end has one sink: every other task, and every relay, has a consumer. */
  lemma OneSink(b: Build, term: nat)
    requires GraphBuilder.Inv(b) && Adds(Empty(), b, {}, {term})
    ensures Sinks(b.g) == {term}
  {
    assert LooseEnds(b) == {term};
    assert Delivering(b) by { assert Delivering(Empty()); }
    forall x: nat ensures x in Sinks(b.g) <==> x == term {
      if x < |b.g| { SinkIsLoose(b, x); }
    }
  }

  lemma SinkIsLoose(b: Build, x: nat)
    requires GraphBuilder.Inv(b) && Delivering(b) && x < |b.g|
    ensures b.g[x] == [] <==> x in LooseEnds(b)
  {
    assert !Dead(b, x);
    if IsReal(b, x) {
      assert TreeOk(b, x);
      if b.req[x] != [] { assert Arc(b.req, x, b.req[x][0]); }
    }
  }

  /** Requests that only go forward make no cycle, relays included. */
  lemma ForwardIsAcyclic(b: Build)
    requires GraphBuilder.Inv(b) && Forward(b)
    ensures Acyclic(b.g)
  {
    var rank := seq(|b.req|, i => i);
    forall p: nat, k: nat | p < |b.req| && k < |b.req[p]| ensures b.req[p][k] < |b.req| {
      assert Arc(b.req, p, b.req[p][k]);
    }
    RankedIsAcyclic(b.req, rank);
    AcyclicIffRequested(b);
  }

  /**
    The whole build of a batch's graph.  It dies only when the table is too small; otherwise every
    label of the pass is done by a task of its kind that comes after all it needs, freeze()'s tests of
    the shape pass, and the terminal is the task the builder added last.
   */
  method BuildPass(g: Builder, plan: Plan) returns (r: Result<nat>, ghost at: Labels)
    requires g.Valid() && g.View() == Empty()
    modifies g, g.graph
    ensures r.Died? ==> r.why == FULL
    ensures r.Ok? ==> GraphBuilder.Inv(g.View()) && PassOk(plan, g.View(), at) && g.KindsOk()
    ensures r.Ok? ==> g.graph.frozen && Frozen(g.graph.consumers, g.graph.kinds, g.graph.terminal)
    ensures r.Ok? ==> g.graph.terminal == r.value && EndIs(plan, g.View(), at, r.value)
  {
    r, at := BuildTasks(g, plan);
    if r.Died? { return; }
    ghost var b := g.View();
    Complete(plan, b, at, r.value);
    assert Forward(b) by { assert Forward(Empty()); }
    ForwardIsAcyclic(b);
    OneSink(b, r.value);
    assert g.graph.kinds[r.value] == SIGNAL;
    var f := g.graph.Freeze();
    assert f.Ok?;
  }
}
