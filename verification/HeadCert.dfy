/**
  Certified head argmax: rows whose Cauchy-Schwarz bound cannot reach the
  anchors are never evaluated (src/model/head_cert.h).  Over the reals; the
  engine's own row values are arbitrary up to the stated margin.
 */
module HeadCert {
  import opened Arithmetic

  type Vec = seq<real>

  function Dot(a: Vec, b: Vec): real
    requires |a| == |b|
  {
    if a == [] then 0.0 else Dot(a[..|a| - 1], b[..|b| - 1]) + a[|a| - 1] * b[|b| - 1]
  }

  function SumSq(a: Vec): real { Dot(a, a) }

  // ---------------------------------------------------------- Cauchy-Schwarz

  lemma SquareNonNegative(x: real)
    ensures x * x >= 0.0
  {}

  lemma {:induction false} SumSqNonNegative(a: Vec)
    ensures SumSq(a) >= 0.0
  {
    if a != [] {
      SumSqNonNegative(a[..|a| - 1]);
      SquareNonNegative(a[|a| - 1]);
    }
  }

  lemma ProductNonNegative(x: real, y: real)
    requires x >= 0.0 && y >= 0.0
    ensures x * y >= 0.0
  {}

  lemma PositiveProduct(x: real, y: real)
    requires x > 0.0 && y > 0.0
    ensures x * y > 0.0
  {}

  lemma SquaresOrder(x: real, y: real)
    requires y >= 0.0 && x * x <= y * y
    ensures x <= y
  {
    if x > y {
      assert x * x - y * y == (x - y) * (x + y);
      PositiveProduct(x - y, x + y);
    }
  }

  /** 2dxy <= ay^2 + bx^2 when d^2 <= ab. */
  lemma CrossTerm(a: real, b: real, d: real, x: real, y: real)
    requires a >= 0.0 && b >= 0.0 && d * d <= a * b
    ensures 2.0 * d * x * y <= a * (y * y) + b * (x * x)
  {
    var p, q := a * (y * y), b * (x * x);
    SquareNonNegative(x);
    SquareNonNegative(y);
    ProductNonNegative(a, y * y);
    ProductNonNegative(b, x * x);
    SquareNonNegative(p - q);
    var u := x * y;
    SquareNonNegative(u);
    assert (p + q) * (p + q) == (p - q) * (p - q) + 4.0 * (p * q);
    assert p * q == (a * b) * (u * u);
    MulMono(d * d, a * b, u * u);
    assert (2.0 * d * u) * (2.0 * d * u) == 4.0 * ((d * d) * (u * u));
    SquaresOrder(2.0 * d * u, p + q);
    assert 2.0 * d * x * y == 2.0 * d * u;
  }

  lemma MulMono(x: real, y: real, k: real)
    requires x <= y && k >= 0.0
    ensures x * k <= y * k
  {}

  lemma {:induction false} CauchySchwarz(a: Vec, b: Vec)
    requires |a| == |b|
    ensures Dot(a, b) * Dot(a, b) <= SumSq(a) * SumSq(b)
  {
    if a != [] {
      var a', b' := a[..|a| - 1], b[..|b| - 1];
      var x, y := a[|a| - 1], b[|b| - 1];
      CauchySchwarz(a', b');
      SumSqNonNegative(a');
      SumSqNonNegative(b');
      Extend(SumSq(a'), SumSq(b'), Dot(a', b'), x, y);
    }
  }

  lemma Extend(a: real, b: real, d: real, x: real, y: real)
    requires a >= 0.0 && b >= 0.0 && d * d <= a * b
    ensures (d + x * y) * (d + x * y) <= (a + x * x) * (b + y * y)
  {
    CrossTerm(a, b, d, x, y);
    assert (d + x * y) * (d + x * y) == d * d + 2.0 * d * x * y + (x * y) * (x * y);
    assert (a + x * x) * (b + y * y) == a * b + a * (y * y) + b * (x * x) + (x * y) * (x * y);
  }

  /** n over-estimates the norm of a. */
  predicate NormOk(n: real, a: Vec) { n >= 0.0 && n * n >= SumSq(a) }

  predicate CauchyOk(d: real, a: real, b: real) { d * d <= a * b }

  predicate Over(n: real, sq: real) { n >= 0.0 && 0.0 <= sq <= n * n }

  lemma NormProduct(d: real, a: real, b: real, na: real, nb: real)
    requires CauchyOk(d, a, b) && Over(na, a) && Over(nb, b)
    ensures d <= na * nb
  {
    MulMono(a, na * na, b);
    MulMono(b, nb * nb, na * na);
    assert (na * nb) * (na * nb) == (na * na) * (nb * nb);
    ProductNonNegative(na, nb);
    SquaresOrder(d, na * nb);
  }

  lemma NormOver(n: real, a: Vec)
    requires NormOk(n, a)
    ensures Over(n, SumSq(a))
  {
    SumSqNonNegative(a);
  }

  lemma DotCauchy(a: Vec, b: Vec)
    requires |a| == |b|
    ensures CauchyOk(Dot(a, b), SumSq(a), SumSq(b))
  {
    CauchySchwarz(a, b);
  }

  lemma DotBelowNorms(a: Vec, b: Vec, na: real, nb: real)
    requires |a| == |b| && NormOk(na, a) && NormOk(nb, b)
    ensures Dot(a, b) <= na * nb
  {
    DotCauchy(a, b);
    NormOver(na, a);
    NormOver(nb, b);
    NormProduct(Dot(a, b), SumSq(a), SumSq(b), na, nb);
  }

  // ---------------------------------------------------------------- segments

  /** The bound of the first k segments. */
  function Bound(wn: Vec, hn: Vec, k: nat): real
    requires k <= |wn| && k <= |hn|
  {
    if k == 0 then 0.0 else Bound(wn, hn, k - 1) + wn[k - 1] * hn[k - 1]
  }

  /** wn[s] over-estimates the norm of segment s. */
  predicate SegNorm(wn: Vec, a: Vec, width: nat, s: nat) {
    s < |wn| && s * width <= (s + 1) * width <= |a| && NormOk(wn[s], a[s * width..(s + 1) * width])
  }

  ghost predicate SegNorms(wn: Vec, a: Vec, width: nat, nseg: nat) {
    |wn| == nseg && forall s: nat {:trigger SegNorm(wn, a, width, s)} :: s < nseg ==> SegNorm(wn, a, width, s)
  }

  lemma {:induction false} DotAppend(a: Vec, b: Vec, c: Vec, d: Vec)
    requires |a| == |b| && |c| == |d|
    ensures Dot(a + c, b + d) == Dot(a, b) + Dot(c, d)
    decreases |c|
  {
    if c == [] {
      assert a + c == a && b + d == b;
    } else {
      assert (a + c)[..|a + c| - 1] == a + c[..|c| - 1];
      assert (b + d)[..|b + d| - 1] == b + d[..|d| - 1];
      DotAppend(a, b, c[..|c| - 1], d[..|d| - 1]);
    }
  }

  /** Segment-wise Cauchy-Schwarz: the accumulated bound over-estimates the dot product. */
  lemma {:induction false} BoundIsSound(a: Vec, b: Vec, wn: Vec, hn: Vec, width: nat, nseg: nat, k: nat)
    requires |a| == |b| && SegNorms(wn, a, width, nseg) && SegNorms(hn, b, width, nseg) && k <= nseg
    ensures 0 <= k * width <= |a| && Dot(a[..k * width], b[..k * width]) <= Bound(wn, hn, k)
    decreases k
  {
    if k > 0 {
      var s := k - 1;
      BoundIsSound(a, b, wn, hn, width, nseg, s);
      assert SegNorm(wn, a, width, s) && SegNorm(hn, b, width, s);
      assert k == s + 1;
      var x, y := a[s * width..k * width], b[s * width..k * width];
      assert a[..k * width] == a[..s * width] + x;
      assert b[..k * width] == b[..s * width] + y;
      DotAppend(a[..s * width], b[..s * width], x, y);
      DotBelowNorms(x, y, wn[s], hn[s]);
    } else {
      assert k * width == 0;
    }
  }

  // ----------------------------------------------------------- segment width

  const SEGS := 8

  function Max(a: nat, b: nat): nat { if a <= b then b else a }

  /** In units of be, dividing is dividing the unit counts. */
  lemma InUnits(u: nat, q: nat, be: nat)
    requires 0 < q && 0 < be
    ensures 0 < q * be && (u * be) / (q * be) == u / q
    ensures (u * be) % (q * be) == 0 <==> u % q == 0
  {
    var d, r := u / q, u % q;
    Multiple(q, be);
    Euclid(u, q);
    Distribute(d, q, r, be);
    MulLess(r, q, be);
    DivModOf(u * be, d, q * be, r * be);
    Multiple(r, be);
  }

  lemma Distribute(d: int, q: int, r: int, be: int)
    ensures (d * q + r) * be == d * (q * be) + r * be
  {
    Spread(d * q, r, be);
    Regroup(d, q, be);
  }

  lemma MulLess(r: nat, q: nat, be: nat)
    requires r < q && 0 < be
    ensures 0 <= r * be < q * be
  {}

  /** Does the number of segments fit the eight-entry stack array of argmax? */
  predicate FitsStack(ne: nat, be: nat)
    requires 0 < be
  {
    var u := ne / be;
    u < SEGS || u % SEGS == 0 || u % (u / SEGS) != 0
  }

  lemma QuotientAtMost(u: nat, q: nat, k: nat)
    requires 0 < q
    ensures u / q <= k <==> u < q * (k + 1)
  {
    var d, r := u / q, u % q;
    if d <= k { TimesMono(d, k, q); } else { TimesMono(k + 1, d, q); }
  }

  /** The block-aligned segment width, widened until it divides the row. */
  method SegmentWidth(ne: nat, be: nat) returns (segw: nat, nseg: nat)
    requires 0 < be && 0 < ne && ne % be == 0
    ensures 0 < segw && segw % be == 0 && segw * nseg == ne
    ensures nseg <= SEGS <==> FitsStack(ne, be)
  {
    segw := FirstWidth(ne, be);
    ghost var u := ne / be;
    ghost var q0 := Max(u / SEGS, 1);
    ghost var q := q0;
    while ne % segw != 0
      invariant q0 <= q <= u && Width(ne, be, u, q, segw)
      invariant q > q0 ==> u % q0 != 0
      decreases u - q
    {
      NextWidth(ne, u, q, be, segw);
      segw := segw + be;
      q := q + 1;
    }
    SegmentCount(u, q0, q);
    nseg := ne / segw;
    MultipleOf(q, be);
    Exact(ne, segw);
  }

  /** A trial width of q blocks for a row of u blocks. */
  ghost predicate Width(ne: nat, be: nat, u: nat, q: nat, segw: nat) {
    0 < be && 0 < q && 0 < segw && segw == q * be && ne == u * be && ne / segw == u / q
        && (ne % segw == 0 <==> u % q == 0)
  }

  lemma Exact(x: nat, n: nat)
    requires 0 < n && x % n == 0
    ensures n * (x / n) == x
  {}

  lemma MultipleOf(q: nat, be: nat)
    requires 0 < be
    ensures (q * be) % be == 0
  {
    DivMod(q, be, 0);
  }

  lemma NextWidth(ne: nat, u: nat, q: nat, be: nat, segw: nat)
    requires Width(ne, be, u, q, segw) && q <= u && u % q != 0
    ensures q < u && Width(ne, be, u, q + 1, segw + be)
  {
    if q == u { DivMod(1, u, 0); }
    Spread(q, 1, be);
    InUnits(u, q + 1, be);
  }

  /** The width before widening: an eighth of the row, in whole blocks, at least one. */
  method FirstWidth(ne: nat, be: nat) returns (segw: nat)
    requires 0 < be && 0 < ne && ne % be == 0
    ensures var u := ne / be;
            var q := Max(u / SEGS, 1);
            0 < u && q <= u && Width(ne, be, u, q, segw)
  {
    segw := ne / SEGS;
    EighthInUnits(ne, be);
    if segw < be { segw := be; }
    segw := (segw / be) * be;
    InUnits(ne / be, Max(ne / be / SEGS, 1), be);
  }

  /** An eighth of u blocks. */
  lemma EighthOf(u: nat, be: nat)
    ensures (u * be) / SEGS == (u / SEGS) * be + ((u % SEGS) * be) / SEGS
  {
    var d, r := u / SEGS, u % SEGS;
    Distribute(d, SEGS, r, be);
    Regroup(d, be, SEGS);
    DivModOf(u * be, d * be + (r * be) / SEGS, SEGS, (r * be) % SEGS);
  }

  lemma EighthInUnits(ne: nat, be: nat)
    requires 0 < be && 0 < ne && ne % be == 0
    ensures (ne / SEGS) / be == (ne / be) / SEGS && ne == (ne / be) * be && 0 < ne / be
    ensures ne / SEGS < be <==> ne / be < SEGS
    ensures be / be == 1
  {
    var u := ne / be;
    Exact(ne, be);
    EighthOf(u, be);
    var d, r := u / SEGS, u % SEGS;
    MulLess(r, SEGS, be);
    DivMod(d, be, (r * be) / SEGS);
    DivMod(1, be, 0);
    if d >= 1 { Multiple(d, be); }
  }

  /** More than eight segments exactly when the first width tried is too narrow and divides the row. */
  lemma SegmentCount(u: nat, q0: nat, q: nat)
    requires 0 < u && q0 == Max(u / SEGS, 1) && q0 <= q && u % q == 0
    requires q > q0 ==> u % q0 != 0
    ensures u / q <= SEGS <==> u < SEGS || u % SEGS == 0 || u % (u / SEGS) != 0
  {
    QuotientAtMost(u, q, SEGS);
  }

  /** A row of nine blocks gets nine one-block segments; a whole number of eight-block groups always fits. */
  lemma WhenSegmentsOverflow(be: nat, k: nat)
    requires 0 < be
    ensures !FitsStack(9 * be, be)
    ensures FitsStack(k * (SEGS * be), be)
  {
    DivMod(9, be, 0);
    DivMod(k, SEGS, 0);
    Regroup(k, SEGS, be);
    DivModOf(k * (SEGS * be), k * SEGS, be, 0);
  }

  // ------------------------------------------------------------------ argmax

  ghost function AllRows(n: nat): (r: set<nat>)
    ensures forall j: nat :: j in r <==> j < n
  {
    if n == 0 then {} else AllRows(n - 1) + {n - 1}
  }

  /** The lowest id among those of largest value. */
  ghost predicate LowestMax(vals: Vec, ids: set<nat>, best: nat) {
    && best in ids && best < |vals|
    && forall j :: j in ids && j < |vals| ==> vals[j] < vals[best] || (vals[j] == vals[best] && best <= j)
  }

  /** The running best; None is the initial minus infinity. */
  datatype Top = None | Some(best: nat, bv: real)

  ghost predicate TopOk(vals: Vec, seen: set<nat>, top: Top) {
    if top.None? then seen == {} else top.best < |vals| && top.bv == vals[top.best] && LowestMax(vals, seen, top.best)
  }

  function Keep(top: Top, j: nat, v: real): Top {
    if top.None? || v > top.bv || (v == top.bv && j < top.best) then Some(j, v) else top
  }

  /** Evaluating rows in any order keeps the lowest-id maximiser, thanks to the explicit tie rule. */
  lemma KeepOk(vals: Vec, seen: set<nat>, top: Top, j: nat)
    requires TopOk(vals, seen, top) && j < |vals|
    ensures TopOk(vals, seen + {j}, Keep(top, j, vals[j]))
    ensures top.Some? ==> Keep(top, j, vals[j]).Some? && top.bv <= Keep(top, j, vals[j]).bv
  {}

  /** Excluded: some evaluated row is strictly better. */
  ghost predicate Excluded(vals: Vec, top: Top, j: nat) { j < |vals| && top.Some? && vals[j] < top.bv }

  /** Every row below k was evaluated or excluded. */
  ghost predicate Swept(vals: Vec, seen: set<nat>, top: Top, k: nat) {
    forall j: nat :: j < k ==> j in seen || Excluded(vals, top, j)
  }

  lemma SweptIsFull(vals: Vec, seen: set<nat>, top: Top)
    requires |vals| > 0 && TopOk(vals, seen, top) && Swept(vals, seen, top, |vals|)
    requires forall j :: j in seen ==> j < |vals|
    ensures top.Some? && LowestMax(vals, AllRows(|vals|), top.best)
  {
    assert 0 in seen || Excluded(vals, top, 0);
  }

  class Cert {
    const rows: seq<Vec>          // dequantized weight rows
    const ne: nat
    const margin: real
    var segw: nat
    var nseg: nat
    var wn: seq<Vec>              // per row, per segment norms
    var topn: seq<nat>            // anchor rows

    ghost predicate Valid()
      reads this
    {
      && (forall j :: 0 <= j < |rows| ==> |rows[j]| == ne)
      && 0 < segw && segw * nseg == ne
      && |wn| == |rows| && (forall j :: 0 <= j < |rows| ==> SegNorms(wn[j], rows[j], segw, nseg))
      && (forall i :: 0 <= i < |topn| ==> topn[i] < |rows|)
    }

    /** init: segment width and over-estimated norms; any anchor set will do. */
    constructor (rows: seq<Vec>, ne: nat, be: nat, margin: real, anchors: seq<nat>, root: real -> real)
      requires forall j :: 0 <= j < |rows| ==> |rows[j]| == ne
      requires 0 < be && 0 < ne && ne % be == 0 && forall i :: 0 <= i < |anchors| ==> anchors[i] < |rows|
      requires OverEstimates(root)
      ensures Valid() && this.rows == rows && this.ne == ne && this.margin == margin && topn == anchors
      ensures nseg <= SEGS <==> FitsStack(ne, be)
    {
      this.rows, this.ne, this.margin, topn := rows, ne, margin, anchors;
      var width, count := SegmentWidth(ne, be);
      var norms := AllNorms(rows, width, count, root);
      segw, nseg, wn := width, count, norms;
    }

    /**
      Lowest-id argmax of the engine's row values over all rows, for any hint
      and any anchors, when the engine exceeds the true dot product by at most
      the margin.
     */
    method Argmax(h: Vec, hint: int, engine: Vec, root: real -> real) returns (best: nat)
      requires Valid() && nseg <= SEGS && 0 < |rows| == |engine| && |h| == ne && OverEstimates(root)
      requires forall j: nat :: j < |rows| ==> engine[j] <= Dot(rows[j], h) + margin
      ensures LowestMax(engine, AllRows(|rows|), best)
    {
      var hn := new real[SEGS];
      var norms := Norms(h, segw, nseg, root);
      for s := 0 to nseg
        invariant hn[..s] == norms[..s]
      {
        hn[s] := norms[s];
      }
      assert hn[..nseg] == norms;
      var top := None;
      ghost var seen: set<nat> := {};
      if 0 <= hint < |rows| {
        KeepOk(engine, seen, top, hint);
        top, seen := Keep(top, hint, engine[hint]), seen + {hint};
      }
      top, seen := Anchors(hint, engine, top, seen);
      best := Sweep(h, hn[..nseg], hint, engine, top, seen);
    }

    method Anchors(hint: int, engine: Vec, top0: Top, ghost seen0: set<nat>) returns (top: Top, ghost seen: set<nat>)
      requires Valid() && |engine| == |rows| && TopOk(engine, seen0, top0)
      requires (0 <= hint < |rows| ==> hint in seen0) && forall j :: j in seen0 ==> j < |rows|
      ensures TopOk(engine, seen, top) && seen0 <= seen && (forall j :: j in seen ==> j < |rows|)
      ensures forall i :: 0 <= i < |topn| ==> topn[i] in seen
    {
      top, seen := top0, seen0;
      for i := 0 to |topn|
        invariant TopOk(engine, seen, top) && seen0 <= seen && (forall j :: j in seen ==> j < |rows|)
        invariant forall k :: 0 <= k < i ==> topn[k] in seen
      {
        if topn[i] != hint {
          KeepOk(engine, seen, top, topn[i]);
          top, seen := Keep(top, topn[i], engine[topn[i]]), seen + {topn[i]};
        }
      }
    }

    method BoundOf(j: nat, h: Vec, hn: Vec) returns (b: real)
      requires Valid() && j < |rows| && |h| == ne && SegNorms(hn, h, segw, nseg)
      ensures |rows[j]| == |h| && Dot(rows[j], h) <= b
    {
      b := RowBound(wn[j], hn, nseg);
      BoundCovers(rows[j], h, wn[j], hn, segw, nseg);
    }

    /** The ascending bound scan. */
    method Sweep(h: Vec, hn: Vec, hint: int, engine: Vec, top0: Top, ghost seen0: set<nat>) returns (best: nat)
      requires Valid() && 0 < |rows| == |engine| && |h| == ne && SegNorms(hn, h, segw, nseg)
      requires forall j: nat :: j < |rows| ==> engine[j] <= Dot(rows[j], h) + margin
      requires TopOk(engine, seen0, top0) && (0 <= hint < |rows| ==> hint in seen0)
        && (forall j :: j in seen0 ==> j < |rows|)
      requires forall i :: 0 <= i < |topn| ==> topn[i] in seen0
      ensures LowestMax(engine, AllRows(|rows|), best)
    {
      var top := top0;
      ghost var seen: set<nat> := seen0;
      for j: nat := 0 to |rows|
        invariant TopOk(engine, seen, top) && seen0 <= seen && (forall k :: k in seen ==> k < |rows|)
        invariant Swept(engine, seen, top, j)
        invariant top0.Some? ==> top.Some? && top0.bv <= top.bv
      {
        if j == hint { continue; }
        var b := BoundOf(j, h, hn);
        if top0.Some? && b < top0.bv - margin { continue; }
        if j in topn { continue; }
        KeepOk(engine, seen, top, j);
        top, seen := Keep(top, j, engine[j]), seen + {j};
      }
      SweptIsFull(engine, seen, top);
      best := top.best;
    }
  }

  /** sqrt rounded up. */
  ghost predicate OverEstimates(root: real -> real) {
    forall x: real :: x >= 0.0 ==> root(x) >= 0.0 && root(x) * root(x) >= x
  }

  lemma BoundCovers(a: Vec, b: Vec, wn: Vec, hn: Vec, width: nat, nseg: nat)
    requires |a| == |b| == width * nseg && SegNorms(wn, a, width, nseg) && SegNorms(hn, b, width, nseg)
    ensures Dot(a, b) <= Bound(wn, hn, nseg)
  {
    BoundIsSound(a, b, wn, hn, width, nseg, nseg);
    assert a[..nseg * width] == a && b[..nseg * width] == b;
  }

  method RowBound(wn: Vec, hn: Vec, nseg: nat) returns (b: real)
    requires |wn| == |hn| == nseg
    ensures b == Bound(wn, hn, nseg)
  {
    b := 0.0;
    for s := 0 to nseg
      invariant b == Bound(wn, hn, s)
    {
      b := b + wn[s] * hn[s];
    }
  }

  /** Over-estimated norms of all segments of a vector. */
  method Norms(a: Vec, width: nat, nseg: nat, root: real -> real) returns (ns: Vec)
    requires |a| == width * nseg && OverEstimates(root)
    ensures SegNorms(ns, a, width, nseg)
  {
    ns := [];
    for s := 0 to nseg
      invariant |ns| == s && forall i: nat {:trigger SegNorm(ns, a, width, i)} :: i < s ==> SegNorm(ns, a, width, i)
    {
      SegmentInside(s, width, nseg);
      var acc := 0.0;
      ghost var seg := a[s * width..(s + 1) * width];
      for i := 0 to width
        invariant acc == SumSq(seg[..i])
      {
        var x := a[s * width + i];
        assert seg[..i + 1][..i] == seg[..i] && seg[i] == x;
        acc := acc + x * x;
      }
      assert seg[..width] == seg;
      SumSqNonNegative(seg);
      ghost var before := ns;
      ns := ns + [root(acc)];
      forall i: nat | i < s + 1 ensures SegNorm(ns, a, width, i) {
        if i < s { assert SegNorm(before, a, width, i); }
      }
    }
  }

  method AllNorms(rows: seq<Vec>, width: nat, nseg: nat, root: real -> real) returns (wn: seq<Vec>)
    requires OverEstimates(root) && forall j :: 0 <= j < |rows| ==> |rows[j]| == width * nseg
    ensures |wn| == |rows| && forall j :: 0 <= j < |rows| ==> SegNorms(wn[j], rows[j], width, nseg)
  {
    wn := [];
    for j := 0 to |rows|
      invariant |wn| == j && forall i :: 0 <= i < j ==> SegNorms(wn[i], rows[i], width, nseg)
    {
      var norms := Norms(rows[j], width, nseg, root);
      wn := wn + [norms];
    }
  }

  lemma SegmentInside(s: nat, width: nat, nseg: nat)
    requires s < nseg
    ensures s * width <= (s + 1) * width <= width * nseg && (s + 1) * width == s * width + width
  {
    TimesMono(s, s + 1, width);
    TimesMono(s + 1, nseg, width);
    Spread(s, 1, width);
  }
}
