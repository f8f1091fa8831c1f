/**
  What the q4_K row kernels compute: with exact arithmetic, the dot product of the dequantised row
  and the dequantised activation.  The scalar reference of src/runtime/quants.h dequantises weight
  by weight; it gives the same number.
 */
module RowMeaning {
  import opened Arithmetic
  import opened Quants
  import opened Kernels

  /** val reads floats as reals, and under it the operations do not round. */
  ghost predicate Exact(o: Ops, val: F -> real) {
    && val(o.zero) == 0.0
    && (forall n {:trigger o.ofInt(n)} :: val(o.ofInt(n)) == n as real)
    && (forall a {:trigger o.neg(a)} :: val(o.neg(a)) == -val(a))
    && (forall a, b {:trigger o.mul(a, b)} :: val(o.mul(a, b)) == val(a) * val(b))
    && (forall a, b {:trigger o.add(a, b)} :: val(o.add(a, b)) == val(a) + val(b))
    && (forall a, b, c {:trigger o.fma(a, b, c)} :: val(o.fma(a, b, c)) == val(a) * val(b) + val(c))
  }

  // -------------------------------------------------------- the dequantised dot

  /** Products under a name: equal factors then give equal products without any arithmetic. */
  function Times(a: real, b: real): real { a * b }

  function Times3(a: int, b: int, c: int): int { a * (b * c) }

  function Times2(a: int, b: int): int { a * b }

  /** Weight e of a superblock with scales d and dmin. */
  function Weight(b: Q4K, d: real, dmin: real, e: nat): real
    requires Q4KOk(b) && e < 256
  {
    Times(Times(d, ScaleOf(b.scales, e / 32) as real), Nibble(b, e) as real)
    - Times(dmin, MinOf(b.scales, e / 32) as real)
  }

  /** An activation superblock with scale dk. */
  function Dequantised(x: seq<int>, dk: real): (y: seq<real>)
    ensures |y| == |x| && forall e :: 0 <= e < |x| ==> y[e] == Times(dk, x[e] as real)
  {
    seq(|x|, e requires 0 <= e < |x| => Times(dk, x[e] as real))
  }

  /** The 256 products of a dequantised superblock with activations. */
  function Products(b: Q4K, d: real, dmin: real, y: seq<real>): (r: seq<real>)
    requires Q4KOk(b) && |y| == 256
    ensures |r| == 256
  {
    seq(256, e requires 0 <= e < 256 => Times(Weight(b, d, dmin, e), y[e]))
  }

  function RealSum(v: seq<real>, n: nat): real
    requires n <= |v|
  {
    if n == 0 then 0.0 else RealSum(v, n - 1) + v[n - 1]
  }

  /** The dot of a dequantised superblock with activations. */
  function BlockDot(b: Q4K, d: real, dmin: real, y: seq<real>): real
    requires Q4KOk(b) && |y| == 256
  {
    var v := Products(b, d, dmin, y);
    RealSum(v, |v|)
  }

  /** The dot of a superblock and its activation; val reads the half floats of the one and the scale of the other. */
  ghost function Contribution(o: Ops, val: F -> real, b: Q4K, c: Column): real
    requires Q4KOk(b) && ActOk(c.act)
  {
    BlockDot(b, val(o.half(b.d)), val(o.half(b.dmin)), Dequantised(c.act.qs, val(c.d)))
  }

  /** Sum over the first n superblocks. */
  ghost function ExactDot(o: Ops, val: F -> real, row: seq<Q4K>, col: seq<Column>, n: nat): real
    requires n <= |row| == |col| && RowOk(row) && ColOk(col)
  {
    if n == 0 then 0.0
    else
      ExactDot(o, val, row, col, n - 1) + Contribution(o, val, row[n - 1], col[n - 1])
  }

  // ------------------------------------------- the integer work of a superblock

  /** ts[e] is scale times weight times activation. */
  predicate AreScaled(ts: seq<int>, sc: seq<int>, w: seq<int>, x: seq<int>) {
    && |ts| == |w| == |x| == 32 * |sc|
    && forall e :: 0 <= e < |ts| ==> ts[e] == Times3(sc[e / 32], w[e], x[e])
  }

  /** us[e] is minimum times activation. */
  predicate AreShifted(us: seq<int>, mn: seq<int>, x: seq<int>) {
    |us| == |x| == 32 * |mn| && forall e :: 0 <= e < |us| ==> us[e] == Times2(mn[e / 32], x[e])
  }

  lemma {:induction false} ScaledGroup(ts: seq<int>, sc: seq<int>, w: seq<int>, x: seq<int>, g: nat, i: nat)
    requires AreScaled(ts, sc, w, x) && g < |sc| && i <= 32
    ensures Sum(ts, 32 * g, i) == sc[g] * Dot(w, x, 32 * g, i)
    decreases i
  {
    if i > 0 {
      ScaledGroup(ts, sc, w, x, g, i - 1);
      var e := 32 * g + i - 1;
      DivModOf(e, g, 32, i - 1);
      Spread(Dot(w, x, 32 * g, i - 1), w[e] * x[e], sc[g]);
    }
  }

  lemma {:induction false} ShiftedGroup(us: seq<int>, mn: seq<int>, x: seq<int>, g: nat, i: nat)
    requires AreShifted(us, mn, x) && g < |mn| && i <= 32
    ensures Sum(us, 32 * g, i) == mn[g] * Sum(x, 32 * g, i)
    decreases i
  {
    if i > 0 {
      ShiftedGroup(us, mn, x, g, i - 1);
      var e := 32 * g + i - 1;
      DivModOf(e, g, 32, i - 1);
      Spread(Sum(x, 32 * g, i - 1), x[e], mn[g]);
    }
  }

  lemma {:induction false} SumSplit(x: seq<int>, lo: nat, a: nat, b: nat)
    requires lo + a + b <= |x|
    ensures Sum(x, lo, a + b) == Sum(x, lo, a) + Sum(x, lo + a, b)
    decreases b
  {
    if b > 0 { SumSplit(x, lo, a, b - 1); }
  }

  lemma {:induction false} ScaledIs(ts: seq<int>, sc: seq<int>, w: seq<int>, x: seq<int>, g: nat)
    requires AreScaled(ts, sc, w, x) && g <= |sc|
    ensures Sum(ts, 0, 32 * g) == IAcc(sc, w, x, g)
    decreases g
  {
    if g > 0 {
      ScaledIs(ts, sc, w, x, g - 1);
      var n := 32;
      SumSplit(ts, 0, 32 * (g - 1), n);
      ScaledGroup(ts, sc, w, x, g - 1, n);
    }
  }

  /** The two block sums of a group are the sum of its activations. */
  lemma GroupSum(x: Act, g: nat)
    requires ActOk(x) && g < 8
    ensures Sum(x.qs, 32 * g, 32) == x.bsums[2 * g] + x.bsums[2 * g + 1]
  {
    var n := 16;
    SumSplit(x.qs, 32 * g, n, n);
    assert 16 * (2 * g) == 32 * g && 16 * (2 * g + 1) == 32 * g + 16;
  }

  lemma {:induction false} ShiftedIs(us: seq<int>, mn: seq<int>, x: Act, g: nat)
    requires ActOk(x) && AreShifted(us, mn, x.qs) && g <= |mn|
    ensures Sum(us, 0, 32 * g) == IMins(mn, x.bsums, g)
    decreases g
  {
    if g > 0 {
      ShiftedIs(us, mn, x, g - 1);
      var n := 32;
      SumSplit(us, 0, 32 * (g - 1), n);
      ShiftedGroup(us, mn, x.qs, g - 1, n);
      GroupSum(x, g - 1);
    }
  }

  // ------------------------------------------------------------------ the folds

  lemma Regroup3(a: real, b: real, c: real)
    ensures a * b * c == a * (b * c)
  {}

  lemma Cross(a: real, b: real, c: real, d: real)
    ensures (a * b) * (c * d) == (a * c) * (b * d)
  {
    Regroup3(a, b, c * d);
    Regroup3(a, c, b * d);
    assert b * (c * d) == c * (b * d) by {
      Regroup3(b, c, d);
      Regroup3(c, b, d);
    }
  }

  lemma SpreadReals(k: real, a: real, b: real)
    ensures k * (a + b) == k * a + k * b
    ensures (a - b) * k == a * k - b * k
  {}

  lemma SpreadMinus(w: real, a: real, b: real, k: real)
    requires w == a - b
    ensures w * k == a * k - b * k
  {}

  /** One element of the dot, with its two factors pulled out. */
  lemma Element(w: real, d: real, dmin: real, dk: real, s: real, q: real, m: real, x: real)
    requires w == d * s * q - dmin * m
    ensures w * (dk * x) == d * dk * (s * (q * x)) - dmin * dk * (m * x)
  {
    SpreadMinus(w, d * s * q, dmin * m, dk * x);
    Regroup3(d, s, q);
    Cross(d, s * q, dk, x);
    Regroup3(s, q, x);
    Cross(dmin, m, dk, x);
  }

  /** Products of integers and of the reals they are. */
  lemma AsReals(s: int, q: int, m: int, x: int)
    ensures (s * (q * x)) as real == s as real * (q as real * x as real) && (m * x) as real == m as real * x as real
  {}

  /** v is the combination of t and u with factors p and r. */
  predicate Combines(v: real, p: real, t: int, r: real, u: int) { v == Times(p, t as real) - Times(r, u as real) }

  lemma CombinesMore(v: real, w: real, p: real, t: int, t': int, r: real, u: int, u': int)
    requires Combines(v, p, t, r, u) && Combines(w, p, t', r, u')
    ensures Combines(v + w, p, t + t', r, u + u')
  {
    SpreadReals(p, t as real, t' as real);
    SpreadReals(r, u as real, u' as real);
  }

  ghost predicate AllCombine(v: seq<real>, p: real, ts: seq<int>, r: real, us: seq<int>) {
    |v| == |ts| == |us| && forall e :: 0 <= e < |v| ==> Combines(v[e], p, ts[e], r, us[e])
  }

  lemma {:induction false} SumsCombine(v: seq<real>, p: real, ts: seq<int>, r: real, us: seq<int>, n: nat)
    requires AllCombine(v, p, ts, r, us) && n <= |v|
    ensures Combines(RealSum(v, n), p, Sum(ts, 0, n), r, Sum(us, 0, n))
    decreases n
  {
    if n > 0 {
      SumsCombine(v, p, ts, r, us, n - 1);
      CombinesMore(RealSum(v, n - 1), v[n - 1], p, Sum(ts, 0, n - 1), ts[n - 1], r, Sum(us, 0, n - 1), us[n - 1]);
    }
  }

  /** A product of the dot, weight w times activation y. */
  lemma ElementIs(v: real, w: real, y: real, d: real, dmin: real, dk: real, s: int, q: int, m: int, x: int,
                  p: real, t: int, r: real, u: int)
    requires v == Times(w, y) && y == Times(dk, x as real)
    requires w == Times(Times(d, s as real), q as real) - Times(dmin, m as real)
    requires p == Times(d, dk) && t == Times3(s, q, x) && r == Times(dmin, dk) && u == Times2(m, x)
    ensures Combines(v, p, t, r, u)
  {
    Element(w, d, dmin, dk, s as real, q as real, m as real, x as real);
    AsReals(s, q, m, x);
  }

  lemma ProductsCombine(b: Q4K, d: real, dmin: real, x: seq<int>, dk: real, p: real, ts: seq<int>, r: real,
                        us: seq<int>)
    requires Q4KOk(b) && |x| == 256 && AreScaled(ts, Scales(b), Weights(b), x) && AreShifted(us, Mins(b), x)
    requires p == Times(d, dk) && r == Times(dmin, dk)
    ensures AllCombine(Products(b, d, dmin, Dequantised(x, dk)), p, ts, r, us)
  {
    var v := Products(b, d, dmin, Dequantised(x, dk));
    forall e | 0 <= e < |v| ensures Combines(v[e], p, ts[e], r, us[e]) {
      ElementIs(v[e], Weight(b, d, dmin, e), Times(dk, x[e] as real), d, dmin, dk,
                ScaleOf(b.scales, e / 32), Nibble(b, e), MinOf(b.scales, e / 32), x[e], p, ts[e], r, us[e]);
    }
  }

  /** A superblock's dot is its integer work under two real factors. */
  lemma BlockIs(b: Q4K, d: real, dmin: real, x: Act, dk: real)
    requires Q4KOk(b) && ActOk(x)
    ensures Combines(BlockDot(b, d, dmin, Dequantised(x.qs, dk)), Times(d, dk), Terms(b, x).0, Times(dmin, dk),
      Terms(b, x).1)
  {
    var sc, mn, w := Scales(b), Mins(b), Weights(b);
    var ts := seq(256, e requires 0 <= e < 256 => Times3(sc[e / 32], w[e], x.qs[e]));
    var us := seq(256, e requires 0 <= e < 256 => Times2(mn[e / 32], x.qs[e]));
    var v := Products(b, d, dmin, Dequantised(x.qs, dk));
    ProductsCombine(b, d, dmin, x.qs, dk, Times(d, dk), ts, Times(dmin, dk), us);
    SumsCombine(v, Times(d, dk), ts, Times(dmin, dk), us, |v|);
    ScaledIs(ts, sc, w, x.qs, |sc|);
    ShiftedIs(us, mn, x, |mn|);
  }

  ghost function Total(val: F -> real, a: seq<F>): real
    requires |a| == 4
  {
    val(a[0]) + val(a[1]) + val(a[2]) + val(a[3])
  }

  /** One fold of the two terms of a superblock, in reals. */
  lemma FoldIs(o: Ops, val: F -> real, a: seq<F>, sb: nat, d: F, dmin: F, dk: F, terms: (int, int), w: real)
    requires Exact(o, val) && |a| == 4
    requires Combines(w, Times(val(d), val(dk)), terms.0, Times(val(dmin), val(dk)), terms.1)
    ensures Gains(val, a, Fold1(o, a, sb, d, dmin, dk, terms), w)
  {
    var k := sb % 4;
    var once := o.fma(o.mul(d, dk), o.ofInt(terms.0), a[k]);
    var twice := o.fma(o.neg(o.mul(dmin, dk)), o.ofInt(terms.1), once);
    assert val(once) == val(d) * val(dk) * terms.0 as real + val(a[k]);
    assert val(twice) == -(val(dmin) * val(dk)) * terms.1 as real + val(once);
    Negated(val(dmin) * val(dk), terms.1 as real);
  }

  lemma Negated(a: real, b: real)
    ensures (-a) * b == -(a * b)
  {}

  /** The accumulators together went from a to a', up by w. */
  ghost predicate Gains(val: F -> real, a: seq<F>, a': seq<F>, w: real) {
    |a| == 4 == |a'| && Total(val, a') == Total(val, a) + w
  }

  /** Folding one superblock adds its dot to the four accumulators taken together. */
  lemma FoldAdds(o: Ops, val: F -> real, a: seq<F>, sb: nat, b: Q4K, c: Column)
    requires Exact(o, val) && |a| == 4 && Q4KOk(b) && ActOk(c.act)
    ensures Gains(val, a, Fold1(o, a, sb, o.half(b.d), o.half(b.dmin), c.d, Terms(b, c.act)),
                  BlockDot(b, val(o.half(b.d)), val(o.half(b.dmin)), Dequantised(c.act.qs, val(c.d))))
  {
    var w := BlockDot(b, val(o.half(b.d)), val(o.half(b.dmin)), Dequantised(c.act.qs, val(c.d)));
    BlockIs(b, val(o.half(b.d)), val(o.half(b.dmin)), c.act, val(c.d));
    FoldIs(o, val, a, sb, o.half(b.d), o.half(b.dmin), c.d, Terms(b, c.act), w);
  }

  /** Superblock n adds its dot. */
  ghost predicate GainsAt(o: Ops, val: F -> real, row: seq<Q4K>, col: seq<Column>, n: nat)
    requires n < |row| == |col| && RowOk(row) && ColOk(col)
  {
    Gains(val, Accs(o, row, col, n), Accs(o, row, col, n + 1), Contribution(o, val, row[n], col[n]))
  }

  lemma AccsGain(o: Ops, val: F -> real, row: seq<Q4K>, col: seq<Column>, n: nat)
    requires Exact(o, val) && n < |row| == |col| && RowOk(row) && ColOk(col)
    ensures GainsAt(o, val, row, col, n)
  {
    FoldAdds(o, val, Accs(o, row, col, n), n, row[n], col[n]);
  }

  ghost predicate Sums(val: F -> real, a: seq<F>, w: real) { |a| == 4 && Total(val, a) == w }

  lemma GainsSum(val: F -> real, a: seq<F>, a': seq<F>, u: real, w: real)
    requires Gains(val, a, a', w) && Sums(val, a, u)
    ensures Sums(val, a', u + w)
  {}

  lemma {:induction false} AccsAdd(o: Ops, val: F -> real, row: seq<Q4K>, col: seq<Column>, n: nat)
    requires n <= |row| == |col| && RowOk(row) && ColOk(col) && val(o.zero) == 0.0
    requires forall i: nat :: i < n ==> GainsAt(o, val, row, col, i)
    ensures Sums(val, Accs(o, row, col, n), ExactDot(o, val, row, col, n))
    decreases n
  {
    if n > 0 {
      AccsAdd(o, val, row, col, n - 1);
      assert GainsAt(o, val, row, col, n - 1);
      GainsSum(val, Accs(o, row, col, n - 1), Accs(o, row, col, n), ExactDot(o, val, row, col, n - 1),
               Contribution(o, val, row[n - 1], col[n - 1]));
    }
  }

  /** Every q4_K kernel returns, but for rounding, the dot of the dequantised row and column. */
  lemma RowDotIsExact(o: Ops, val: F -> real, row: seq<Q4K>, col: seq<Column>)
    requires Exact(o, val) && |row| == |col| && RowOk(row) && ColOk(col)
    ensures val(RowDot(o, row, col)) == ExactDot(o, val, row, col, |row|)
  {
    forall i: nat | i < |row| ensures GainsAt(o, val, row, col, i) { AccsGain(o, val, row, col, i); }
    AccsAdd(o, val, row, col, |row|);
  }

  // Exact arithmetic exists: the operations of the reals themselves.

  function Real(a: F): real { if a.Number? then a.v else 0.0 }

  function RealMul(a: F, b: F): F { Number(Real(a) * Real(b)) }

  function RealAdd(a: F, b: F): F { Number(Real(a) + Real(b)) }

  function RealFma(a: F, b: F, c: F): F { Number(Real(a) * Real(b) + Real(c)) }

  function RealOps(half: int -> F): Ops {
    Ops(Number(0.0), half, (n: int) => Number(n as real), (a: F) => Number(-Real(a)), RealMul, RealAdd, RealFma)
  }

  lemma RealOpsAreExact(half: int -> F)
    ensures Exact(RealOps(half), Real)
  {
    var o := RealOps(half);
    forall a, b ensures Real(o.mul(a, b)) == Real(a) * Real(b) { assert o.mul(a, b) == RealMul(a, b); }
    forall a, b ensures Real(o.add(a, b)) == Real(a) + Real(b) { assert o.add(a, b) == RealAdd(a, b); }
    forall a, b, c ensures Real(o.fma(a, b, c)) == Real(a) * Real(b) + Real(c) {
      assert o.fma(a, b, c) == RealFma(a, b, c);
    }
  }

  /** Over the reals the kernels compute the dequantised dot itself, however half floats are read. */
  lemma RealRowDot(half: int -> F, row: seq<Q4K>, col: seq<Column>)
    requires |row| == |col| && RowOk(row) && ColOk(col)
    ensures Real(RowDot(RealOps(half), row, col)) == ExactDot(RealOps(half), Real, row, col, |row|)
  {
    RealOpsAreExact(half);
    RowDotIsExact(RealOps(half), Real, row, col);
  }

  // ------------------------------------------------------ the scalar reference

  /** Sum over the first n superblocks of a row; h reads half floats. */
  function RowSum(row: seq<Q4K>, h: U16 -> real, x: seq<real>, n: nat): real
    requires RowOk(row) && n <= |row| && |x| == 256 * |row|
  {
    if n == 0 then 0.0
    else
      var b := row[n - 1];
      RowSum(row, h, x, n - 1) + BlockDot(b, h(b.d), h(b.dmin), x[256 * (n - 1)..256 * n])
  }

  /** 32 weights of one scale and minimum: the nibbles of bytes q to q + 32, low or high. */
  method DotGroup(b: Q4K, ghost d: real, ghost dmin: real, x: seq<real>, q: nat, high: bool, ds: real, ms: real,
                  g: nat, acc0: real)
    returns (acc: real)
    requires Q4KOk(b) && |x| == 256 && g < 8 && q == 32 * (g / 2) && high == (g % 2 == 1)
    requires ds == Times(d, ScaleOf(b.scales, g) as real) && ms == Times(dmin, MinOf(b.scales, g) as real)
    requires acc0 == RealSum(Products(b, d, dmin, x), 32 * g)
    ensures acc == RealSum(Products(b, d, dmin, x), 32 * g + 32)
  {
    acc := acc0;
    ghost var v := Products(b, d, dmin, x);
    for l: nat := 0 to 32
      invariant acc == RealSum(v, 32 * g + l)
    {
      GroupNibble(b, g, l);
      var w := if high then b.qs[q + l] / 16 else b.qs[q + l] % 16;
      assert (32 * g + l) / 32 == g;
      assert v[32 * g + l] == Times(Times(ds, w as real) - ms, x[32 * g + l]);
      acc := acc + Times(Times(ds, w as real) - ms, x[32 * g + l]);
    }
  }

  /** 64 weights: the low nibbles of 32 bytes, then the high ones. */
  method DotChunk(b: Q4K, d: real, dmin: real, x: seq<real>, c: nat, acc0: real) returns (acc: real)
    requires Q4KOk(b) && |x| == 256 && c < 4 && acc0 == RealSum(Products(b, d, dmin, x), 64 * c)
    ensures acc == RealSum(Products(b, d, dmin, x), 64 * c + 64)
  {
    var g, h := 2 * c, 2 * c + 1;
    assert g / 2 == c == h / 2 && g % 2 == 0 && h % 2 == 1 && 32 * g == 64 * c && 32 * h == 64 * c + 32;
    var d1, m1 := Times(d, ScaleOf(b.scales, g) as real), Times(dmin, MinOf(b.scales, g) as real);
    var d2, m2 := Times(d, ScaleOf(b.scales, h) as real), Times(dmin, MinOf(b.scales, h) as real);
    acc := DotGroup(b, d, dmin, x, 32 * c, false, d1, m1, g, acc0);
    acc := DotGroup(b, d, dmin, x, 32 * c, true, d2, m2, h, acc);
  }

  /** fl_dot_row_q4_K, one superblock: 64 weights at a time. */
  method DotSuperblock(b: Q4K, d: real, dmin: real, x: seq<real>) returns (acc: real)
    requires Q4KOk(b) && |x| == 256
    ensures acc == BlockDot(b, d, dmin, x)
  {
    acc := 0.0;
    for c: nat := 0 to 4
      invariant acc == RealSum(Products(b, d, dmin, x), 64 * c)
    {
      acc := DotChunk(b, d, dmin, x, c, acc);
    }
  }

  /** fl_dot_row_q4_K, with exact sums. */
  method DotRow(row: seq<Q4K>, h: U16 -> real, x: seq<real>) returns (acc: real)
    requires RowOk(row) && |x| == 256 * |row|
    ensures acc == RowSum(row, h, x, |row|)
  {
    acc := 0.0;
    for sb: nat := 0 to |row|
      invariant acc == RowSum(row, h, x, sb)
    {
      var b := row[sb];
      var dot := DotSuperblock(b, h(b.d), h(b.dmin), x[256 * sb..256 * (sb + 1)]);
      acc := acc + dot;
    }
  }

  /** x holds the dequantised activations of the column, superblock by superblock. */
  ghost predicate Spells(val: F -> real, x: seq<real>, col: seq<Column>) {
    && |x| == 256 * |col| && (forall i :: 0 <= i < |col| ==> |col[i].act.qs| == 256)
    && forall i: nat :: i < |col| ==> Superblock(x, i) == Dequantised(col[i].act.qs, val(col[i].d))
  }

  function Superblock(x: seq<real>, i: nat): seq<real>
    requires 256 * (i + 1) <= |x|
  {
    x[256 * i..256 * (i + 1)]
  }

  lemma {:induction false} ReferenceSum(o: Ops, val: F -> real, row: seq<Q4K>, col: seq<Column>, x: seq<real>, n: nat)
    requires n <= |row| == |col| && RowOk(row) && ColOk(col) && Spells(val, x, col)
    ensures RowSum(row, u => val(o.half(u)), x, n) == ExactDot(o, val, row, col, n)
    decreases n
  {
    if n > 0 {
      ReferenceSum(o, val, row, col, x, n - 1);
      ReferenceBlock(o, val, row, col, x, n - 1);
    }
  }

  lemma ReferenceBlock(o: Ops, val: F -> real, row: seq<Q4K>, col: seq<Column>, x: seq<real>, n: nat)
    requires n < |row| == |col| && RowOk(row) && ColOk(col) && Spells(val, x, col)
    ensures var b := row[n];
            BlockDot(b, val(o.half(b.d)), val(o.half(b.dmin)), x[256 * n..256 * (n + 1)]) ==
            Contribution(o, val, b, col[n])
  {
    assert Superblock(x, n) == Dequantised(col[n].act.qs, val(col[n].d));
  }

  /** The vector kernels and the scalar reference on the dequantised activations differ by rounding alone. */
  lemma KernelsMatchReference(o: Ops, val: F -> real, row: seq<Q4K>, col: seq<Column>, x: seq<real>)
    requires Exact(o, val) && |row| == |col| && RowOk(row) && ColOk(col) && Spells(val, x, col)
    ensures val(RowDot(o, row, col)) == RowSum(row, u => val(o.half(u)), x, |row|)
  {
    RowDotIsExact(o, val, row, col);
    ReferenceSum(o, val, row, col, x, |row|);
  }
}
