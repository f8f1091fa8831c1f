/**
  Quantized weight blocks and the exact integer work of their dot products
  (src/runtime/quants.h).  Masks and shifts of unsigned bytes are written as
  remainders and quotients.
 */
module Quants {
  import opened Arithmetic

  type U8 = x: int | 0 <= x < 256
  type U16 = x: int | 0 <= x < 0x1_0000
  type Int32 = x: int | -0x8000_0000 <= x < 0x8000_0000
  type Int16 = x: int | -0x8000 <= x < 0x8000

  // ------------------------------------------------------------------- sums

  /** Sum of w[i] * x[i] over i in [lo, lo + n). */
  function Dot(w: seq<int>, x: seq<int>, lo: nat, n: nat): int
    requires lo + n <= |w| && lo + n <= |x|
  {
    if n == 0 then 0 else Dot(w, x, lo, n - 1) + w[lo + n - 1] * x[lo + n - 1]
  }

  function Sum(x: seq<int>, lo: nat, n: nat): int
    requires lo + n <= |x|
  {
    if n == 0 then 0 else Sum(x, lo, n - 1) + x[lo + n - 1]
  }

  lemma {:induction false} DotSplit(w: seq<int>, x: seq<int>, lo: nat, a: nat, b: nat)
    requires lo + a + b <= |w| && lo + a + b <= |x|
    ensures Dot(w, x, lo, a + b) == Dot(w, x, lo, a) + Dot(w, x, lo + a, b)
    decreases b
  {
    if b > 0 { DotSplit(w, x, lo, a, b - 1); }
  }

  /** The same factors at other places give the same sum. */
  lemma {:induction false} DotSame(w: seq<int>, x: seq<int>, lo: nat, w': seq<int>, x': seq<int>, lo': nat, n: nat)
    requires lo + n <= |w| && lo + n <= |x| && lo' + n <= |w'| && lo' + n <= |x'|
    requires w[lo..lo + n] == w'[lo'..lo' + n] && x[lo..lo + n] == x'[lo'..lo' + n]
    ensures Dot(w, x, lo, n) == Dot(w', x', lo', n)
    decreases n
  {
    if n > 0 {
      SliceLess(w, lo, w', lo', n);
      SliceLess(x, lo, x', lo', n);
      DotSame(w, x, lo, w', x', lo', n - 1);
    }
  }

  lemma SliceLess(w: seq<int>, lo: nat, w': seq<int>, lo': nat, n: nat)
    requires 0 < n && lo + n <= |w| && lo' + n <= |w'| && w[lo..lo + n] == w'[lo'..lo' + n]
    ensures w[lo..lo + n - 1] == w'[lo'..lo' + n - 1] && w[lo + n - 1] == w'[lo' + n - 1]
  {
    assert w[lo..lo + n][n - 1] == w'[lo'..lo' + n][n - 1];
    assert w[lo..lo + n][..n - 1] == w[lo..lo + n - 1];
    assert w'[lo'..lo' + n][..n - 1] == w'[lo'..lo' + n - 1];
  }

  predicate Within(x: seq<int>, m: int) { forall i :: 0 <= i < |x| ==> -m <= x[i] <= m }

  lemma ProductBound(a: int, b: int, m: int, k: int)
    requires -m <= a <= m && -k <= b <= k
    ensures -(m * k) <= a * b <= m * k
  {
    var p, q := if a < 0 then -a else a, if b < 0 then -b else b;
    TimesMono(p, m, q);
    TimesMono(q, k, m);
    assert a * b == p * q || a * b == -(p * q);
  }

  lemma {:induction false} DotBound(w: seq<int>, x: seq<int>, lo: nat, n: nat, m: int, k: int)
    requires 0 <= m && 0 <= k && lo + n <= |w| && lo + n <= |x| && Within(w, m) && Within(x, k)
    ensures -(n * (m * k)) <= Dot(w, x, lo, n) <= n * (m * k)
  {
    if n > 0 {
      DotBound(w, x, lo, n - 1, m, k);
      ProductBound(w[lo + n - 1], x[lo + n - 1], m, k);
      assert n * (m * k) == (n - 1) * (m * k) + m * k;
    }
  }

  lemma {:induction false} SumBound(x: seq<int>, lo: nat, n: nat, k: int)
    requires 0 <= k && lo + n <= |x| && Within(x, k)
    ensures -(n * k) <= Sum(x, lo, n) <= n * k
  {
    if n > 0 {
      SumBound(x, lo, n - 1, k);
      assert n * k == (n - 1) * k + k;
    }
  }

  /** Subtracting c times the activation sum centres the weights at c. */
  lemma {:induction false} Centred(w: seq<int>, x: seq<int>, lo: nat, n: nat, c: int, v: seq<int>)
    requires lo + n <= |w| == |v| && lo + n <= |x|
    requires forall i :: 0 <= i < |w| ==> v[i] == w[i] - c
    ensures Dot(w, x, lo, n) - c * Sum(x, lo, n) == Dot(v, x, lo, n)
    decreases n
  {
    if n > 0 {
      Centred(w, x, lo, n - 1, c, v);
      var a, b := w[lo + n - 1], x[lo + n - 1];
      assert (a - c) * b == a * b - c * b;
      assert c * Sum(x, lo, n) == c * Sum(x, lo, n - 1) + c * b;
    }
  }

  // ------------------------------------------------------------ activations

  /** The integer part of a q8_K superblock; its scale is a float kept beside it. */
  datatype Act = Act(qs: seq<int>, bsums: seq<int>)

  const Q8_MAX := 127

  predicate ActOk(a: Act) {
    && |a.qs| == 256 && |a.bsums| == 16 && Within(a.qs, Q8_MAX)
    && forall g :: 0 <= g < 16 ==> a.bsums[g] == Sum(a.qs, 16 * g, 16)
  }

  function Clamp(v: int): int { if v > Q8_MAX then Q8_MAX else if v < -Q8_MAX then -Q8_MAX else v }

  /** Clamps, and sums every 16 values. */
  method ClampAndSum(rounded: seq<int>) returns (a: Act)
    requires |rounded| == 256
    ensures ActOk(a) && forall i :: 0 <= i < 256 ==> a.qs[i] == Clamp(rounded[i])
    ensures forall g :: 0 <= g < 16 ==> -0x8000 <= a.bsums[g] < 0x8000
  {
    var qs := seq(256, i requires 0 <= i < 256 => Clamp(rounded[i]));
    var bsums: seq<int> := [];
    for g: nat := 0 to 16
      invariant |bsums| == g && forall h :: 0 <= h < g ==> bsums[h] == Sum(qs, 16 * h, 16) && -2032 <= bsums[h] <= 2032
    {
      var bs: Int16 := 0;
      for i: nat := 0 to 16
        invariant bs == Sum(qs, 16 * g, i)
      {
        SumBound(qs, 16 * g, i + 1, Q8_MAX);
        bs := bs + qs[16 * g + i];
      }
      SumBound(qs, 16 * g, 16, Q8_MAX);
      bsums := bsums + [bs];
    }
    a := Act(qs, bsums);
  }

  /** roundf: to the nearest integer, halves away from zero. */
  function Round(v: real): int { if v >= 0.0 then (v + 0.5).Floor else -((-v + 0.5).Floor) }

  function Abs(v: real): real { if v >= 0.0 then v else -v }

  /** The scan for the largest magnitude. */
  method MaxAbs(x: seq<real>) returns (amax: real)
    ensures amax >= 0.0 && (forall i :: 0 <= i < |x| ==> Abs(x[i]) <= amax)
    ensures amax == 0.0 || exists i :: 0 <= i < |x| && Abs(x[i]) == amax
  {
    amax := 0.0;
    for i := 0 to |x|
      invariant amax >= 0.0 && forall j :: 0 <= j < i ==> Abs(x[j]) <= amax
      invariant amax == 0.0 || exists j :: 0 <= j < i && Abs(x[j]) == amax
    {
      if Abs(x[i]) > amax { amax := Abs(x[i]); }
    }
  }

  lemma RoundNear(v: real)
    ensures Abs(v - Round(v) as real) <= 0.5
    ensures Abs(v) <= 127.0 ==> -Q8_MAX <= Round(v) <= Q8_MAX
  {}

  lemma TimesReal(x: real, y: real, n: real)
    requires x <= y && n >= 0.0
    ensures x * n <= y * n
  {}

  lemma SpreadReal(x: real, y: real, n: real)
    ensures (x - y) * n == x * n - y * n
  {}

  lemma RegroupReal(x: real, y: real, z: real)
    ensures x * y * z == x * (y * z)
  {}

  /** q steps of size d are at most half a step from x. */
  predicate Near(x: real, q: int, d: real) { -(d / 2.0) <= x - q as real * d <= d / 2.0 }

  lemma HalfStep(x: real, v: real, d: real, q: int)
    requires v * d == x && Abs(v - q as real) <= 0.5 && d >= 0.0
    ensures Near(x, q, d)
  {
    var e := v - q as real;
    SpreadReal(v, q as real, d);
    TimesReal(e, 0.5, d);
    TimesReal(-0.5, e, d);
  }

  /** id is the inverse of the scale d, and of amax in 127ths. */
  predicate IsInverse(amax: real, id: real, d: real) { 0.0 < id && id * amax == 127.0 && id * d == 1.0 }

  lemma Inverse(amax: real, id: real, d: real)
    requires amax > 0.0 && id == 127.0 / amax && 127.0 * d == amax
    ensures IsInverse(amax, id, d)
  {
    assert id * amax == 127.0;
    assert id * (127.0 * d) == 127.0 * (id * d);
  }

  /** v steps of size d make x, and they are at most 127. */
  predicate Steps(x: real, v: real, d: real) { v * d == x && Abs(v) <= 127.0 && d >= 0.0 }

  lemma Shrunk(x: real, amax: real, id: real, d: real)
    requires IsInverse(amax, id, d) && Abs(x) <= amax && d >= 0.0
    ensures Steps(x, x * id, d)
  {
    TimesReal(x, amax, id);
    TimesReal(-amax, x, id);
    RegroupReal(x, id, d);
  }

  function Ratio(x: real, amax: real): real { x * if amax > 0.0 then 127.0 / amax else 0.0 }

  lemma RatioIs(x: real, amax: real, d: real)
    requires 0.0 <= amax && Abs(x) <= amax && 127.0 * d == amax
    ensures Steps(x, Ratio(x, amax), d)
  {
    if amax > 0.0 {
      var id := 127.0 / amax;
      Inverse(amax, id, d);
      Shrunk(x, amax, id, d);
      assert Ratio(x, amax) == x * id;
    } else {
      assert x == 0.0 && Ratio(x, amax) == 0.0;
    }
  }

  predicate Faithful(x: real, q: int, d: real) { -Q8_MAX <= q <= Q8_MAX && Near(x, q, d) }

  lemma StepsRound(x: real, v: real, d: real)
    requires Steps(x, v, d)
    ensures Faithful(x, Round(v), d)
  {
    RoundNear(v);
    HalfStep(x, v, d, Round(v));
  }

  /** What one value becomes. */
  function Quantized(x: real, amax: real): int { Round(Ratio(x, amax)) }

  lemma QuantizedIs(x: real, amax: real, d: real)
    requires 0.0 <= amax && Abs(x) <= amax && 127.0 * d == amax
    ensures Faithful(x, Quantized(x, amax), d)
  {
    RatioIs(x, amax, d);
    StepsRound(x, Ratio(x, amax), d);
  }

  /**
    The q8_K quantizer: the largest magnitude becomes 127 steps, no value is clamped or off
    by more than half a step, and every 16 values are summed.
   */
  method QuantizeQ8K(x: seq<real>) returns (a: Act, d: real)
    requires |x| == 256
    ensures ActOk(a) && forall i :: 0 <= i < 256 ==> Abs(x[i]) <= 127.0 * d
    ensures d == 0.0 || exists i :: 0 <= i < 256 && Abs(x[i]) == 127.0 * d
    ensures forall i :: 0 <= i < 256 ==> a.qs[i] == Quantized(x[i], 127.0 * d) && Near(x[i], a.qs[i], d)
    ensures forall g :: 0 <= g < 16 ==> -0x8000 <= a.bsums[g] < 0x8000
  {
    var amax := MaxAbs(x);
    d := amax / 127.0;
    var rounded := seq(256, i requires 0 <= i < 256 => Quantized(x[i], amax));
    forall i | 0 <= i < 256 ensures Clamp(rounded[i]) == rounded[i] && Near(x[i], rounded[i], d) {
      QuantizedIs(x[i], amax, d);
    }
    a := ClampAndSum(rounded);
  }

  // -------------------------------------------------------------------- q4_K

  datatype Q4K = Q4K(d: U16, dmin: U16, scales: seq<U8>, qs: seq<U8>)

  predicate Q4KOk(b: Q4K) { |b.scales| == 12 && |b.qs| == 128 }

  /** fl_q4k_scale_min: 6-bit scale j. */
  function ScaleOf(s: seq<U8>, j: nat): (r: int)
    requires |s| == 12 && j < 8
    ensures 0 <= r <= 63
  {
    if j < 4 then s[j] % 64 else s[j + 4] % 16 + (s[j - 4] / 64) * 16
  }

  /** fl_q4k_scale_min: 6-bit minimum j. */
  function MinOf(s: seq<U8>, j: nat): (r: int)
    requires |s| == 12 && j < 8
    ensures 0 <= r <= 63
  {
    if j < 4 then s[j + 4] % 64 else s[j + 4] / 16 + (s[j] / 64) * 16
  }

  /** fl_q4k_scales_all: both loops at once. */
  method ScalesAll(s: seq<U8>) returns (sc: seq<int>, mn: seq<int>)
    requires |s| == 12
    ensures |sc| == 8 == |mn| && forall j :: 0 <= j < 8 ==> sc[j] == ScaleOf(s, j) && mn[j] == MinOf(s, j)
  {
    sc, mn := [], [];
    for j := 0 to 4
      invariant |sc| == j == |mn| && forall i :: 0 <= i < j ==> sc[i] == ScaleOf(s, i) && mn[i] == MinOf(s, i)
    {
      sc, mn := sc + [s[j] % 64], mn + [s[j + 4] % 64];
    }
    for j := 4 to 8
      invariant |sc| == j == |mn| && forall i :: 0 <= i < j ==> sc[i] == ScaleOf(s, i) && mn[i] == MinOf(s, i)
    {
      sc, mn := sc + [s[j + 4] % 16 + (s[j - 4] / 64) * 16], mn + [s[j + 4] / 16 + (s[j] / 64) * 16];
    }
  }

  /** Weight e of a superblock: 64-element chunks, low nibbles then high nibbles. */
  function Nibble(b: Q4K, e: nat): (r: int)
    requires Q4KOk(b) && e < 256
    ensures 0 <= r <= 15
  {
    var q := b.qs[(e / 64) * 32 + e % 32];
    if e % 64 < 32 then q % 16 else q / 16
  }

  function Weights(b: Q4K): (w: seq<int>)
    requires Q4KOk(b)
    ensures |w| == 256 && Within(w, 15)
  {
    seq(256, e requires 0 <= e < 256 => Nibble(b, e))
  }

  /** Scaled integer dot of the first n 32-element groups. */
  function IAcc(sc: seq<int>, w: seq<int>, x: seq<int>, n: nat): int
    requires n <= |sc| && 32 * n <= |w| && 32 * n <= |x|
  {
    if n == 0 then 0 else IAcc(sc, w, x, n - 1) + sc[n - 1] * Dot(w, x, 32 * (n - 1), 32)
  }

  /** Scaled minima of the first n groups. */
  function IMins(mn: seq<int>, bsums: seq<int>, n: nat): int
    requires n <= |mn| && 2 * n <= |bsums|
  {
    if n == 0 then 0 else IMins(mn, bsums, n - 1) + mn[n - 1] * (bsums[2 * n - 2] + bsums[2 * n - 1])
  }

  function Scales(b: Q4K): (r: seq<int>)
    requires Q4KOk(b)
    ensures |r| == 8
  {
    seq(8, j requires 0 <= j < 8 => ScaleOf(b.scales, j))
  }

  function Mins(b: Q4K): (r: seq<int>)
    requires Q4KOk(b)
    ensures |r| == 8
  {
    seq(8, j requires 0 <= j < 8 => MinOf(b.scales, j))
  }

  /** What every q4_K kernel accumulates for one superblock. */
  function Terms(b: Q4K, x: Act): (int, int)
    requires Q4KOk(b) && |x.qs| == 256 && |x.bsums| == 16
  {
    (FullAcc(Scales(b), Weights(b), x.qs), FullMins(Mins(b), x.bsums))
  }

  function FullAcc(sc: seq<int>, w: seq<int>, x: seq<int>): int
    requires 32 * |sc| <= |w| && 32 * |sc| <= |x|
  {
    IAcc(sc, w, x, |sc|)
  }

  function FullMins(mn: seq<int>, bsums: seq<int>): int
    requires 2 * |mn| <= |bsums|
  {
    IMins(mn, bsums, |mn|)
  }

  const GROUP_DOT := 60960        // 32 * 15 * 127
  const GROUP_MIN := 4064         // 2 * 2032

  lemma {:induction false} TermsBound(sc: seq<int>, w: seq<int>, x: seq<int>, n: nat)
    requires n <= 8 <= |sc| && 256 <= |w| && 256 <= |x| && Within(w, 15) && Within(x, Q8_MAX)
    requires forall j :: 0 <= j < |sc| ==> 0 <= sc[j] <= 63
    ensures -(n * 63 * GROUP_DOT) <= IAcc(sc, w, x, n) <= n * 63 * GROUP_DOT
  {
    if n > 0 {
      TermsBound(sc, w, x, n - 1);
      DotBound(w, x, 32 * (n - 1), 32, 15, Q8_MAX);
      ProductBound(sc[n - 1], Dot(w, x, 32 * (n - 1), 32), 63, GROUP_DOT);
    }
  }

  lemma {:induction false} MinsBound(mn: seq<int>, bsums: seq<int>, n: nat)
    requires n <= 8 <= |mn| && 16 <= |bsums| && Within(bsums, 2032)
    requires forall j :: 0 <= j < |mn| ==> 0 <= mn[j] <= 63
    ensures -(n * 63 * GROUP_MIN) <= IMins(mn, bsums, n) <= n * 63 * GROUP_MIN
  {
    if n > 0 {
      MinsBound(mn, bsums, n - 1);
      ProductBound(mn[n - 1], bsums[2 * n - 2] + bsums[2 * n - 1], 63, GROUP_MIN);
    }
  }

  lemma BsumsBound(x: Act)
    requires ActOk(x)
    ensures Within(x.bsums, 2032)
  {
    forall g | 0 <= g < 16 ensures -2032 <= x.bsums[g] <= 2032 { SumBound(x.qs, 16 * g, 16, Q8_MAX); }
  }

  /** Weight i of group g, as the packed kernel finds it. */
  lemma GroupNibble(b: Q4K, g: nat, i: nat)
    requires Q4KOk(b) && g < 8 && i < 32
    ensures (g / 2) * 32 + i < 128
    ensures var q := b.qs[(g / 2) * 32 + i]; Weights(b)[32 * g + i] == if g % 2 == 1 then q / 16 else q % 16
  {
    var e := 32 * g + i;
    assert e / 64 == g / 2 && e % 32 == i && e % 64 == (g % 2) * 32 + i;
  }

  /** fl_dot_i8k_q4_K, integer part: unpacks nibbles and scales as it goes, all in 32-bit integers. */
  method PackedTerms(b: Q4K, x: Act) returns (iacc: Int32, imins: Int32)
    requires Q4KOk(b) && ActOk(x)
    ensures (iacc, imins) == Terms(b, x)
  {
    iacc, imins := 0, 0;
    var sc, mn := Scales(b), Mins(b);
    ghost var w := Weights(b);
    BsumsBound(x);
    for g: nat := 0 to |sc|
      invariant iacc == IAcc(sc, w, x.qs, g) && imins == IMins(mn, x.bsums, g)
    {
      var idot := PackedGroup(b, x, g);
      iacc := AddScaled(sc, w, x.qs, g, idot, iacc);
      imins := AddMins(mn, x.bsums, g, imins);
    }
  }

  method AddScaled(sc: seq<int>, ghost w: seq<int>, ghost x: seq<int>, g: nat, idot: Int32, acc: Int32)
    returns (r: Int32)
    requires g < 8 <= |sc| && 256 <= |w| && 256 <= |x| && Within(w, 15) && Within(x, Q8_MAX)
    requires forall j :: 0 <= j < |sc| ==> 0 <= sc[j] <= 63
    requires idot == Dot(w, x, 32 * g, 32) && acc == IAcc(sc, w, x, g)
    ensures r == IAcc(sc, w, x, g + 1)
  {
    AccFits(sc, w, x, g);
    r := acc + sc[g] * idot;
  }

  method AddMins(mn: seq<int>, bsums: seq<int>, g: nat, acc: Int32) returns (r: Int32)
    requires g < 8 <= |mn| && 16 <= |bsums| && Within(bsums, 2032)
    requires forall j :: 0 <= j < |mn| ==> 0 <= mn[j] <= 63
    requires acc == IMins(mn, bsums, g)
    ensures r == IMins(mn, bsums, g + 1)
  {
    MinFits(mn, bsums, g);
    r := acc + mn[g] * (bsums[2 * g] + bsums[2 * g + 1]);
  }

  /** The accumulator and the next term stay inside 32 bits. */
  lemma AccFits(sc: seq<int>, w: seq<int>, x: seq<int>, g: nat)
    requires g < 8 <= |sc| && 256 <= |w| && 256 <= |x| && Within(w, 15) && Within(x, Q8_MAX)
    requires forall j :: 0 <= j < |sc| ==> 0 <= sc[j] <= 63
    ensures var t := sc[g] * Dot(w, x, 32 * g, 32); -4_000_000 <= t <= 4_000_000
    ensures -0x8000_0000 <= IAcc(sc, w, x, g + 1) < 0x8000_0000
    ensures IAcc(sc, w, x, g + 1) == IAcc(sc, w, x, g) + sc[g] * Dot(w, x, 32 * g, 32)
  {
    TermsBound(sc, w, x, g + 1);
    DotBound(w, x, 32 * g, 32, 15, Q8_MAX);
    ProductBound(sc[g], Dot(w, x, 32 * g, 32), 63, GROUP_DOT);
  }

  lemma MinFits(mn: seq<int>, bsums: seq<int>, g: nat)
    requires g < 8 <= |mn| && 16 <= |bsums| && Within(bsums, 2032)
    requires forall j :: 0 <= j < |mn| ==> 0 <= mn[j] <= 63
    ensures -0x8000_0000 <= IMins(mn, bsums, g + 1) < 0x8000_0000
    ensures IMins(mn, bsums, g + 1) == IMins(mn, bsums, g) + mn[g] * (bsums[2 * g] + bsums[2 * g + 1])
  {
    MinsBound(mn, bsums, g + 1);
  }

  method PackedGroup(b: Q4K, x: Act, g: nat) returns (idot: Int32)
    requires Q4KOk(b) && ActOk(x) && g < 8
    ensures idot == Dot(Weights(b), x.qs, 32 * g, 32)
  {
    idot := 0;
    ghost var w := Weights(b);
    for i: nat := 0 to 32
      invariant idot == Dot(w, x.qs, 32 * g, i)
    {
      GroupNibble(b, g, i);
      DotBound(w, x.qs, 32 * g, i + 1, 15, Q8_MAX);
      var q := b.qs[(g / 2) * 32 + i];
      var w4 := if g % 2 == 1 then q / 16 else q % 16;
      idot := idot + w4 * x.qs[32 * g + i];
    }
  }

  // -------------------------------------------------------------------- q6_K

  datatype Q6K = Q6K(ql: seq<U8>, qh: seq<U8>, scales: seq<int>)

  predicate Q6KOk(b: Q6K) { |b.ql| == 128 && |b.qh| == 64 && |b.scales| == 16 && Within(b.scales, 128) }

  function Pow4(s: nat): (r: nat)
    requires s < 4
    ensures r > 0
  {
    if s == 0 then 1 else if s == 1 then 4 else if s == 2 then 16 else 64
  }

  /** Weight j of span s of half h: four low bits, two high bits, offset 32 still in. */
  function SixBits(b: Q6K, h: nat, s: nat, j: nat): (r: int)
    requires Q6KOk(b) && h < 2 && s < 4 && j < 32
    ensures 0 <= r <= 63
  {
    var lb := b.ql[h * 64 + (s % 2) * 32 + j];
    (if s < 2 then lb % 16 else lb / 16) + ((b.qh[h * 32 + j] / Pow4(s)) % 4) * 16
  }

  function Weights6(b: Q6K): (w: seq<int>)
    requires Q6KOk(b)
    ensures |w| == 256 && Within(w, 63)
  {
    seq(256, e requires 0 <= e < 256 => SixBits(b, e / 128, (e / 32) % 4, e % 32))
  }

  /** Scaled centred dot of the first n 16-element groups: the meaning of the q6_K accumulator. */
  function CentredAcc(sc: seq<int>, w: seq<int>, x: seq<int>, n: nat): int
    requires n <= |sc| && 16 * n <= |w| && 16 * n <= |x|
  {
    if n == 0 then 0 else CentredAcc(sc, w, x, n - 1) + sc[n - 1] * Dot(Minus(w, 32), x, 16 * (n - 1), 16)
  }

  function Minus(w: seq<int>, c: int): (v: seq<int>)
    ensures |v| == |w| && forall i :: 0 <= i < |w| ==> v[i] == w[i] - c
  {
    seq(|w|, i requires 0 <= i < |w| => w[i] - c)
  }

  const GROUP6 := 193040          // 16 * 63 * 127 + 32 * 2032

  lemma {:induction false} Acc6Bound(sc: seq<int>, w: seq<int>, x: seq<int>, n: nat)
    requires n <= 16 <= |sc| && 256 <= |w| && 256 <= |x| && Within(sc, 128) && Within(w, 63) && Within(x, Q8_MAX)
    ensures -(n * 128 * GROUP6) <= CentredAcc(sc, w, x, n) <= n * 128 * GROUP6
  {
    if n > 0 {
      Acc6Bound(sc, w, x, n - 1);
      Group6(w, x, 16 * (n - 1));
      ProductBound(sc[n - 1], Dot(Minus(w, 32), x, 16 * (n - 1), 16), 128, GROUP6);
    }
  }

  /** The subtracted-sum form of one 16-element group is the centred dot, inside its bound. */
  lemma Group6(w: seq<int>, x: seq<int>, lo: nat)
    requires lo + 16 <= |w| && lo + 16 <= |x| && Within(w, 63) && Within(x, Q8_MAX)
    ensures Dot(w, x, lo, 16) - 32 * Sum(x, lo, 16) == Dot(Minus(w, 32), x, lo, 16)
    ensures -GROUP6 <= Dot(Minus(w, 32), x, lo, 16) <= GROUP6
    ensures -128016 <= Dot(w, x, lo, 16) <= 128016 && -2032 <= Sum(x, lo, 16) <= 2032
  {
    Centred(w, x, lo, 16, 32, Minus(w, 32));
    DotBound(w, x, lo, 16, 63, Q8_MAX);
    SumBound(x, lo, 16, Q8_MAX);
  }

  /** fl_dot_i8k_q6_K, integer part: the block sums stand in for the activation sums. */
  method Packed6(b: Q6K, x: Act) returns (iacc: Int32)
    requires Q6KOk(b) && ActOk(x)
    ensures iacc == CentredAcc(b.scales, Weights6(b), x.qs, 16)
  {
    iacc := 0;
    for h: nat := 0 to 2
      invariant iacc == CentredAcc(b.scales, Weights6(b), x.qs, 8 * h)
    {
      iacc := Half6(b, x, h, iacc);
    }
  }

  method Half6(b: Q6K, x: Act, h: nat, iacc0: Int32) returns (iacc: Int32)
    requires Q6KOk(b) && ActOk(x) && h < 2
    requires iacc0 == CentredAcc(b.scales, Weights6(b), x.qs, 8 * h)
    ensures iacc == CentredAcc(b.scales, Weights6(b), x.qs, 8 * h + 8)
  {
    iacc := iacc0;
    for s: nat := 0 to 4
      invariant iacc == CentredAcc(b.scales, Weights6(b), x.qs, 8 * h + 2 * s)
    {
      iacc := Span6(b, x, h, s, iacc);
    }
  }

  method Span6(b: Q6K, x: Act, h: nat, s: nat, iacc0: Int32) returns (iacc: Int32)
    requires Q6KOk(b) && ActOk(x) && h < 2 && s < 4
    requires iacc0 == CentredAcc(b.scales, Weights6(b), x.qs, 8 * h + 2 * s)
    ensures iacc == CentredAcc(b.scales, Weights6(b), x.qs, 8 * h + 2 * s + 2)
  {
    iacc := iacc0;
    for k16: nat := 0 to 2
      invariant iacc == CentredAcc(b.scales, Weights6(b), x.qs, 8 * h + 2 * s + k16)
    {
      iacc := Add6(b, x, h, s, k16, iacc);
    }
  }

  /** Weight i of 16-element group t = 8h + 2s + k16. */
  lemma GroupSixBits(b: Q6K, h: nat, s: nat, k16: nat, i: nat)
    requires Q6KOk(b) && h < 2 && s < 4 && k16 < 2 && i < 16
    ensures Weights6(b)[16 * (8 * h + 2 * s + k16) + i] == SixBits(b, h, s, k16 * 16 + i)
  {
    var e := 16 * (8 * h + 2 * s + k16) + i;
    assert e == 128 * h + 32 * s + (16 * k16 + i);
    assert e / 128 == h && (e / 32) % 4 == s && e % 32 == 16 * k16 + i;
  }

  method Dot6(b: Q6K, x: Act, h: nat, s: nat, k16: nat) returns (idot: Int32)
    requires Q6KOk(b) && ActOk(x) && h < 2 && s < 4 && k16 < 2
    ensures idot == Dot(Weights6(b), x.qs, 16 * (8 * h + 2 * s + k16), 16)
  {
    var lo := 16 * (8 * h + 2 * s + k16);
    ghost var w := Weights6(b);
    idot := 0;
    for i: nat := 0 to 16
      invariant idot == Dot(w, x.qs, lo, i)
    {
      GroupSixBits(b, h, s, k16, i);
      DotBound(w, x.qs, lo, i + 1, 63, Q8_MAX);
      var q6 := SixBits(b, h, s, k16 * 16 + i);
      idot := idot + q6 * x.qs[lo + i];
    }
  }

  method Add6(b: Q6K, x: Act, h: nat, s: nat, k16: nat, iacc0: Int32) returns (iacc: Int32)
    requires Q6KOk(b) && ActOk(x) && h < 2 && s < 4 && k16 < 2
    requires iacc0 == CentredAcc(b.scales, Weights6(b), x.qs, 8 * h + 2 * s + k16)
    ensures iacc == CentredAcc(b.scales, Weights6(b), x.qs, 8 * h + 2 * s + k16 + 1)
  {
    var t := 8 * h + 2 * s + k16;
    ghost var w := Weights6(b);
    var idot := Dot6(b, x, h, s, k16);
    var bs := x.bsums[2 * (h * 4 + s) + k16];
    Group6(w, x.qs, 16 * t);
    var centred: Int32 := idot - 32 * bs;
    Acc6Bound(b.scales, w, x.qs, t + 1);
    ProductBound(b.scales[t], centred, 128, GROUP6);
    var term: Int32 := b.scales[t] * centred;
    iacc := iacc0 + term;
  }

  // -------------------------------------------------------------------- q5_0

  datatype Q50 = Q50(qh: seq<bool>, qs: seq<U8>)     // 32 high bits, 16 nibble pairs

  predicate Q50Ok(b: Q50) { |b.qh| == 32 && |b.qs| == 16 }

  function FiveBits(b: Q50, j: nat): (r: int)
    requires Q50Ok(b) && j < 32
    ensures 0 <= r <= 31
  {
    (if j < 16 then b.qs[j] % 16 else b.qs[j - 16] / 16) + (if b.qh[j] then 16 else 0)
  }

  function Weights5(b: Q50): (w: seq<int>)
    requires Q50Ok(b)
    ensures |w| == 32 && Within(w, 31)
  {
    seq(32, j requires 0 <= j < 32 => FiveBits(b, j))
  }

  /** fl_dot_i8_q5_0, one block: low and high halves together, then the sum, is the centred dot. */
  method Packed5(b: Q50, x: seq<int>) returns (t: Int32)
    requires Q50Ok(b) && |x| == 32 && Within(x, Q8_MAX)
    ensures t == Dot(Minus(Weights5(b), 16), x, 0, 32)
  {
    ghost var w := Weights5(b);
    var idot: Int32, isum: Int32 := 0, 0;
    for j: nat := 0 to 16
      invariant idot == Dot(w, x, 0, j) + Dot(w, x, 16, j)
    {
      DotBound(w, x, 0, j + 1, 31, Q8_MAX);
      DotBound(w, x, 16, j + 1, 31, Q8_MAX);
      idot := idot + FiveBits(b, j) * x[j] + FiveBits(b, 16 + j) * x[16 + j];
    }
    for i: nat := 0 to 32
      invariant isum == Sum(x, 0, i)
    {
      SumBound(x, 0, i + 1, Q8_MAX);
      isum := isum + x[i];
    }
    DotSplit(w, x, 0, 16, 16);
    Centred(w, x, 0, 32, 16, Minus(w, 16));
    DotBound(w, x, 0, 32, 31, Q8_MAX);
    SumBound(x, 0, 32, Q8_MAX);
    t := idot - 16 * isum;
  }
}
