/**
  The bit layout of the weight blocks, from the writing side: any scales and weights can be packed
  into a block, the decoders of the kernels read them back, and a block is no more than that.
 */
module QuantLayout {
  import opened Arithmetic
  import opened Quants

  /** Every value is below n. */
  predicate Below(w: seq<int>, n: int) { forall i :: 0 <= i < |w| ==> 0 <= w[i] < n }

  // -------------------------------------------------------------------- q4_K

  /** Six-bit values: the first four of each kind whole, the last four split into four bits and two. */
  function ScaleByte(sc: seq<int>, mn: seq<int>, i: nat): (r: U8)
    requires |sc| == 8 == |mn| && Below(sc, 64) && Below(mn, 64) && i < 12
  {
    if i < 4 then sc[i] + (sc[i + 4] / 16) * 64
    else if i < 8 then mn[i - 4] + (mn[i] / 16) * 64
    else sc[i - 4] % 16 + (mn[i - 4] % 16) * 16
  }

  /** Byte i of a chunk of 32 holds weight i of the chunk's 64 below weight 32 + i. */
  function Pack4(d: U16, dmin: U16, sc: seq<int>, mn: seq<int>, w: seq<int>): (b: Q4K)
    requires |sc| == 8 == |mn| && Below(sc, 64) && Below(mn, 64) && |w| == 256 && Below(w, 16)
    ensures Q4KOk(b)
  {
    Q4K(d, dmin, ScaleBlock(sc, mn),
        seq(128, i requires 0 <= i < 128 => w[(i / 32) * 64 + i % 32] + 16 * w[(i / 32) * 64 + 32 + i % 32]))
  }

  /** What the three kinds of scale bytes split into. */
  lemma ScaleBytes(sc: seq<int>, mn: seq<int>, j: nat)
    requires |sc| == 8 == |mn| && Below(sc, 64) && Below(mn, 64) && j < 4
    ensures ScaleByte(sc, mn, j) % 64 == sc[j] && ScaleByte(sc, mn, j) / 64 == sc[j + 4] / 16
    ensures ScaleByte(sc, mn, j + 4) % 64 == mn[j] && ScaleByte(sc, mn, j + 4) / 64 == mn[j + 4] / 16
    ensures ScaleByte(sc, mn, j + 8) % 16 == sc[j + 4] % 16 && ScaleByte(sc, mn, j + 8) / 16 == mn[j + 4] % 16
  {
    DivModOf(ScaleByte(sc, mn, j), sc[j + 4] / 16, 64, sc[j]);
    DivModOf(ScaleByte(sc, mn, j + 4), mn[j + 4] / 16, 64, mn[j]);
    DivModOf(ScaleByte(sc, mn, j + 8), mn[j + 4] % 16, 16, sc[j + 4] % 16);
  }

  function ScaleBlock(sc: seq<int>, mn: seq<int>): (s: seq<U8>)
    requires |sc| == 8 == |mn| && Below(sc, 64) && Below(mn, 64)
    ensures |s| == 12
  {
    seq(12, i requires 0 <= i < 12 => ScaleByte(sc, mn, i))
  }

  lemma ScalesRoundTrip(sc: seq<int>, mn: seq<int>, j: nat)
    requires |sc| == 8 == |mn| && Below(sc, 64) && Below(mn, 64) && j < 8
    ensures ScaleOf(ScaleBlock(sc, mn), j) == sc[j] && MinOf(ScaleBlock(sc, mn), j) == mn[j]
  {
    if j < 4 {
      ScaleBytes(sc, mn, j);
    } else {
      ScaleBytes(sc, mn, j - 4);
      Euclid(sc[j], 16);
      Euclid(mn[j], 16);
    }
  }

  lemma NibbleRoundTrip(d: U16, dmin: U16, sc: seq<int>, mn: seq<int>, w: seq<int>, e: nat)
    requires |sc| == 8 == |mn| && Below(sc, 64) && Below(mn, 64) && |w| == 256 && Below(w, 16) && e < 256
    ensures Nibble(Pack4(d, dmin, sc, mn, w), e) == w[e]
  {
    var i := (e / 64) * 32 + e % 32;
    assert i / 32 == e / 64 && i % 32 == e % 32;
  }

  /** Packing and decoding give back every scale, minimum and weight. */
  lemma Decode4(d: U16, dmin: U16, sc: seq<int>, mn: seq<int>, w: seq<int>)
    requires |sc| == 8 == |mn| && Below(sc, 64) && Below(mn, 64) && |w| == 256 && Below(w, 16)
    ensures var b := Pack4(d, dmin, sc, mn, w); Scales(b) == sc && Mins(b) == mn && Weights(b) == w
  {
    forall j: nat | j < 8 ensures Scales(Pack4(d, dmin, sc, mn, w))[j] == sc[j] { ScalesRoundTrip(sc, mn, j); }
    forall j: nat | j < 8 ensures Mins(Pack4(d, dmin, sc, mn, w))[j] == mn[j] { ScalesRoundTrip(sc, mn, j); }
    forall e: nat | e < 256 ensures Weights(Pack4(d, dmin, sc, mn, w))[e] == w[e] {
      NibbleRoundTrip(d, dmin, sc, mn, w, e);
    }
  }

  lemma ByteBack(b: Q4K, i: nat)
    requires Q4KOk(b) && i < 128
    ensures Weights(b)[(i / 32) * 64 + i % 32] + 16 * Weights(b)[(i / 32) * 64 + 32 + i % 32] == b.qs[i]
  {
    var c, r := i / 32, i % 32;
    var g, h := 2 * c, 2 * c + 1;
    assert g / 2 == c == h / 2 && g % 2 == 0 && h % 2 == 1 && 32 * g == 64 * c && 32 * h == 64 * c + 32;
    Euclid(i, 32);
    GroupNibble(b, g, r);
    GroupNibble(b, h, r);
    Euclid(b.qs[i], 16);
  }

  lemma ScalesBelow(b: Q4K)
    requires Q4KOk(b)
    ensures Below(Scales(b), 64) && Below(Mins(b), 64) && Below(Weights(b), 16)
  {}

  /** The decoded scales and minima of one byte's places. */
  lemma ScaleByteBack(s: seq<U8>, sc: seq<int>, mn: seq<int>, j: nat)
    requires |s| == 12 && |sc| == 8 == |mn| && Below(sc, 64) && Below(mn, 64) && j < 4
    requires sc[j] == ScaleOf(s, j) && sc[j + 4] == ScaleOf(s, j + 4)
    requires mn[j] == MinOf(s, j) && mn[j + 4] == MinOf(s, j + 4)
    ensures ScaleByte(sc, mn, j) == s[j] && ScaleByte(sc, mn, j + 4) == s[j + 4] && ScaleByte(sc, mn, j + 8) == s[j + 8]
  {
    Euclid(s[j], 64);
    Euclid(s[j + 4], 64);
    Euclid(s[j + 8], 16);
    DivModOf(sc[j + 4], s[j] / 64, 16, s[j + 8] % 16);
    DivModOf(mn[j + 4], s[j + 4] / 64, 16, s[j + 8] / 16);
  }

  lemma BlockByteBack(s: seq<U8>, sc: seq<int>, mn: seq<int>, i: nat)
    requires |s| == 12 && |sc| == 8 == |mn| && Below(sc, 64) && Below(mn, 64) && i < 12
    requires forall j :: 0 <= j < 8 ==> sc[j] == ScaleOf(s, j) && mn[j] == MinOf(s, j)
    ensures ScaleByte(sc, mn, i) == s[i]
  {
    ScaleByteBack(s, sc, mn, if i < 4 then i else if i < 8 then i - 4 else i - 8);
  }

  /** A block holds nothing but its two half floats and what the decoders read. */
  lemma Encode4(b: Q4K)
    requires Q4KOk(b)
    ensures Below(Scales(b), 64) && Below(Mins(b), 64) && Below(Weights(b), 16)
    ensures Pack4(b.d, b.dmin, Scales(b), Mins(b), Weights(b)) == b
  {
    ScalesBelow(b);
    var p := Pack4(b.d, b.dmin, Scales(b), Mins(b), Weights(b));
    forall i: nat | i < 12 ensures p.scales[i] == b.scales[i] { BlockByteBack(b.scales, Scales(b), Mins(b), i); }
    forall i: nat | i < 128 ensures p.qs[i] == b.qs[i] { ByteBack(b, i); }
  }

  // -------------------------------------------------------------------- q6_K

  /** Bytes of low bits: per half, spans 0 and 1 below spans 2 and 3. */
  function LowByte(w: seq<int>, i: nat): (r: U8)
    requires |w| == 256 && Below(w, 64) && i < 128
  {
    var lo := (i / 64) * 128 + i % 64;
    w[lo] % 16 + 16 * (w[lo + 64] % 16)
  }

  /** Bytes of high bits: per half, one byte for the same place of its four spans. */
  function HighByte(w: seq<int>, i: nat): (r: U8)
    requires |w| == 256 && Below(w, 64) && i < 64
  {
    var lo := (i / 32) * 128 + i % 32;
    w[lo] / 16 + 4 * (w[lo + 32] / 16) + 16 * (w[lo + 64] / 16) + 64 * (w[lo + 96] / 16)
  }

  function Pack6(scales: seq<int>, w: seq<int>): (b: Q6K)
    requires |scales| == 16 && Within(scales, 128) && |w| == 256 && Below(w, 64)
    ensures Q6KOk(b)
  {
    Q6K(seq(128, i requires 0 <= i < 128 => LowByte(w, i)), seq(64, i requires 0 <= i < 64 => HighByte(w, i)), scales)
  }

  lemma HighBits(x: int, a: int, b: int, c: int, d: int)
    requires 0 <= a < 4 && 0 <= b < 4 && 0 <= c < 4 && 0 <= d < 4 && x == a + 4 * b + 16 * c + 64 * d
    ensures x % 4 == a && (x / 4) % 4 == b && (x / 16) % 4 == c && x / 64 == d
  {
    DivModOf(x, b + 4 * c + 16 * d, 4, a);
    DivModOf(x / 4, c + 4 * d, 4, b);
    DivModOf(x, c + 4 * d, 16, a + 4 * b);
    DivModOf(x / 16, d, 4, c);
    DivModOf(x, d, 64, a + 4 * b + 16 * c);
  }

  /** The low and the high part of the weight at place j of span s of half h. */
  lemma LowRead(scales: seq<int>, w: seq<int>, h: nat, s: nat, j: nat)
    requires |scales| == 16 && Within(scales, 128) && |w| == 256 && Below(w, 64) && h < 2 && s < 4 && j < 32
    ensures var lb := Pack6(scales, w).ql[h * 64 + (s % 2) * 32 + j];
            (if s < 2 then lb % 16 else lb / 16) == w[128 * h + 32 * s + j] % 16
  {
    var p := (s % 2) * 32 + j;
    var lo := 128 * h + p;
    DivModOf(h * 64 + p, h, 64, p);
    assert Pack6(scales, w).ql[h * 64 + p] == LowByte(w, h * 64 + p);
    DivModOf(LowByte(w, h * 64 + p), w[lo + 64] % 16, 16, w[lo] % 16);
  }

  lemma HighRead(scales: seq<int>, w: seq<int>, h: nat, s: nat, j: nat)
    requires |scales| == 16 && Within(scales, 128) && |w| == 256 && Below(w, 64) && h < 2 && s < 4 && j < 32
    ensures (Pack6(scales, w).qh[h * 32 + j] / Pow4(s)) % 4 == w[128 * h + 32 * s + j] / 16
  {
    var lo, x := 128 * h + j, Pack6(scales, w).qh[h * 32 + j];
    DivModOf(h * 32 + j, h, 32, j);
    assert x == HighByte(w, h * 32 + j);
    HighBits(x, w[lo] / 16, w[lo + 32] / 16, w[lo + 64] / 16, w[lo + 96] / 16);
  }

  lemma SixRoundTrip(scales: seq<int>, w: seq<int>, h: nat, s: nat, j: nat)
    requires |scales| == 16 && Within(scales, 128) && |w| == 256 && Below(w, 64) && h < 2 && s < 4 && j < 32
    ensures SixBits(Pack6(scales, w), h, s, j) == w[128 * h + 32 * s + j]
  {
    LowRead(scales, w, h, s, j);
    HighRead(scales, w, h, s, j);
    Euclid(w[128 * h + 32 * s + j], 16);
  }

  lemma PlaceOf(e: nat) returns (h: nat, s: nat, j: nat)
    requires e < 256
    ensures h == e / 128 < 2 && s == (e / 32) % 4 && j == e % 32 && e == 128 * h + 32 * s + j
  {
    h, s, j := e / 128, (e / 32) % 4, e % 32;
    Euclid(e, 32);
    Euclid(e / 32, 4);
    DivModOf(e, (e / 32) / 4, 128, 32 * s + j);
  }

  /** Packing 256 weights of six bits and decoding gives them back. */
  lemma Decode6(scales: seq<int>, w: seq<int>)
    requires |scales| == 16 && Within(scales, 128) && |w| == 256 && Below(w, 64)
    ensures Weights6(Pack6(scales, w)) == w && Pack6(scales, w).scales == scales
  {
    forall e: nat | e < 256 ensures Weights6(Pack6(scales, w))[e] == w[e] {
      var h, s, j := PlaceOf(e);
      SixRoundTrip(scales, w, h, s, j);
    }
  }

  // -------------------------------------------------------------------- q5_0

  /** Low nibbles for the first half, high nibbles for the second, the fifth bits apart. */
  function Pack5(w: seq<int>): (b: Q50)
    requires |w| == 32 && Below(w, 32)
    ensures Q50Ok(b)
  {
    Q50(seq(32, j requires 0 <= j < 32 => w[j] >= 16),
        seq(16, j requires 0 <= j < 16 => w[j] % 16 + 16 * (w[16 + j] % 16)))
  }

  /** Packing 32 weights of five bits and decoding gives them back. */
  lemma Decode5(w: seq<int>)
    requires |w| == 32 && Below(w, 32)
    ensures Weights5(Pack5(w)) == w
  {
    forall j: nat | j < 32 ensures FiveBits(Pack5(w), j) == w[j] {}
  }

  /** A block of q5_0 is its weights. */
  lemma Encode5(b: Q50)
    requires Q50Ok(b)
    ensures Below(Weights5(b), 32) && Pack5(Weights5(b)) == b
  {
    forall j: nat | j < 32 ensures Pack5(Weights5(b)).qh[j] == b.qh[j] { assert Weights5(b)[j] == FiveBits(b, j); }
    forall j: nat | j < 16 ensures Pack5(Weights5(b)).qs[j] == b.qs[j] {
      assert Weights5(b)[j] == FiveBits(b, j) && Weights5(b)[16 + j] == FiveBits(b, 16 + j);
    }
  }
}
