/**
  The q4_K row kernels (src/runtime/kernels.h): packed, shadow, row-pair SMMLA
  and multi-column forms.  Float operations are arbitrary functions; every kernel does the same exact
  integer work and folds it with the same operations in the same order, so
  equality is exact.  Vector instructions are replaced by their integer
  definitions.
 */
module Kernels {
  import opened Arithmetic
  import opened Quants

  /** A float: a number, or a pattern that is none.  What the operations make of it is left open. */
  datatype F = Number(v: real) | Special(bits: int)

  datatype Ops = Ops(zero: F, half: int -> F, ofInt: int -> F, neg: F -> F, mul: (F, F) -> F, add: (F, F) -> F,
                     fma: (F, F, F) -> F)

  /** A q8_K activation superblock with its float scale. */
  datatype Column = Column(d: F, act: Act)

  predicate RowOk(row: seq<Q4K>) { forall i :: 0 <= i < |row| ==> Q4KOk(row[i]) }

  predicate ColOk(col: seq<Column>) { forall i :: 0 <= i < |col| ==> ActOk(col[i].act) }

  // --------------------------------------------------------- float reference

  /** One superblock's two folds into accumulator sb mod 4. */
  function Fold1(o: Ops, a: seq<F>, sb: nat, d: F, dmin: F, dk: F, terms: (int, int)): (r: seq<F>)
    requires |a| == 4
    ensures |r| == 4
  {
    var k := sb % 4;
    var once := o.fma(o.mul(d, dk), o.ofInt(terms.0), a[k]);
    a[k := o.fma(o.neg(o.mul(dmin, dk)), o.ofInt(terms.1), once)]
  }

  function Fold4(o: Ops, a: seq<F>): F
    requires |a| == 4
  {
    o.add(o.add(a[0], a[1]), o.add(a[2], a[3]))
  }

  /** The four accumulators after the first n superblocks. */
  function Accs(o: Ops, row: seq<Q4K>, col: seq<Column>, n: nat): (a: seq<F>)
    requires n <= |row| && n <= |col| && RowOk(row) && ColOk(col)
    ensures |a| == 4
  {
    if n == 0 then [o.zero, o.zero, o.zero, o.zero]
    else
      var b, x := row[n - 1], col[n - 1];
      Fold1(o, Accs(o, row, col, n - 1), n - 1, o.half(b.d), o.half(b.dmin), x.d, Terms(b, x.act))
  }

  lemma AccStep(o: Ops, row: seq<Q4K>, col: seq<Column>, a: seq<F>, n: nat, terms: (int, int))
    requires n < |row| && AccsAre(o, row, col, a, n) && terms == Terms(row[n], col[n].act)
    ensures AccsAre(o, row, col, Fold1(o, a, n, o.half(row[n].d), o.half(row[n].dmin), col[n].d, terms), n + 1)
  {}

  /** The value every q4_K kernel returns for one row and one column. */
  function RowDot(o: Ops, row: seq<Q4K>, col: seq<Column>): F
    requires |row| == |col| && RowOk(row) && ColOk(col)
  {
    Fold4(o, Accs(o, row, col, |row|))
  }

  /** a holds the accumulators after n superblocks. */
  ghost predicate AccsAre(o: Ops, row: seq<Q4K>, col: seq<Column>, a: seq<F>, n: nat) {
    n <= |row| == |col| && RowOk(row) && ColOk(col) && a == Accs(o, row, col, n)
  }

  lemma AccsStart(o: Ops, row: seq<Q4K>, col: seq<Column>)
    requires |row| == |col| && RowOk(row) && ColOk(col)
    ensures AccsAre(o, row, col, [o.zero, o.zero, o.zero, o.zero], 0)
  {}

  /** fl_dot_i8k_q4_K: the scalar reference over packed bytes. */
  method DotPacked(o: Ops, row: seq<Q4K>, col: seq<Column>) returns (v: F)
    requires |row| == |col| && RowOk(row) && ColOk(col)
    ensures v == RowDot(o, row, col)
  {
    var a := [o.zero, o.zero, o.zero, o.zero];
    AccsStart(o, row, col);
    for sb: nat := 0 to |row|
      invariant AccsAre(o, row, col, a, sb)
    {
      var iacc, imins := PackedTerms(row[sb], col[sb].act);
      AccStep(o, row, col, a, sb, (iacc, imins));
      a := Fold1(o, a, sb, o.half(row[sb].d), o.half(row[sb].dmin), col[sb].d, (iacc, imins));
    }
    v := Fold4(o, a);
  }

  // ------------------------------------------------------------ SDOT kernels

  /** vdotq_s32: lane k gains the dot of its four byte pairs. */
  function Sdot(acc: seq<int>, w: seq<int>, x: seq<int>): (r: seq<int>)
    requires |acc| == 4 && |w| == 16 == |x|
    ensures |r| == 4
  {
    seq(4, k requires 0 <= k < 4 => acc[k] + Dot(w, x, 4 * k, 4))
  }

  /** vaddvq_s32. */
  function Lanes(acc: seq<int>): int
    requires |acc| == 4
  {
    acc[0] + acc[1] + acc[2] + acc[3]
  }

  /** Two SDOTs and a lane sum are one 32-element dot. */
  lemma TwoSdots(w: seq<int>, x: seq<int>, lo: nat)
    requires lo + 32 <= |w| && lo + 32 <= |x|
    ensures var first := Sdot([0, 0, 0, 0], w[lo..lo + 16], x[lo..lo + 16]);
            Lanes(Sdot(first, w[lo + 16..lo + 32], x[lo + 16..lo + 32])) == Dot(w, x, lo, 32)
  {
    OneSdot(w, x, lo);
    OneSdot(w, x, lo + 16);
    DotSplit(w, x, lo, 16, 16);
  }

  lemma OneSdot(w: seq<int>, x: seq<int>, lo: nat)
    requires lo + 16 <= |w| && lo + 16 <= |x|
    ensures var a, b := w[lo..lo + 16], x[lo..lo + 16];
            Dot(a, b, 0, 4) + Dot(a, b, 4, 4) + Dot(a, b, 8, 4) + Dot(a, b, 12, 4) == Dot(w, x, lo, 16)
  {
    var a, b := w[lo..lo + 16], x[lo..lo + 16];
    DotSplit(a, b, 0, 4, 4);
    DotSplit(a, b, 0, 8, 4);
    DotSplit(a, b, 0, 12, 4);
    DotSame(a, b, 0, w, x, lo, 16);
  }

  /** The 64-element chunk loop over unpacked weights: two groups a time. */
  method ChunkTerms(sc: seq<int>, mn: seq<int>, w: seq<int>, x: Act) returns (iacc: int, imins: int)
    requires |sc| == 8 == |mn| && |w| == 256 && |x.qs| == 256 && |x.bsums| == 16
    ensures iacc == FullAcc(sc, w, x.qs) && imins == FullMins(mn, x.bsums)
  {
    iacc, imins := 0, 0;
    for c: nat := 0 to 4
      invariant iacc == IAcc(sc, w, x.qs, 2 * c) && imins == IMins(mn, x.bsums, 2 * c)
    {
      var ilo := GroupSdot(w, x.qs, 64 * c);
      var ihi := GroupSdot(w, x.qs, 64 * c + 32);
      PairOfGroups(sc, mn, w, x, c);
      iacc := iacc + (sc[2 * c] * ilo + sc[2 * c + 1] * ihi);
      imins := imins + (mn[2 * c] * (x.bsums[4 * c] + x.bsums[4 * c + 1])
                        + mn[2 * c + 1] * (x.bsums[4 * c + 2] + x.bsums[4 * c + 3]));
    }
  }

  /** vaddvq(vdotq(vdotq(0, w0, x0), w1, x1)). */
  method GroupSdot(w: seq<int>, x: seq<int>, lo: nat) returns (r: int)
    requires lo + 32 <= |w| && lo + 32 <= |x|
    ensures r == Dot(w, x, lo, 32)
  {
    TwoSdots(w, x, lo);
    r := Lanes(Sdot(Sdot([0, 0, 0, 0], w[lo..lo + 16], x[lo..lo + 16]), w[lo + 16..lo + 32], x[lo + 16..lo + 32]));
  }

  lemma PairOfGroups(sc: seq<int>, mn: seq<int>, w: seq<int>, x: Act, c: nat)
    requires |sc| == 8 == |mn| && |w| == 256 && |x.qs| == 256 && |x.bsums| == 16 && c < 4
    ensures IAcc(sc, w, x.qs, 2 * c + 2) ==
            IAcc(sc, w, x.qs, 2 * c)
            + (sc[2 * c] * Dot(w, x.qs, 64 * c, 32) + sc[2 * c + 1] * Dot(w, x.qs, 64 * c + 32, 32))
    ensures IMins(mn, x.bsums, 2 * c + 2) ==
            IMins(mn, x.bsums, 2 * c)
            + (mn[2 * c] * (x.bsums[4 * c] + x.bsums[4 * c + 1])
               + mn[2 * c + 1] * (x.bsums[4 * c + 2] + x.bsums[4 * c + 3]))
  {
    var g, h := 2 * c, 2 * c + 1;
    NextGroup(sc, mn, w, x, g);
    NextGroup(sc, mn, w, x, h);
    assert 32 * g == 64 * c && 32 * h == 64 * c + 32 && 2 * g == 4 * c && 2 * h == 4 * c + 2;
  }

  lemma NextGroup(sc: seq<int>, mn: seq<int>, w: seq<int>, x: Act, g: nat)
    requires |sc| == 8 == |mn| && |w| == 256 && |x.qs| == 256 && |x.bsums| == 16 && g < 8
    ensures IAcc(sc, w, x.qs, g + 1) == IAcc(sc, w, x.qs, g) + sc[g] * Dot(w, x.qs, 32 * g, 32)
    ensures IMins(mn, x.bsums, g + 1) == IMins(mn, x.bsums, g) + mn[g] * (x.bsums[2 * g] + x.bsums[2 * g + 1])
  {}

  /** Unpacks 64 elements at a time: 32 low nibbles, then 32 high nibbles of the same bytes. */
  method Unpack(b: Q4K) returns (w: seq<int>)
    requires Q4KOk(b)
    ensures w == Weights(b)
  {
    w := [];
    for c: nat := 0 to 4
      invariant w == Weights(b)[..64 * c]
    {
      var q := b.qs[32 * c..32 * c + 32];
      var lo := seq(32, i requires 0 <= i < 32 => q[i] % 16);
      var hi := seq(32, i requires 0 <= i < 32 => q[i] / 16);
      ChunkWeights(b, c, lo, hi);
      w := w + (lo + hi);
    }
    assert Weights(b)[..256] == Weights(b);
  }

  lemma ChunkWeights(b: Q4K, c: nat, lo: seq<int>, hi: seq<int>)
    requires Q4KOk(b) && c < 4 && |lo| == 32 == |hi|
    requires forall i :: 0 <= i < 32 ==> lo[i] == b.qs[32 * c + i] % 16 && hi[i] == b.qs[32 * c + i] / 16
    ensures Weights(b)[..64 * c] + (lo + hi) == Weights(b)[..64 * (c + 1)]
  {
    var s := Weights(b)[..64 * c] + (lo + hi);
    forall e: nat | e < |s| ensures s[e] == Weights(b)[e] {
      if 64 * c <= e {
        var i := e - 64 * c;
        if i < 32 { GroupNibble(b, 2 * c, i); } else { GroupNibble(b, 2 * c + 1, i - 32); }
      }
    }
  }

  /** dot_i8k_q4_K_neon. */
  method DotNeon(o: Ops, row: seq<Q4K>, col: seq<Column>) returns (v: F)
    requires |row| == |col| && RowOk(row) && ColOk(col)
    ensures v == RowDot(o, row, col)
  {
    var a := [o.zero, o.zero, o.zero, o.zero];
    AccsStart(o, row, col);
    for sb: nat := 0 to |row|
      invariant AccsAre(o, row, col, a, sb)
    {
      var iacc, imins := NeonTerms(row[sb], col[sb].act);
      AccStep(o, row, col, a, sb, (iacc, imins));
      a := Fold1(o, a, sb, o.half(row[sb].d), o.half(row[sb].dmin), col[sb].d, (iacc, imins));
    }
    v := Fold4(o, a);
  }

  method NeonTerms(b: Q4K, x: Act) returns (iacc: int, imins: int)
    requires Q4KOk(b) && ActOk(x)
    ensures (iacc, imins) == Terms(b, x)
  {
    var sc, mn := ScalesAll(b.scales);
    assert sc == Scales(b) && mn == Mins(b);
    var w := Unpack(b);
    iacc, imins := ChunkTerms(sc, mn, w, x);
  }

  /**
    The vector kernels accumulate these very values: group sums (the loops'
    invariants), and inside a group lanes that are dots of at most 32 elements.
    All of them, and one chunk's two scaled terms, stay inside 32 bits.
   */
  lemma VectorAccumulatorsFit(b: Q4K, x: Act, g: nat, lo: nat, n: nat)
    requires Q4KOk(b) && ActOk(x) && g <= 8 && n <= 32 && lo + n <= 256
    ensures Fits32(IAcc(Scales(b), Weights(b), x.qs, g)) && Fits32(IMins(Mins(b), x.bsums, g))
    ensures Fits32(Dot(Weights(b), x.qs, lo, n))
    ensures forall c :: 0 <= c < 4 ==> Fits32(ChunkTerm(b, x, c)) && Fits32(ChunkMin(b, x, c))
  {
    var sc, mn, w := Scales(b), Mins(b), Weights(b);
    BsumsBound(x);
    TermsBound(sc, w, x.qs, g);
    MinsBound(mn, x.bsums, g);
    DotBound(w, x.qs, lo, n, 15, Q8_MAX);
    TimesMono(n, 32, 15 * Q8_MAX);
    forall c | 0 <= c < 4 ensures Fits32(ChunkTerm(b, x, c)) && Fits32(ChunkMin(b, x, c)) { ChunkFits(b, x, c); }
  }

  predicate Fits32(v: int) { -0x8000_0000 <= v < 0x8000_0000 }

  /** What one 64-element chunk adds to an accumulator. */
  function ChunkTerm(b: Q4K, x: Act, c: nat): int
    requires Q4KOk(b) && |x.qs| == 256 && c < 4
  {
    var sc, w := Scales(b), Weights(b);
    sc[2 * c] * Dot(w, x.qs, 64 * c, 32) + sc[2 * c + 1] * Dot(w, x.qs, 64 * c + 32, 32)
  }

  function ChunkMin(b: Q4K, x: Act, c: nat): int
    requires Q4KOk(b) && |x.bsums| == 16 && c < 4
  {
    var mn := Mins(b);
    mn[2 * c] * (x.bsums[4 * c] + x.bsums[4 * c + 1]) + mn[2 * c + 1] * (x.bsums[4 * c + 2] + x.bsums[4 * c + 3])
  }

  lemma ChunkFits(b: Q4K, x: Act, c: nat)
    requires Q4KOk(b) && ActOk(x) && c < 4
    ensures Fits32(ChunkTerm(b, x, c)) && Fits32(ChunkMin(b, x, c))
  {
    var sc, mn, w := Scales(b), Mins(b), Weights(b);
    BsumsBound(x);
    DotBound(w, x.qs, 64 * c, 32, 15, Q8_MAX);
    DotBound(w, x.qs, 64 * c + 32, 32, 15, Q8_MAX);
    ProductBound(sc[2 * c], Dot(w, x.qs, 64 * c, 32), 63, GROUP_DOT);
    ProductBound(sc[2 * c + 1], Dot(w, x.qs, 64 * c + 32, 32), 63, GROUP_DOT);
    ProductBound(mn[2 * c], x.bsums[4 * c] + x.bsums[4 * c + 1], 63, GROUP_MIN);
    ProductBound(mn[2 * c + 1], x.bsums[4 * c + 2] + x.bsums[4 * c + 3], 63, GROUP_MIN);
  }

  // ---------------------------------------------------- multi-column kernels

  /** A column's accumulators after the first g groups. */
  ghost predicate Partial(sc: seq<int>, mn: seq<int>, w: seq<int>, x: Act, g: nat, iacc: int, imins: int)
    requires |sc| == 8 == |mn| && |w| == 256 && g <= 8
  {
    ActOk(x) && iacc == IAcc(sc, w, x.qs, g) && imins == IMins(mn, x.bsums, g)
  }

  predicate HasTerms(b: Q4K, x: Act, iacc: int, imins: int)
    requires Q4KOk(b)
  {
    ActOk(x) && (iacc, imins) == Terms(b, x)
  }

  /** Unpack once, then every column: chunk loop outside, column loop inside. */
  method McTerms(b: Q4K, xs: seq<Act>) returns (iacc: seq<int>, imins: seq<int>)
    requires Q4KOk(b) && forall p :: 0 <= p < |xs| ==> ActOk(xs[p])
    ensures |iacc| == |xs| == |imins| && forall p :: 0 <= p < |xs| ==> HasTerms(b, xs[p], iacc[p], imins[p])
  {
    var sc, mn := ScalesAll(b.scales);
    assert sc == Scales(b) && mn == Mins(b);
    var w := Unpack(b);
    iacc, imins := seq(|xs|, p => 0), seq(|xs|, p => 0);
    for c: nat := 0 to 4
      invariant |iacc| == |xs| == |imins|
      invariant forall p :: 0 <= p < |xs| ==> Partial(sc, mn, w, xs[p], 2 * c, iacc[p], imins[p])
    {
      iacc, imins := McChunk(sc, mn, w, xs, c, iacc, imins);
    }
    forall p | 0 <= p < |xs| ensures HasTerms(b, xs[p], iacc[p], imins[p]) {
      assert Partial(sc, mn, w, xs[p], |sc|, iacc[p], imins[p]);
    }
  }

  method McChunk(sc: seq<int>, mn: seq<int>, w: seq<int>, xs: seq<Act>, c: nat, iacc0: seq<int>, imins0: seq<int>)
    returns (iacc: seq<int>, imins: seq<int>)
    requires |sc| == 8 == |mn| && |w| == 256 && c < 4 && |iacc0| == |xs| == |imins0|
    requires forall p :: 0 <= p < |xs| ==> Partial(sc, mn, w, xs[p], 2 * c, iacc0[p], imins0[p])
    ensures |iacc| == |xs| == |imins|
    ensures forall p :: 0 <= p < |xs| ==> Partial(sc, mn, w, xs[p], 2 * c + 2, iacc[p], imins[p])
  {
    iacc, imins := iacc0, imins0;
    for p: nat := 0 to |xs|
      invariant |iacc| == |xs| == |imins|
      invariant forall q :: 0 <= q < p ==> Partial(sc, mn, w, xs[q], 2 * c + 2, iacc[q], imins[q])
      invariant forall q :: p <= q < |xs| ==> iacc[q] == iacc0[q] && imins[q] == imins0[q]
    {
      var x := xs[p];
      assert Partial(sc, mn, w, x, 2 * c, iacc0[p], imins0[p]);
      var ilo := GroupSdot(w, x.qs, 64 * c);
      var ihi := GroupSdot(w, x.qs, 64 * c + 32);
      PairOfGroups(sc, mn, w, x, c);
      iacc := iacc[p := iacc[p] + (sc[2 * c] * ilo + sc[2 * c + 1] * ihi)];
      imins := imins[p := imins[p]
                 + (mn[2 * c] * (x.bsums[4 * c] + x.bsums[4 * c + 1])
                    + mn[2 * c + 1] * (x.bsums[4 * c + 2] + x.bsums[4 * c + 3]))];
    }
  }

  predicate ColsOk(cols: seq<seq<Column>>, n: nat) { forall p :: 0 <= p < |cols| ==> |cols[p]| == n && ColOk(cols[p]) }

  /** The activation superblocks sb of all columns. */
  function Slice(cols: seq<seq<Column>>, n: nat, sb: nat): (xs: seq<Act>)
    requires ColsOk(cols, n) && sb < n
    ensures |xs| == |cols| && forall p :: 0 <= p < |xs| ==> xs[p] == cols[p][sb].act && ActOk(xs[p])
  {
    seq(|cols|, p requires 0 <= p < |cols| => cols[p][sb].act)
  }

  ghost predicate AllAccs(o: Ops, row: seq<Q4K>, cols: seq<seq<Column>>, a: seq<seq<F>>, n: nat)
    requires RowOk(row) && ColsOk(cols, |row|) && n <= |row|
  {
    |a| == |cols| && forall p :: 0 <= p < |cols| ==> AccsAre(o, row, cols[p], a[p], n)
  }

  /** The per-column folds of one superblock. */
  method FoldColumns(o: Ops, row: seq<Q4K>, cols: seq<seq<Column>>, a0: seq<seq<F>>, sb: nat, iacc: seq<int>,
                     imins: seq<int>)
    returns (a: seq<seq<F>>)
    requires RowOk(row) && ColsOk(cols, |row|) && sb < |row| && AllAccs(o, row, cols, a0, sb)
    requires |iacc| == |cols| == |imins| && forall p :: 0 <= p < |cols| ==>
      HasTerms(row[sb], cols[p][sb].act, iacc[p], imins[p])
    ensures AllAccs(o, row, cols, a, sb + 1)
  {
    a := [];
    for p: nat := 0 to |cols|
      invariant |a| == p && forall q :: 0 <= q < p ==> AccsAre(o, row, cols[q], a[q], sb + 1)
    {
      AccStep(o, row, cols[p], a0[p], sb, (iacc[p], imins[p]));
      a := a + [Fold1(o, a0[p], sb, o.half(row[sb].d), o.half(row[sb].dmin), cols[p][sb].d, (iacc[p], imins[p]))];
    }
  }

  /** out holds one single-column result per column. */
  ghost predicate AreDots(o: Ops, row: seq<Q4K>, cols: seq<seq<Column>>, out: seq<F>)
    requires RowOk(row) && ColsOk(cols, |row|)
  {
    |out| == |cols| && forall p :: 0 <= p < |cols| ==> out[p] == RowDot(o, row, cols[p])
  }

  method Finish(o: Ops, row: seq<Q4K>, cols: seq<seq<Column>>, a: seq<seq<F>>) returns (out: seq<F>)
    requires RowOk(row) && ColsOk(cols, |row|) && AllAccs(o, row, cols, a, |row|)
    ensures AreDots(o, row, cols, out)
  {
    out := [];
    for p: nat := 0 to |cols|
      invariant |out| == p && forall q :: 0 <= q < p ==> out[q] == RowDot(o, row, cols[q])
    {
      out := out + [Fold4(o, a[p])];
    }
  }

  function Zeros(o: Ops, n: nat): seq<seq<F>> { seq(n, p => [o.zero, o.zero, o.zero, o.zero]) }

  lemma ZerosStart(o: Ops, row: seq<Q4K>, cols: seq<seq<Column>>)
    requires RowOk(row) && ColsOk(cols, |row|)
    ensures AllAccs(o, row, cols, Zeros(o, |cols|), 0)
  {
    forall p | 0 <= p < |cols| ensures AccsAre(o, row, cols[p], [o.zero, o.zero, o.zero, o.zero], 0) {
      AccsStart(o, row, cols[p]);
    }
  }

  /** dot_i8k_q4_K_neon_mc: one unpack, nx single-column results. */
  method DotMc(o: Ops, row: seq<Q4K>, cols: seq<seq<Column>>) returns (out: seq<F>)
    requires RowOk(row) && ColsOk(cols, |row|)
    ensures AreDots(o, row, cols, out)
  {
    var a := Zeros(o, |cols|);
    ZerosStart(o, row, cols);
    for sb: nat := 0 to |row|
      invariant AllAccs(o, row, cols, a, sb)
    {
      var iacc, imins := McTerms(row[sb], Slice(cols, |row|, sb));
      a := FoldColumns(o, row, cols, a, sb, iacc, imins);
    }
    out := Finish(o, row, cols, a);
  }

  // ------------------------------------------------------------------- SMMLA

  /** vmmlaq_s32: (2 x 8) times (8 x 2); lanes r0c0, r0c1, r1c0, r1c1. */
  function Mmla(acc: seq<int>, a: seq<int>, b: seq<int>): (r: seq<int>)
    requires |acc| == 4 && |a| == 16 == |b|
    ensures |r| == 4
  {
    [acc[0] + Dot(a[..8], b[..8], 0, 8), acc[1] + Dot(a[..8], b[8..], 0, 8),
     acc[2] + Dot(a[8..], b[..8], 0, 8), acc[3] + Dot(a[8..], b[8..], 0, 8)]
  }

  /** The four lanes hold the four dots of the first n elements from lo. */
  ghost predicate LanesAre(acc: seq<int>, w0: seq<int>, w1: seq<int>, xa: seq<int>, xb: seq<int>, lo: nat, n: nat)
    requires lo + n <= 256 && |w0| == |w1| == |xa| == |xb| == 256
  {
    && |acc| == 4 && acc[0] == Dot(w0, xa, lo, n) && acc[1] == Dot(w0, xb, lo, n)
    && acc[2] == Dot(w1, xa, lo, n) && acc[3] == Dot(w1, xb, lo, n)
  }

  lemma EightMore(w: seq<int>, x: seq<int>, lo: nat, n: nat, a: seq<int>, b: seq<int>)
    requires lo + n + 8 <= |w| && lo + n + 8 <= |x| && a == w[lo + n..lo + n + 8] && b == x[lo + n..lo + n + 8]
    ensures Dot(w, x, lo, n + 8) == Dot(w, x, lo, n) + Dot(a, b, 0, 8)
  {
    DotSplit(w, x, lo, n, 8);
    assert a[0..8] == a && b[0..8] == b;
    DotSame(a, b, 0, w, x, lo + n, 8);
  }

  /** One MMLA adds eight elements to all four dots. */
  lemma MmlaStep(acc: seq<int>, w0: seq<int>, w1: seq<int>, xa: seq<int>, xb: seq<int>, lo: nat, n: nat, a: seq<int>,
                 b: seq<int>)
    requires lo + n + 8 <= 256 && |w0| == |w1| == |xa| == |xb| == 256 && LanesAre(acc, w0, w1, xa, xb, lo, n)
    requires a == w0[lo + n..lo + n + 8] + w1[lo + n..lo + n + 8]
      && b == xa[lo + n..lo + n + 8] + xb[lo + n..lo + n + 8]
    ensures LanesAre(Mmla(acc, a, b), w0, w1, xa, xb, lo, n + 8)
  {
    assert a[..8] == w0[lo + n..lo + n + 8] && a[8..] == w1[lo + n..lo + n + 8];
    assert b[..8] == xa[lo + n..lo + n + 8] && b[8..] == xb[lo + n..lo + n + 8];
    EightMore(w0, xa, lo, n, a[..8], b[..8]);
    EightMore(w0, xb, lo, n, a[..8], b[8..]);
    EightMore(w1, xa, lo, n, a[8..], b[..8]);
    EightMore(w1, xb, lo, n, a[8..], b[8..]);
  }

  /** Two 256-element vectors as 32 alternating 8-byte groups. */
  function Woven(u: seq<int>, v: seq<int>): (r: seq<int>)
    requires |u| == 256 == |v|
    ensures |r| == 512
  {
    seq(512, i requires 0 <= i < 512 => if i % 16 < 8 then u[(i / 16) * 8 + i % 16] else v[(i / 16) * 8 + i % 16 - 8])
  }

  lemma WovenAt(u: seq<int>, v: seq<int>, k: nat, i: nat)
    requires |u| == 256 == |v| && k < 32 && i < 16
    ensures Woven(u, v)[16 * k + i] == if i < 8 then u[8 * k + i] else v[8 * k + i - 8]
  {
    assert (16 * k + i) / 16 == k && (16 * k + i) % 16 == i;
  }

  lemma WovenGroup(u: seq<int>, v: seq<int>, k: nat)
    requires |u| == 256 == |v| && k < 32
    ensures Woven(u, v)[16 * k..16 * k + 16] == u[8 * k..8 * k + 8] + v[8 * k..8 * k + 8]
  {
    var a, b := Woven(u, v)[16 * k..16 * k + 16], u[8 * k..8 * k + 8] + v[8 * k..8 * k + 8];
    forall i: nat | i < 16 ensures a[i] == b[i] { WovenAt(u, v, k, i); }
  }

  /** fl_interleave_act_q8k, one superblock of one column pair: 32 pairs of 8-byte copies. */
  method Interleave(u: seq<int>, v: seq<int>) returns (r: seq<int>)
    requires |u| == 256 == |v|
    ensures r == Woven(u, v)
  {
    r := [];
    for g: nat := 0 to 32
      invariant r == Woven(u, v)[..16 * g]
    {
      WovenGroup(u, v, g);
      assert Woven(u, v)[..16 * (g + 1)] == Woven(u, v)[..16 * g] + Woven(u, v)[16 * g..16 * g + 16];
      r := r + (u[8 * g..8 * g + 8] + v[8 * g..8 * g + 8]);
    }
    assert Woven(u, v)[..512] == Woven(u, v);
  }

  /** Four MMLAs over woven operands: a 32-element group of two rows against two columns. */
  method MmlaGroup(aw: seq<int>, bw: seq<int>, g: nat, ghost w0: seq<int>, ghost w1: seq<int>, ghost xa: seq<int>,
                   ghost xb: seq<int>)
    returns (acc: seq<int>)
    requires |w0| == |w1| == |xa| == |xb| == 256 && g < 8 && aw == Woven(w0, w1) && bw == Woven(xa, xb)
    ensures LanesAre(acc, w0, w1, xa, xb, 32 * g, 32)
  {
    acc := [0, 0, 0, 0];
    for k: nat := 0 to 4
      invariant LanesAre(acc, w0, w1, xa, xb, 32 * g, 8 * k)
    {
      var i := 16 * (g * 4 + k);
      WovenGroup(w0, w1, g * 4 + k);
      WovenGroup(xa, xb, g * 4 + k);
      MmlaStep(acc, w0, w1, xa, xb, 32 * g, 8 * k, aw[i..i + 16], bw[i..i + 16]);
      acc := Mmla(acc, aw[i..i + 16], bw[i..i + 16]);
    }
  }

  /** Both rows' accumulators of all columns after the first g groups. */
  ghost predicate Partials(sc: seq<int>, mn: seq<int>, w: seq<int>, xs: seq<Act>, g: nat, lo: nat, hi: nat,
                           iacc: seq<int>, imins: seq<int>)
    requires |sc| == 8 == |mn| && |w| == 256 && g <= 8
  {
    && |iacc| == |xs| == |imins| && lo <= hi <= |xs|
    && forall p :: lo <= p < hi ==> Partial(sc, mn, w, xs[p], g, iacc[p], imins[p])
  }

  ghost predicate RowPartials(b: Q4K, xs: seq<Act>, g: nat, iacc: seq<int>, imins: seq<int>)
    requires Q4KOk(b) && g <= 8
  {
    Partials(Scales(b), Mins(b), Weights(b), xs, g, 0, |xs|, iacc, imins)
  }

  /** Chunk c of one row against the columns 2cp and 2cp + 1, from the lanes of the two groups. */
  method AddPair(sc: seq<int>, mn: seq<int>, w: seq<int>, xs: seq<Act>, c: nat, cp: nat,
                 lo0: int, hi0: int, lo1: int, hi1: int, iacc0: seq<int>, imins0: seq<int>)
    returns (iacc: seq<int>, imins: seq<int>)
    requires |sc| == 8 == |mn| && |w| == 256 && c < 4 && 2 * cp + 1 < |xs|
    requires Partials(sc, mn, w, xs, 2 * c + 2, 0, 2 * cp, iacc0, imins0)
      && Partials(sc, mn, w, xs, 2 * c, 2 * cp, |xs|, iacc0, imins0)
    requires ActOk(xs[2 * cp]) && ActOk(xs[2 * cp + 1])
    requires lo0 == Dot(w, xs[2 * cp].qs, 64 * c, 32) && hi0 == Dot(w, xs[2 * cp].qs, 64 * c + 32, 32)
    requires lo1 == Dot(w, xs[2 * cp + 1].qs, 64 * c, 32) && hi1 == Dot(w, xs[2 * cp + 1].qs, 64 * c + 32, 32)
    ensures Partials(sc, mn, w, xs, 2 * c + 2, 0, 2 * cp + 2, iacc, imins)
      && Partials(sc, mn, w, xs, 2 * c, 2 * cp + 2, |xs|, iacc, imins)
  {
    var pa, pb := 2 * cp, 2 * cp + 1;
    var a, b := xs[pa], xs[pb];
    PairOfGroups(sc, mn, w, a, c);
    PairOfGroups(sc, mn, w, b, c);
    assert Partial(sc, mn, w, a, 2 * c, iacc0[pa], imins0[pa]) && Partial(sc, mn, w, b, 2 * c, iacc0[pb], imins0[pb]);
    iacc := iacc0[pa := iacc0[pa] + (sc[2 * c] * lo0 + sc[2 * c + 1] * hi0)]
                 [pb := iacc0[pb] + (sc[2 * c] * lo1 + sc[2 * c + 1] * hi1)];
    var ma := mn[2 * c] * (a.bsums[4 * c] + a.bsums[4 * c + 1])
              + mn[2 * c + 1] * (a.bsums[4 * c + 2] + a.bsums[4 * c + 3]);
    var mb := mn[2 * c] * (b.bsums[4 * c] + b.bsums[4 * c + 1])
              + mn[2 * c + 1] * (b.bsums[4 * c + 2] + b.bsums[4 * c + 3]);
    imins := imins0[pa := imins0[pa] + ma][pb := imins0[pb] + mb];
    assert Partial(sc, mn, w, a, 2 * c + 2, iacc[pa], imins[pa])
        && Partial(sc, mn, w, b, 2 * c + 2, iacc[pb], imins[pb]);
    forall p | 0 <= p < 2 * cp + 2 ensures Partial(sc, mn, w, xs[p], 2 * c + 2, iacc[p], imins[p]) {
      if p < pa { assert Partial(sc, mn, w, xs[p], 2 * c + 2, iacc0[p], imins0[p]); }
    }
    forall p | 2 * cp + 2 <= p < |xs| ensures Partial(sc, mn, w, xs[p], 2 * c, iacc[p], imins[p]) {
      assert Partial(sc, mn, w, xs[p], 2 * c, iacc0[p], imins0[p]);
    }
  }

  /** Interleaved activations of one superblock, one plane per column pair. */
  predicate PlanesOk(xs: seq<Act>, planes: seq<seq<int>>) {
    |xs| == 2 * |planes| && (forall p :: 0 <= p < |xs| ==> ActOk(xs[p]))
    && forall cp :: 0 <= cp < |planes| ==> planes[cp] == Woven(xs[2 * cp].qs, xs[2 * cp + 1].qs)
  }

  /** Chunk c of a row pair against all column pairs. */
  method SmmlaChunk(b0: Q4K, b1: Q4K, aw: seq<int>, xs: seq<Act>, planes: seq<seq<int>>, c: nat,
                    i0: seq<int>, m0: seq<int>, i1: seq<int>, m1: seq<int>)
    returns (i0': seq<int>, m0': seq<int>, i1': seq<int>, m1': seq<int>)
    requires Q4KOk(b0) && Q4KOk(b1) && PlanesOk(xs, planes) && c < 4 && aw == Woven(Weights(b0), Weights(b1))
    requires RowPartials(b0, xs, 2 * c, i0, m0) && RowPartials(b1, xs, 2 * c, i1, m1)
    ensures RowPartials(b0, xs, 2 * c + 2, i0', m0') && RowPartials(b1, xs, 2 * c + 2, i1', m1')
  {
    i0', m0', i1', m1' := i0, m0, i1, m1;
    var sc0, mn0, sc1, mn1 := Scales(b0), Mins(b0), Scales(b1), Mins(b1);
    var w0, w1 := Weights(b0), Weights(b1);
    for cp: nat := 0 to |planes|
      invariant Partials(sc0, mn0, w0, xs, 2 * c + 2, 0, 2 * cp, i0', m0')
        && Partials(sc0, mn0, w0, xs, 2 * c, 2 * cp, |xs|, i0', m0')
      invariant Partials(sc1, mn1, w1, xs, 2 * c + 2, 0, 2 * cp, i1', m1')
        && Partials(sc1, mn1, w1, xs, 2 * c, 2 * cp, |xs|, i1', m1')
    {
      assert planes[cp] == Woven(xs[2 * cp].qs, xs[2 * cp + 1].qs) && ActOk(xs[2 * cp]) && ActOk(xs[2 * cp + 1]);
      var lo := MmlaGroup(aw, planes[cp], 2 * c, w0, w1, xs[2 * cp].qs, xs[2 * cp + 1].qs);
      var hi := MmlaGroup(aw, planes[cp], 2 * c + 1, w0, w1, xs[2 * cp].qs, xs[2 * cp + 1].qs);
      i0', m0' := AddPair(sc0, mn0, w0, xs, c, cp, lo[0], hi[0], lo[1], hi[1], i0', m0');
      i1', m1' := AddPair(sc1, mn1, w1, xs, c, cp, lo[2], hi[2], lo[3], hi[3], i1', m1');
    }
  }

  method SmmlaTerms(b0: Q4K, b1: Q4K, xs: seq<Act>, planes: seq<seq<int>>)
    returns (i0: seq<int>, m0: seq<int>, i1: seq<int>, m1: seq<int>)
    requires Q4KOk(b0) && Q4KOk(b1) && PlanesOk(xs, planes)
    ensures |i0| == |m0| == |i1| == |m1| == |xs|
    ensures forall p :: 0 <= p < |xs| ==> HasTerms(b0, xs[p], i0[p], m0[p]) && HasTerms(b1, xs[p], i1[p], m1[p])
  {
    var w0 := Unpack(b0);
    var w1 := Unpack(b1);
    var aw := Interleave(w0, w1);
    i0, m0, i1, m1 := seq(|xs|, p => 0), seq(|xs|, p => 0), seq(|xs|, p => 0), seq(|xs|, p => 0);
    for c: nat := 0 to 4
      invariant RowPartials(b0, xs, 2 * c, i0, m0) && RowPartials(b1, xs, 2 * c, i1, m1)
    {
      i0, m0, i1, m1 := SmmlaChunk(b0, b1, aw, xs, planes, c, i0, m0, i1, m1);
    }
    AllTerms(b0, xs, i0, m0);
    AllTerms(b1, xs, i1, m1);
  }

  lemma AllTerms(b: Q4K, xs: seq<Act>, iacc: seq<int>, imins: seq<int>)
    requires Q4KOk(b) && RowPartials(b, xs, |Scales(b)|, iacc, imins)
    ensures forall p :: 0 <= p < |xs| ==> HasTerms(b, xs[p], iacc[p], imins[p])
  {
    forall p | 0 <= p < |xs| ensures HasTerms(b, xs[p], iacc[p], imins[p]) {
      assert Partial(Scales(b), Mins(b), Weights(b), xs[p], |Scales(b)|, iacc[p], imins[p]);
    }
  }

  ghost predicate PlaneFor(cols: seq<seq<Column>>, n: nat, plane: seq<seq<int>>, sb: nat)
    requires ColsOk(cols, n) && sb < n
  {
    PlanesOk(Slice(cols, n, sb), plane)
  }

  /** All planes of a tile, superblock by superblock. */
  ghost predicate TilePlanes(cols: seq<seq<Column>>, n: nat, planes: seq<seq<seq<int>>>) {
    && ColsOk(cols, n) && |planes| == n
    && forall sb: nat {:trigger PlaneFor(cols, n, planes[sb], sb)} :: sb < n ==> PlaneFor(cols, n, planes[sb], sb)
  }

  lemma PlaneAt(cols: seq<seq<Column>>, n: nat, planes: seq<seq<seq<int>>>, sb: nat)
    requires TilePlanes(cols, n, planes) && sb < n
    ensures PlaneFor(cols, n, planes[sb], sb)
  {}

  /** fl_interleave_act_q8k: done once per tile and reused by every row pair. */
  method InterleaveTile(cols: seq<seq<Column>>, n: nat) returns (planes: seq<seq<seq<int>>>)
    requires ColsOk(cols, n) && |cols| % 2 == 0
    ensures TilePlanes(cols, n, planes)
  {
    planes := [];
    for sb: nat := 0 to n
      invariant |planes| == sb && forall k: nat {:trigger PlaneFor(cols, n, planes[k], k)} :: k < sb ==>
        PlaneFor(cols, n, planes[k], k)
    {
      var xs := Slice(cols, n, sb);
      var ps: seq<seq<int>> := [];
      for cp: nat := 0 to |cols| / 2
        invariant |ps| == cp && forall k :: 0 <= k < cp ==> ps[k] == Woven(xs[2 * k].qs, xs[2 * k + 1].qs)
      {
        var plane := Interleave(xs[2 * cp].qs, xs[2 * cp + 1].qs);
        ps := ps + [plane];
      }
      planes := planes + [ps];
    }
  }

  /** dot_i8k_q4_K_neon_mc_smmla: a row pair against an even number of columns. */
  method DotMcSmmla(o: Ops, row0: seq<Q4K>, row1: seq<Q4K>, cols: seq<seq<Column>>, planes: seq<seq<seq<int>>>)
    returns (out0: seq<F>, out1: seq<F>)
    requires RowOk(row0) && RowOk(row1) && |row0| == |row1| && TilePlanes(cols, |row0|, planes)
    ensures AreDots(o, row0, cols, out0) && AreDots(o, row1, cols, out1)
  {
    var a0, a1 := SmmlaAccs(o, row0, row1, cols, planes);
    out0 := Finish(o, row0, cols, a0);
    out1 := Finish(o, row1, cols, a1);
  }

  ghost predicate BothAccs(o: Ops, row0: seq<Q4K>, row1: seq<Q4K>, cols: seq<seq<Column>>, a0: seq<seq<F>>,
                           a1: seq<seq<F>>, n: nat)
    requires RowOk(row0) && RowOk(row1) && |row0| == |row1| && ColsOk(cols, |row0|) && n <= |row0|
  {
    AllAccs(o, row0, cols, a0, n) && AllAccs(o, row1, cols, a1, n)
  }

  lemma BothStart(o: Ops, row0: seq<Q4K>, row1: seq<Q4K>, cols: seq<seq<Column>>)
    requires RowOk(row0) && RowOk(row1) && |row0| == |row1| && ColsOk(cols, |row0|)
    ensures BothAccs(o, row0, row1, cols, Zeros(o, |cols|), Zeros(o, |cols|), 0)
  {
    ZerosStart(o, row0, cols);
    ZerosStart(o, row1, cols);
  }

  /** Two rows and a tile's columns and planes that belong together. */
  ghost predicate PairOk(row0: seq<Q4K>, row1: seq<Q4K>, cols: seq<seq<Column>>, planes: seq<seq<seq<int>>>) {
    RowOk(row0) && RowOk(row1) && |row0| == |row1| && TilePlanes(cols, |row0|, planes)
  }

  method SmmlaAccs(o: Ops, row0: seq<Q4K>, row1: seq<Q4K>, cols: seq<seq<Column>>, planes: seq<seq<seq<int>>>)
    returns (a0: seq<seq<F>>, a1: seq<seq<F>>)
    requires PairOk(row0, row1, cols, planes)
    ensures BothAccs(o, row0, row1, cols, a0, a1, |row0|)
  {
    a0, a1 := Zeros(o, |cols|), Zeros(o, |cols|);
    BothStart(o, row0, row1, cols);
    for sb: nat := 0 to |row0|
      invariant BothAccs(o, row0, row1, cols, a0, a1, sb)
    {
      a0, a1 := SmmlaSuperblock(o, row0, row1, cols, planes, sb, a0, a1);
    }
  }

  method SmmlaSuperblock(o: Ops, row0: seq<Q4K>, row1: seq<Q4K>, cols: seq<seq<Column>>, planes: seq<seq<seq<int>>>,
                         sb: nat, a0: seq<seq<F>>, a1: seq<seq<F>>)
    returns (a0': seq<seq<F>>, a1': seq<seq<F>>)
    requires PairOk(row0, row1, cols, planes) && sb < |row0| && BothAccs(o, row0, row1, cols, a0, a1, sb)
    ensures BothAccs(o, row0, row1, cols, a0', a1', sb + 1)
  {
    PlaneAt(cols, |row0|, planes, sb);
    var i0, m0, i1, m1 := SmmlaTerms(row0[sb], row1[sb], Slice(cols, |row0|, sb), planes[sb]);
    a0' := FoldColumns(o, row0, cols, a0, sb, i0, m0);
    a1' := FoldColumns(o, row1, cols, a1, sb, i1, m1);
  }
}
