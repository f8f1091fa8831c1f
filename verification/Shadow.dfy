/**
  Shadow layouts of q4_K weights, their builders and kernels
  (src/runtime/shadow.h, src/runtime/shadow.cpp, the shadow kernels of
  src/runtime/kernels.h).
 */
module Shadow {
  import opened Arithmetic
  import opened Quants
  import opened Kernels

  // ----------------------------------------------------------------- layouts

  datatype Header = Header(d: F, dmin: F, sc: seq<int>, mn: seq<int>)

  /** A plain shadow superblock: 280 bytes. */
  datatype Plain = Plain(h: Header, qs: seq<int>)

  /** A row-pair superblock: 560 bytes, 8-byte groups of the two rows alternating. */
  datatype Pair = Pair(h0: Header, h1: Header, qi: seq<int>)

  function HeaderOf(o: Ops, b: Q4K): Header
    requires Q4KOk(b)
  {
    Header(o.half(b.d), o.half(b.dmin), Scales(b), Mins(b))
  }

  function PlainOf(o: Ops, b: Q4K): Plain
    requires Q4KOk(b)
  {
    Plain(HeaderOf(o, b), Weights(b))
  }

  function PairOf(o: Ops, b0: Q4K, b1: Q4K): Pair
    requires Q4KOk(b0) && Q4KOk(b1)
  {
    Pair(HeaderOf(o, b0), HeaderOf(o, b1), Woven(Weights(b0), Weights(b1)))
  }

  function PlainRow(o: Ops, row: seq<Q4K>): (r: seq<Plain>)
    requires RowOk(row)
    ensures |r| == |row|
  {
    seq(|row|, sb requires 0 <= sb < |row| => PlainOf(o, row[sb]))
  }

  function PairRow(o: Ops, row0: seq<Q4K>, row1: seq<Q4K>): (r: seq<Pair>)
    requires RowOk(row0) && RowOk(row1) && |row0| == |row1|
    ensures |r| == |row0|
  {
    seq(|row0|, sb requires 0 <= sb < |row0| => PairOf(o, row0[sb], row1[sb]))
  }

  /** The plain shadow of a tensor. */
  function PlainRows(o: Ops, packed: seq<seq<Q4K>>): (r: seq<seq<Plain>>)
    requires AllRows(packed)
    ensures |r| == |packed|
  {
    seq(|packed|, r requires 0 <= r < |packed| => PlainRow(o, packed[r]))
  }

  /** The row-pair shadow of a tensor with an even number of rows. */
  function PairRows(o: Ops, packed: seq<seq<Q4K>>): (r: seq<seq<Pair>>)
    requires AllRows(packed) && |packed| % 2 == 0
    ensures |r| == |packed| / 2
  {
    seq(|packed| / 2, u requires 0 <= u < |packed| / 2 => PairRow(o, packed[2 * u], packed[2 * u + 1]))
  }

  /** Well-formed rows of equal length. */
  predicate AllRows(packed: seq<seq<Q4K>>) {
    forall r :: 0 <= r < |packed| ==> RowOk(packed[r]) && |packed[r]| == |packed[0]|
  }

  // ---------------------------------------------------------------- builders

  method BuildHeader(o: Ops, b: Q4K) returns (h: Header)
    requires Q4KOk(b)
    ensures h == HeaderOf(o, b)
  {
    var sc, mn := ScalesAll(b.scales);
    assert sc == Scales(b) && mn == Mins(b);
    h := Header(o.half(b.d), o.half(b.dmin), sc, mn);
  }

  /** fl_shadow_build_rows_q4k, one row. */
  method BuildPlainRow(o: Ops, row: seq<Q4K>) returns (s: seq<Plain>)
    requires RowOk(row)
    ensures s == PlainRow(o, row)
  {
    s := [];
    for sb: nat := 0 to |row|
      invariant s == PlainRow(o, row)[..sb]
    {
      var h := BuildHeader(o, row[sb]);
      var qs := Unpack(row[sb]);
      assert PlainRow(o, row)[..sb + 1] == PlainRow(o, row)[..sb] + [PlainOf(o, row[sb])];
      s := s + [Plain(h, qs)];
    }
    assert PlainRow(o, row)[..|row|] == PlainRow(o, row);
  }

  /** fl_shadow_build_rows_q4k_smmla, one row pair. */
  method BuildPairRow(o: Ops, row0: seq<Q4K>, row1: seq<Q4K>) returns (s: seq<Pair>)
    requires RowOk(row0) && RowOk(row1) && |row0| == |row1|
    ensures s == PairRow(o, row0, row1)
  {
    s := [];
    for sb: nat := 0 to |row0|
      invariant s == PairRow(o, row0, row1)[..sb]
    {
      var h0 := BuildHeader(o, row0[sb]);
      var h1 := BuildHeader(o, row1[sb]);
      var t0 := Unpack(row0[sb]);
      var t1 := Unpack(row1[sb]);
      var qi := Interleave(t0, t1);
      assert PairRow(o, row0, row1)[..sb + 1] == PairRow(o, row0, row1)[..sb] + [PairOf(o, row0[sb], row1[sb])];
      s := s + [Pair(h0, h1, qi)];
    }
    assert PairRow(o, row0, row1)[..|row0|] == PairRow(o, row0, row1);
  }

  // ---------------------------------------------------------- parallel build

  /** Rows per thread: an even share, rounded up to even so that pairs never straddle threads. */
  function Chunk(rows: nat, nt: nat): (c: nat)
    requires 0 < nt
    ensures c % 2 == 0 && rows <= nt * c
  {
    var c := (rows + nt - 1) / nt;
    Ceil(rows, nt);
    TimesMono(c, c + c % 2, nt);
    c + c % 2
  }

  lemma Ceil(a: nat, n: nat)
    requires 0 < n
    ensures a <= n * ((a + n - 1) / n)
  {
    var q, r := (a + n - 1) / n, (a + n - 1) % n;
    assert a + n - 1 == n * q + r;
  }

  /** First row and row count of thread i. */
  function Start(rows: nat, c: nat, i: nat): nat { i * c }

  function Count(rows: nat, c: nat, i: nat): nat {
    if i * c >= rows then 0 else if c <= rows - i * c then c else rows - i * c
  }

  lemma DivBelow(r: nat, c: nat, nt: nat)
    requires r < nt * c
    ensures 0 < c && r / c < nt && r == (r / c) * c + r % c
  {
    TimesZero(nt, c);
    var q := r / c;
    TimesMono(nt, if q >= nt then q else nt, c);
    Swap(c, q);
    Swap(c, nt);
  }

  lemma TimesZero(nt: nat, c: nat)
    ensures c == 0 ==> nt * c == 0
  {}

  lemma InChunk(rows: nat, c: nat, i: nat, k: nat)
    requires i * c + k < rows && k < c
    ensures k < Count(rows, c, i)
  {}

  lemma OwnerIn(rows: nat, nt: nat, c: nat, r: nat) returns (i: nat, k: nat)
    requires r < rows <= nt * c
    ensures i < nt && k < Count(rows, c, i) && r == Start(rows, c, i) + k
  {
    DivBelow(r, c, nt);
    i, k := r / c, r % c;
    InChunk(rows, c, i, k);
  }

  /** The thread and the offset that own row r. */
  lemma OwnerOf(rows: nat, nt: nat, r: nat) returns (i: nat, k: nat)
    requires 0 < nt && r < rows
    ensures var c := Chunk(rows, nt); i < nt && k < Count(rows, c, i) && r == Start(rows, c, i) + k
  {
    i, k := OwnerIn(rows, nt, Chunk(rows, nt), r);
  }

  /** Different threads own different rows. */
  lemma OwnersDiffer(rows: nat, c: nat, i: nat, j: nat, k: nat, l: nat)
    requires i < j && k < Count(rows, c, i)
    ensures Start(rows, c, i) + k < Start(rows, c, j) + l
  {
    TimesMono(i + 1, j, c);
    Swap(c, i + 1);
    Swap(c, j);
  }

  /** A chunk starts on an even row, and holds an even number of rows when there are evenly many. */
  lemma ChunksAreEven(rows: nat, nt: nat, i: nat)
    requires 0 < nt
    ensures var c := Chunk(rows, nt); Start(rows, c, i) % 2 == 0 && (rows % 2 == 0 ==> Count(rows, c, i) % 2 == 0)
  {
    EvenCount(rows, Chunk(rows, nt), i);
  }

  lemma EvenCount(rows: nat, c: nat, i: nat)
    requires c % 2 == 0
    ensures Start(rows, c, i) % 2 == 0 && (rows % 2 == 0 ==> Count(rows, c, i) % 2 == 0)
  {
    EvenStart(c, i);
    EvenDifference(rows, i * c);
  }

  lemma EvenDifference(a: nat, b: nat)
    requires b % 2 == 0
    ensures a % 2 == 0 && b <= a ==> (a - b) % 2 == 0
  {}

  lemma EvenStart(c: nat, i: nat)
    requires c % 2 == 0
    ensures (i * c) % 2 == 0
  {
    EvenTimes(i, c / 2);
  }

  lemma EvenTimes(i: nat, h: nat)
    ensures i * (2 * h) == 2 * (i * h)
  {}

  /** Work items thread i has to write: rows, or row pairs. */
  function Items(rows: nat, c: nat, i: nat, step: nat): nat
    requires step == 1 || step == 2
  {
    Count(rows, c, i) / step
  }

  function Left(rows: nat, c: nat, step: nat, prog: seq<nat>, n: nat): int
    requires n <= |prog| && (step == 1 || step == 2)
  {
    if n == 0 then 0 else Left(rows, c, step, prog, n - 1) + (Items(rows, c, n - 1, step) - prog[n - 1])
  }

  lemma {:induction false} LeftDrops(rows: nat, c: nat, step: nat, prog: seq<nat>, t: nat, n: nat)
    requires n <= |prog| && t < |prog| && (step == 1 || step == 2)
    ensures Left(rows, c, step, prog[t := prog[t] + 1], n) == Left(rows, c, step, prog, n) - (if t < n then 1 else 0)
  {
    if n > 0 { LeftDrops(rows, c, step, prog, t, n - 1); }
  }

  lemma {:induction false} LeftNat(rows: nat, c: nat, step: nat, prog: seq<nat>, n: nat)
    requires n <= |prog| && (step == 1 || step == 2) && forall i :: 0 <= i < n ==> prog[i] <= Items(rows, c, i, step)
    ensures Left(rows, c, step, prog, n) >= 0
  {
    if n > 0 { LeftNat(rows, c, step, prog, n - 1); }
  }

  /** The k-th item of thread i. */
  function Item(rows: nat, c: nat, i: nat, k: nat, step: nat): nat
    requires step == 1 || step == 2
  {
    Start(rows, c, i) / step + k
  }

  /** Every item written so far holds what the whole tensor's shadow has there. */
  ghost predicate Written<T>(rows: nat, c: nat, step: nat, all: seq<T>, out: seq<T>, prog: seq<nat>)
    requires step == 1 || step == 2
  {
    |out| == |all| && forall i: nat, k: nat {:trigger Item(rows, c, i, k, step)} :: i < |prog| && k < prog[i] ==>
      Item(rows, c, i, k, step) < |all| && out[Item(rows, c, i, k, step)] == all[Item(rows, c, i, k, step)]
  }

  lemma WriteOne<T>(rows: nat, c: nat, step: nat, all: seq<T>, out: seq<T>, prog: seq<nat>, t: nat, v: T)
    requires (step == 1 || step == 2) && Written(rows, c, step, all, out, prog) && t < |prog|
    requires var u := Item(rows, c, t, prog[t], step); u < |all| && v == all[u]
    ensures Written(rows, c, step, all, out[Item(rows, c, t, prog[t], step) := v], prog[t := prog[t] + 1])
  {}

  lemma AllWritten<T>(rows: nat, nt: nat, step: nat, all: seq<T>, out: seq<T>, prog: seq<nat>)
    requires 0 < nt == |prog| && (step == 1 || (step == 2 && rows % 2 == 0)) && |all| == rows / step
    requires Written(rows, Chunk(rows, nt), step, all, out, prog)
    requires forall i: nat :: i < nt ==> prog[i] >= Items(rows, Chunk(rows, nt), i, step)
    ensures out == all
  {
    var c := Chunk(rows, nt);
    forall u: nat | u < |all| ensures out[u] == all[u] {
      var i, k := OwnerOf(rows, nt, u * step);
      ChunksAreEven(rows, nt, i);
      assert Item(rows, c, i, k / step, step) == u;
      assert k / step < prog[i];
    }
  }

  /** The packed rows thread i is given. */
  function Share<T>(packed: seq<T>, c: nat, i: nat): (r: seq<T>)
    ensures |r| == Count(|packed|, c, i)
  {
    if i * c >= |packed| then [] else packed[i * c..i * c + Count(|packed|, c, i)]
  }

  /** Row k of the plain builder's loop, over the rows and the output it was given. */
  method PlainStep(o: Ops, given: seq<seq<Q4K>>, k: nat, out: array<seq<Plain>>, base: nat)
    requires AllRows(given) && k < |given| && base + |given| <= out.Length
    modifies out
    ensures out[..] == old(out[..])[base + k := PlainRow(o, given[k])]
  {
    var row := BuildPlainRow(o, given[k]);
    out[base + k] := row;
  }

  /** Pair k of the row-pair builder's loop. */
  method PairStep(o: Ops, given: seq<seq<Q4K>>, k: nat, out: array<seq<Pair>>, base: nat)
    requires AllRows(given) && 2 * k + 1 < |given| && base + |given| / 2 <= out.Length
    modifies out
    ensures out[..] == old(out[..])[base + k := PairRow(o, given[2 * k], given[2 * k + 1])]
  {
    var row := BuildPairRow(o, given[2 * k], given[2 * k + 1]);
    out[base + k] := row;
  }

  /** One more item of a block being filled in place. */
  lemma FillOne<T>(was: seq<T>, all: seq<T>, base: nat, k: nat)
    requires k < |all| && base + |all| <= |was|
    ensures var filled := was[..base] + all[..k] + was[base + k..];
            filled[base + k := all[k]] == was[..base] + all[..k + 1] + was[base + k + 1..]
  {}

  /** fl_shadow_build_rows_q4k: all rows given, one after another. */
  method BuildPlainRows(o: Ops, given: seq<seq<Q4K>>, out: array<seq<Plain>>, base: nat)
    requires AllRows(given) && base + |given| <= out.Length
    modifies out
    ensures out[..] == old(out[..])[..base] + PlainRows(o, given) + old(out[..])[base + |given|..]
  {
    ghost var all, was := PlainRows(o, given), out[..];
    for k: nat := 0 to |given|
      invariant out[..] == was[..base] + all[..k] + was[base + k..]
    {
      FillOne(was, all, base, k);
      PlainStep(o, given, k, out, base);
    }
    assert all[..|given|] == all;
  }

  /** fl_shadow_build_rows_q4k_smmla: all row pairs given. */
  method BuildPairRows(o: Ops, given: seq<seq<Q4K>>, out: array<seq<Pair>>, base: nat)
    requires AllRows(given) && |given| % 2 == 0 && base + |given| / 2 <= out.Length
    modifies out
    ensures out[..] == old(out[..])[..base] + PairRows(o, given) + old(out[..])[base + |given| / 2..]
  {
    var n := |given| / 2;
    ghost var all, was := PairRows(o, given), out[..];
    for k: nat := 0 to n
      invariant out[..] == was[..base] + all[..k] + was[base + k..]
    {
      FillOne(was, all, base, k);
      PairStep(o, given, k, out, base);
    }
    assert all[..n] == all;
  }

  lemma SharedPlain(o: Ops, packed: seq<seq<Q4K>>, nt: nat, t: nat, k: nat)
    requires AllRows(packed) && 0 < nt && k < Items(|packed|, Chunk(|packed|, nt), t, 1)
    ensures var c := Chunk(|packed|, nt); var given := Share(packed, c, t); var u := Item(|packed|, c, t, k, 1);
            && AllRows(given) && k < |given| && Start(|packed|, c, t) + |given| <= |packed|
            && u == Start(|packed|, c, t) + k < |packed| && PlainRow(o, given[k]) == PlainRows(o, packed)[u]
  {}

  lemma SharedPair(o: Ops, packed: seq<seq<Q4K>>, nt: nat, t: nat, k: nat)
    requires AllRows(packed) && |packed| % 2 == 0 && 0 < nt && k < Items(|packed|, Chunk(|packed|, nt), t, 2)
    ensures var c := Chunk(|packed|, nt); var given := Share(packed, c, t); var u := Item(|packed|, c, t, k, 2);
            && AllRows(given) && 2 * k + 1 < |given| && Start(|packed|, c, t) / 2 + |given| / 2 <= |packed| / 2
            && u == Start(|packed|, c, t) / 2 + k < |packed| / 2
            && PairRow(o, given[2 * k], given[2 * k + 1]) == PairRows(o, packed)[u]
  {
    var c := Chunk(|packed|, nt);
    ChunksAreEven(|packed|, nt, t);
    var given, u := Share(packed, c, t), Item(|packed|, c, t, k, 2);
    assert given[2 * k] == packed[2 * u] && given[2 * k + 1] == packed[2 * u + 1];
  }

  /** Thread t's next row: the builder's loop body on its own chunk, written at its own offset. */
  method ThreadPlain(o: Ops, packed: seq<seq<Q4K>>, nt: nat, ghost prog: seq<nat>, t: nat, out: array<seq<Plain>>,
                     k: nat)
    requires 0 < nt && AllRows(packed) && t < |prog| && prog[t] == k < Items(|packed|, Chunk(|packed|, nt), t, 1)
    requires Written(|packed|, Chunk(|packed|, nt), 1, PlainRows(o, packed), out[..], prog)
    modifies out
    ensures Written(|packed|, Chunk(|packed|, nt), 1, PlainRows(o, packed), out[..], prog[t := k + 1])
  {
    var c := Chunk(|packed|, nt);
    SharedPlain(o, packed, nt, t, k);
    WriteOne(|packed|, c, 1, PlainRows(o, packed), out[..], prog, t, PlainRow(o, Share(packed, c, t)[k]));
    PlainStep(o, Share(packed, c, t), k, out, Start(|packed|, c, t));
  }

  /** Thread t's next row pair. */
  method ThreadPair(o: Ops, packed: seq<seq<Q4K>>, nt: nat, ghost prog: seq<nat>, t: nat, out: array<seq<Pair>>, k: nat)
    requires 0 < nt && AllRows(packed) && |packed| % 2 == 0
    requires t < |prog| && prog[t] == k < Items(|packed|, Chunk(|packed|, nt), t, 2)
    requires Written(|packed|, Chunk(|packed|, nt), 2, PairRows(o, packed), out[..], prog)
    modifies out
    ensures Written(|packed|, Chunk(|packed|, nt), 2, PairRows(o, packed), out[..], prog[t := k + 1])
  {
    var c := Chunk(|packed|, nt);
    SharedPair(o, packed, nt, t, k);
    WriteOne(|packed|, c, 2, PairRows(o, packed), out[..], prog, t,
             PairRow(o, Share(packed, c, t)[2 * k], Share(packed, c, t)[2 * k + 1]));
    PairStep(o, Share(packed, c, t), k, out, Start(|packed|, c, t) / 2);
  }

  /**
    build_parallel, plain layout: every thread runs the row builder's loop over
    its own chunk at its own offset, the threads' rows interleaved in any way.
   */
  method BuildParallelPlain(o: Ops, packed: seq<seq<Q4K>>, nt: nat, out: array<seq<Plain>>)
    requires 0 < nt && AllRows(packed) && out.Length == |packed|
    modifies out
    ensures out[..] == PlainRows(o, packed)
  {
    var rows, c := |packed|, Chunk(|packed|, nt);
    var prog: seq<nat> := seq(nt, i => 0);
    LeftNat(rows, c, 1, prog, nt);
    while exists t: nat :: t < nt && prog[t] < Items(rows, c, t, 1)
      invariant |prog| == nt && forall i: nat :: i < nt ==> prog[i] <= Items(rows, c, i, 1)
      invariant Written(rows, c, 1, PlainRows(o, packed), out[..], prog)
      decreases Left(rows, c, 1, prog, nt)
    {
      var t: nat :| t < nt && prog[t] < Items(rows, c, t, 1);
      ThreadPlain(o, packed, nt, prog, t, out, prog[t]);
      LeftDrops(rows, c, 1, prog, t, nt);
      prog := prog[t := prog[t] + 1];
      LeftNat(rows, c, 1, prog, nt);
    }
    AllWritten(rows, nt, 1, PlainRows(o, packed), out[..], prog);
  }

  /** build_parallel, row-pair layout: chunks are even, so no pair straddles two threads. */
  method BuildParallelPairs(o: Ops, packed: seq<seq<Q4K>>, nt: nat, out: array<seq<Pair>>)
    requires 0 < nt && AllRows(packed) && |packed| % 2 == 0 && out.Length == |packed| / 2
    modifies out
    ensures out[..] == PairRows(o, packed)
  {
    var rows, c := |packed|, Chunk(|packed|, nt);
    var prog: seq<nat> := seq(nt, i => 0);
    LeftNat(rows, c, 2, prog, nt);
    while exists t: nat :: t < nt && prog[t] < Items(rows, c, t, 2)
      invariant |prog| == nt && forall i: nat :: i < nt ==> prog[i] <= Items(rows, c, i, 2)
      invariant Written(rows, c, 2, PairRows(o, packed), out[..], prog)
      decreases Left(rows, c, 2, prog, nt)
    {
      var t: nat :| t < nt && prog[t] < Items(rows, c, t, 2);
      ThreadPair(o, packed, nt, prog, t, out, prog[t]);
      LeftDrops(rows, c, 2, prog, t, nt);
      prog := prog[t := prog[t] + 1];
      LeftNat(rows, c, 2, prog, nt);
    }
    AllWritten(rows, nt, 2, PairRows(o, packed), out[..], prog);
  }

  /** The parallel build leaves what one run of the builder over all rows leaves, in both layouts. */
  method ParallelIsSequential(o: Ops, packed: seq<seq<Q4K>>, nt: nat)
    returns (plain: array<seq<Plain>>, plain1: array<seq<Plain>>, pairs: array<seq<Pair>>, pairs1: array<seq<Pair>>)
    requires 0 < nt && AllRows(packed) && |packed| % 2 == 0
    ensures plain[..] == plain1[..] && pairs[..] == pairs1[..]
    ensures plain[..] == PlainRows(o, packed) && pairs[..] == PairRows(o, packed)
  {
    plain, plain1 := new seq<Plain>[|packed|], new seq<Plain>[|packed|];
    BuildParallelPlain(o, packed, nt, plain);
    BuildPlainRows(o, packed, plain1, 0);
    pairs, pairs1 := new seq<Pair>[|packed| / 2], new seq<Pair>[|packed| / 2];
    BuildParallelPairs(o, packed, nt, pairs);
    BuildPairRows(o, packed, pairs1, 0);
  }

  // ------------------------------------------------------------ shadow kernels

  /** The scalar group loop over stored nibbles. */
  method ScalarTerms(sc: seq<int>, mn: seq<int>, qs: seq<int>, x: Act) returns (iacc: int, imins: int)
    requires |sc| == 8 == |mn| && |qs| == 256 && |x.qs| == 256 && |x.bsums| == 16
    ensures iacc == FullAcc(sc, qs, x.qs) && imins == FullMins(mn, x.bsums)
  {
    iacc, imins := 0, 0;
    for g: nat := 0 to |sc|
      invariant iacc == IAcc(sc, qs, x.qs, g) && imins == IMins(mn, x.bsums, g)
    {
      var lo := (g / 2) * 64 + (g % 2) * 32;
      assert lo == 32 * g;
      var idot := 0;
      for i: nat := 0 to 32
        invariant idot == Dot(qs, x.qs, 32 * g, i)
      {
        idot := idot + qs[lo + i] * x.qs[g * 32 + i];
      }
      NextGroup(sc, mn, qs, x, g);
      iacc := iacc + sc[g] * idot;
      imins := imins + mn[g] * (x.bsums[2 * g] + x.bsums[2 * g + 1]);
    }
  }

  /** dot_i8k_q4_K_shadow, in its vector and its scalar form: equal to the packed dot. */
  method DotShadow(o: Ops, neon: bool, s: seq<Plain>, col: seq<Column>, ghost row: seq<Q4K>) returns (v: F)
    requires |row| == |col| && RowOk(row) && ColOk(col) && s == PlainRow(o, row)
    ensures v == RowDot(o, row, col)
  {
    var a := [o.zero, o.zero, o.zero, o.zero];
    AccsStart(o, row, col);
    for sb: nat := 0 to |s|
      invariant AccsAre(o, row, col, a, sb)
    {
      assert s[sb] == PlainOf(o, row[sb]);
      var h := s[sb].h;
      var iacc, imins;
      if neon {
        iacc, imins := ChunkTerms(h.sc, h.mn, s[sb].qs, col[sb].act);
      } else {
        iacc, imins := ScalarTerms(h.sc, h.mn, s[sb].qs, col[sb].act);
      }
      AccStep(o, row, col, a, sb, (iacc, imins));
      a := Fold1(o, a, sb, h.d, h.dmin, col[sb].d, (iacc, imins));
    }
    v := Fold4(o, a);
  }

  /** One superblock of the row-pair kernel: lanes 0 and 2 of MMLAs against the column doubled. */
  method PairTerms(p: Pair, x: Act, ghost b0: Q4K, ghost b1: Q4K, ghost o: Ops)
    returns (i0: int, m0: int, i1: int, m1: int)
    requires Q4KOk(b0) && Q4KOk(b1) && ActOk(x) && p == PairOf(o, b0, b1)
    ensures HasTerms(b0, x, i0, m0) && HasTerms(b1, x, i1, m1)
  {
    i0, m0, i1, m1 := 0, 0, 0, 0;
    ghost var w0, w1 := Weights(b0), Weights(b1);
    var sc0, mn0, sc1, mn1 := p.h0.sc, p.h0.mn, p.h1.sc, p.h1.mn;
    var doubled := Interleave(x.qs, x.qs);
    for g: nat := 0 to |sc0|
      invariant Partial(sc0, mn0, w0, x, g, i0, m0) && Partial(sc1, mn1, w1, x, g, i1, m1)
    {
      var acc := MmlaGroup(p.qi, doubled, g, w0, w1, x.qs, x.qs);
      i0, m0 := AddGroup(sc0, mn0, w0, x, g, acc[0], i0, m0);
      i1, m1 := AddGroup(sc1, mn1, w1, x, g, acc[2], i1, m1);
    }
    WholeRow(b0, x, i0, m0);
    WholeRow(b1, x, i1, m1);
  }

  method AddGroup(sc: seq<int>, mn: seq<int>, ghost w: seq<int>, x: Act, g: nat, idot: int, i0: int, m0: int)
    returns (i: int, m: int)
    requires |sc| == 8 == |mn| && |w| == 256 && g < 8 && Partial(sc, mn, w, x, g, i0, m0)
      && idot == Dot(w, x.qs, 32 * g, 32)
    ensures Partial(sc, mn, w, x, g + 1, i, m)
  {
    NextGroup(sc, mn, w, x, g);
    i, m := i0 + sc[g] * idot, m0 + mn[g] * (x.bsums[2 * g] + x.bsums[2 * g + 1]);
  }

  lemma WholeRow(b: Q4K, x: Act, iacc: int, imins: int)
    requires Q4KOk(b) && Partial(Scales(b), Mins(b), Weights(b), x, |Scales(b)|, iacc, imins)
    ensures HasTerms(b, x, iacc, imins)
  {}

  /** dot2_i8k_q4_K_shadow_smmla: two rows at once, each equal to its own packed dot. */
  method Dot2Shadow(o: Ops, s: seq<Pair>, col: seq<Column>, ghost row0: seq<Q4K>, ghost row1: seq<Q4K>)
    returns (v0: F, v1: F)
    requires |row0| == |col| == |row1| && RowOk(row0) && RowOk(row1) && ColOk(col) && s == PairRow(o, row0, row1)
    ensures v0 == RowDot(o, row0, col) && v1 == RowDot(o, row1, col)
  {
    var a0, a1 := [o.zero, o.zero, o.zero, o.zero], [o.zero, o.zero, o.zero, o.zero];
    AccsStart(o, row0, col);
    AccsStart(o, row1, col);
    for sb: nat := 0 to |s|
      invariant AccsAre(o, row0, col, a0, sb) && AccsAre(o, row1, col, a1, sb)
    {
      assert s[sb] == PairOf(o, row0[sb], row1[sb]);
      var i0, m0, i1, m1 := PairTerms(s[sb], col[sb].act, row0[sb], row1[sb], o);
      AccStep(o, row0, col, a0, sb, (i0, m0));
      AccStep(o, row1, col, a1, sb, (i1, m1));
      a0 := Fold1(o, a0, sb, s[sb].h0.d, s[sb].h0.dmin, col[sb].d, (i0, m0));
      a1 := Fold1(o, a1, sb, s[sb].h1.d, s[sb].h1.dmin, col[sb].d, (i1, m1));
    }
    v0, v1 := Fold4(o, a0), Fold4(o, a1);
  }

  // ------------------------------------------------------- spans and addresses

  const PLAIN_BYTES := 280
  const PAIR_BYTES := 560

  /** A registered span: packed bytes [base, end), payload address, bytes per row in both. */
  datatype Span = Span(base: nat, end: nat, shadow: nat, packedRow: nat, shadowRow: nat)

  predicate SpanOk(s: Span, rows: nat) { 0 < s.packedRow && s.end == s.base + rows * s.packedRow }

  function RowIndex(s: Span, p: nat): nat
    requires 0 < s.packedRow && s.base <= p
  {
    (p - s.base) / s.packedRow
  }

  function RowAddr(s: Span, p: nat): nat
    requires 0 < s.packedRow && s.base <= p
  {
    s.shadow + RowIndex(s, p) * s.shadowRow
  }

  function PairAddr(s: Span, r: nat): nat { s.shadow + (r / 2) * (s.shadowRow * 2) }

  /** Any address inside row r resolves to row r. */
  lemma RowIndexExact(s: Span, r: nat, off: nat)
    requires 0 < s.packedRow && off < s.packedRow
    ensures RowIndex(s, s.base + r * s.packedRow + off) == r
  {
    DivMod(r, s.packedRow, off);
  }

  /**
    A tile that starts at row r0 of a span walks its shadow rows by address: the
    k-th is the shadow of row r0 + k, and lies inside the payload as long as the
    packed row lies inside the span.
   */
  lemma RowsInside(s: Span, rows: nat, r0: nat, k: nat)
    requires SpanOk(s, rows) && r0 + k < rows
    ensures s.base + (r0 + k) * s.packedRow + s.packedRow <= s.end
    ensures RowAddr(s, s.base + r0 * s.packedRow) + k * s.shadowRow == RowAddr(s, s.base + (r0 + k) * s.packedRow)
    ensures s.shadow <= RowAddr(s, s.base + (r0 + k) * s.packedRow)
    ensures RowAddr(s, s.base + (r0 + k) * s.packedRow) + s.shadowRow <= s.shadow + rows * s.shadowRow
  {
    RowIndexExact(s, r0, 0);
    RowIndexExact(s, r0 + k, 0);
    Spread(r0, k, s.shadowRow);
    RowFits(r0 + k, rows, s.shadowRow);
    RowFits(r0 + k, rows, s.packedRow);
  }

  lemma RowFits(r: nat, rows: nat, b: nat)
    requires r < rows
    ensures r * b + b <= rows * b
  {
    TimesMono(r + 1, rows, b);
    Swap(b, r + 1);
    Swap(b, rows);
    Spread(r, 1, b);
  }

  /** Both layouts use the same bytes per two rows, and all pairs of an even span lie inside its payload. */
  lemma PairsInside(s: Span, rows: nat, nsb: nat, r: nat)
    requires s.shadowRow == nsb * PLAIN_BYTES && rows % 2 == 0 && r < rows
    ensures s.shadow <= PairAddr(s, r) && PairAddr(s, r) + nsb * PAIR_BYTES <= s.shadow + rows * s.shadowRow
    ensures PairAddr(s, 2 * (r / 2)) == PairAddr(s, r) == s.shadow + 2 * (r / 2) * s.shadowRow
  {
    var h, b := r / 2, s.shadowRow;
    assert h * (b * 2) == 2 * h * b by { Twice(h, b); }
    TimesMono(2 * h + 2, rows, b);
    Swap(b, 2 * h + 2);
    Swap(b, rows);
    Spread(2 * h, 2, b);
  }

  lemma Twice(h: int, b: int)
    ensures h * (b * 2) == 2 * h * b
  {}

  // The registry, sorted by base.

  predicate Sorted(spans: seq<Span>) { forall i, j :: 0 <= i < j < |spans| ==> spans[i].base <= spans[j].base }

  /** Spans do not overlap. */
  predicate Apart(spans: seq<Span>) {
    forall i, j :: 0 <= i < j < |spans| ==> spans[i].end <= spans[j].base || spans[j].end <= spans[i].base
  }

  predicate Contains(s: Span, p: nat) { s.base <= p < s.end }

  /** fl_shadow_find: upper_bound on base, then one containment test. */
  method Find(spans: seq<Span>, p: nat) returns (k: int)
    requires Sorted(spans) && Apart(spans) && forall i :: 0 <= i < |spans| ==> spans[i].base < spans[i].end
    ensures -1 <= k < |spans|
    ensures k >= 0 ==> Contains(spans[k], p)
    ensures k < 0 ==> forall i :: 0 <= i < |spans| ==> !Contains(spans[i], p)
  {
    var lo, hi := 0, |spans|;
    while lo < hi
      invariant 0 <= lo <= hi <= |spans|
      invariant forall i :: 0 <= i < lo ==> spans[i].base <= p
      invariant forall i :: hi <= i < |spans| ==> p < spans[i].base
    {
      var mid := (lo + hi) / 2;
      if p < spans[mid].base { hi := mid; } else { lo := mid + 1; }
    }
    if lo == 0 { return -1; }
    var it := spans[lo - 1];
    if it.base <= p && p < it.end { return lo - 1; }
    forall i | 0 <= i < |spans| ensures !Contains(spans[i], p) {
      if i < lo - 1 { assert spans[i].base <= spans[lo - 1].base; }
    }
    k := -1;
  }
}
