/**
  What an output of a pass is made of (src/model/decoder.cpp: build_graph_m, step_batch).  The
  decoder says nothing about the network's arithmetic, so two networks are run on it whose
  arithmetic writes down what it is given: their outputs say which layers a position went through
  and which queries and cache rows its heads were handed.
 */
module Provenance {
  import opened Decoder
  import opened Results

  // ------------------------------------------------------------- which layers

  /** A residual is its token, then the layers that merged into it. */
  function Path(layers: nat, heads: nat, pick: X -> Token): Model {
    Model(layers, heads, (t: Token, p: nat) => Floats([t]), (l: nat, x: X, p: nat) => x, (l: nat, x: X, p: nat) => x,
          (l: nat, h: nat, q: Floats, p: nat, rows: seq<KV>) => q,
          (l: nat, x: X, p: nat, read: seq<Floats>) => Floats(x.bits + [l]), pick)
  }

  function UpTo(n: nat): (r: seq<int>)
    ensures |r| == n && forall i :: 0 <= i < n ==> r[i] == i
  {
    seq(n, i => i)
  }

  lemma {:induction false} PathTo(layers: nat, heads: nat, pick: X -> Token, hist: seq<Token>, l: nat, j: nat)
    requires j < |hist|
    ensures Res(Path(layers, heads, pick), hist, l, j) == Floats([hist[j]] + UpTo(l))
    decreases l
  {
    if l > 0 {
      PathTo(layers, heads, pick, hist, l - 1, j);
      assert [hist[j]] + UpTo(l) == ([hist[j]] + UpTo(l - 1)) + [l - 1];
    } else {
      assert [hist[j]] + UpTo(0) == [hist[j]];
    }
  }

  /** A pass takes each of its tokens through every layer, once and in order, to the head. */
  method BatchGoesThroughLayers(dec: Decoder, heads: nat, pick: X -> Token, toks: seq<Token>)
    returns (r: Result<seq<Token>>)
    requires dec.Valid() && dec.model == Path(dec.model.layers, heads, pick)
    modifies dec, dec.cache
    ensures r.Ok? <==> 1 <= |toks| <= dec.maxBatch && |old(dec.hist)| + |toks| <= dec.maxKv
    ensures r.Ok? ==> |r.value| == |toks|
    ensures r.Ok? ==> forall p :: 0 <= p < |toks| ==> r.value[p] == pick(Floats([toks[p]] + UpTo(dec.model.layers)))
  {
    ghost var before := dec.hist;
    r := dec.StepBatch(toks);
    if r.Ok? {
      forall p | 0 <= p < |toks| ensures r.value[p] == pick(Floats([toks[p]] + UpTo(dec.model.layers))) {
        PathTo(dec.model.layers, heads, pick, dec.hist, dec.model.layers, |before| + p);
      }
    }
  }

  // --------------------------------------------------- which rows and queries

  function Num(x: Floats, k: nat): int { if k < |x.bits| then x.bits[k] else 0 }

  function Log(x: Floats): seq<int> { if |x.bits| >= 3 then x.bits[3..] else [] }

  function Join(xs: seq<Floats>): seq<int> {
    if xs == [] then [] else Join(xs[..|xs| - 1]) + xs[|xs| - 1].bits
  }

  /** Layer, position, and of the residual its token, how many layers it has been through and its position. */
  function Entry(l: nat, x: X, p: nat): Floats { Floats([l, p, Num(x, 0), Num(x, 1), Num(x, 2)]) }

  function Merged(l: nat, x: X, p: nat, read: seq<Floats>): X {
    Floats([Num(x, 0), Num(x, 1) + 1, Num(x, 2)] + (Log(x) + ([l, p] + Join(read))))
  }

  /**
    A residual is its token, the number of layers behind it and its position, and for each layer what
    its heads were given: the query and all rows.
   */
  function Recorder(layers: nat, heads: nat, pick: X -> Token): Model {
    Model(layers, heads, (t: Token, p: nat) => Floats([t, 0, p]), (l: nat, x: X, p: nat) => Entry(l, x, p),
          (l: nat, x: X, p: nat) => Entry(l, x, p),
          (l: nat, h: nat, q: Floats, p: nat, rows: seq<KV>) => Floats([h, p] + q.bits + Join(rows)),
          (l: nat, x: X, p: nat, read: seq<Floats>) => Merged(l, x, p, read), pick)
  }

  /** Positions 0 to n - 1 as layer l has them: each the token's residual after the l layers below. */
  function RowsSeen(hist: seq<Token>, l: nat, n: nat): (r: seq<int>)
    requires n <= |hist|
    ensures |r| == 5 * n
  {
    if n == 0 then [] else RowsSeen(hist, l, n - 1) + [l, n - 1, hist[n - 1], l, n - 1]
  }

  /** A head of position j: the position's own query, and the rows 0 to j. */
  function HeadSees(hist: seq<Token>, l: nat, j: nat, h: nat): seq<int>
    requires j < |hist|
  {
    [h, j] + [l, j, hist[j], l, j] + RowsSeen(hist, l, j + 1)
  }

  function HeadsSeen(hist: seq<Token>, l: nat, j: nat, heads: nat): seq<int>
    requires j < |hist|
  {
    if heads == 0 then [] else HeadsSeen(hist, l, j, heads - 1) + HeadSees(hist, l, j, heads - 1)
  }

  function LayerSees(hist: seq<Token>, l: nat, j: nat, heads: nat): seq<int>
    requires j < |hist|
  {
    [l, j] + HeadsSeen(hist, l, j, heads)
  }

  function LayersSeen(hist: seq<Token>, j: nat, heads: nat, l: nat): seq<int>
    requires j < |hist|
  {
    if l == 0 then [] else LayersSeen(hist, j, heads, l - 1) + LayerSees(hist, l - 1, j, heads)
  }

  function Record(hist: seq<Token>, j: nat, heads: nat, l: nat): Floats
    requires j < |hist|
  {
    Floats([hist[j], l, j] + LayersSeen(hist, j, heads, l))
  }

  lemma LogOf(t: Token, l: nat, j: nat, log: seq<int>)
    ensures var x := Floats([t, l, j] + log); Log(x) == log && Num(x, 0) == t && Num(x, 1) == l && Num(x, 2) == j
  {}

  lemma JoinMore(xs: seq<Floats>, x: Floats)
    ensures Join(xs + [x]) == Join(xs) + x.bits
  {
    assert (xs + [x])[..|xs|] == xs;
  }

  /** What the heads of a layer are given, in terms of the residual and the rows. */
  lemma ReadRecords(w: Model, hist: seq<Token>, l: nat, j: nat, x: X, rows: seq<KV>)
    requires j < |hist| && w == Recorder(w.layers, w.heads, w.head)
    requires x == Record(hist, j, w.heads, l) && Join(rows) == RowsSeen(hist, l, j + 1)
    ensures Join(AllHeads(w, l, x, j, rows)) == HeadsSeen(hist, l, j, w.heads)
  {
    var read := AllHeads(w, l, x, j, rows);
    LogOf(hist[j], l, j, LayersSeen(hist, j, w.heads, l));
    HeadsRecord(hist, l, j, rows, read, w.heads);
    assert read[..w.heads] == read;
  }

  lemma MergedIs(t: Token, l: nat, j: nat, log: seq<int>, read: seq<Floats>)
    ensures Merged(l, Floats([t, l, j] + log), j, read) == Floats([t, l + 1, j] + (log + ([l, j] + Join(read))))
  {
    LogOf(t, l, j, log);
  }

  lemma MergeRecords(hist: seq<Token>, l: nat, j: nat, heads: nat, read: seq<Floats>)
    requires j < |hist| && Join(read) == HeadsSeen(hist, l, j, heads)
    ensures Merged(l, Record(hist, j, heads, l), j, read) == Record(hist, j, heads, l + 1)
  {
    MergedIs(hist[j], l, j, LayersSeen(hist, j, heads, l), read);
  }

  lemma LayerRecords(layers: nat, heads: nat, pick: X -> Token, hist: seq<Token>, l: nat, j: nat, x: X, rows: seq<KV>)
    requires j < |hist| && x == Record(hist, j, heads, l) && Join(rows) == RowsSeen(hist, l, j + 1)
    ensures var w := Recorder(layers, heads, pick);
            w.merge(l, x, j, AllHeads(w, l, x, j, rows)) == Record(hist, j, heads, l + 1)
  {
    var w := Recorder(layers, heads, pick);
    ReadRecords(w, hist, l, j, x, rows);
    MergeRecords(hist, l, j, w.heads, AllHeads(w, l, x, j, rows));
  }

  // Residuals that follow the recurrence are the decoder's, whatever the network.

  type Residuals = (nat, nat) -> X

  function RowsBy(w: Model, f: Residuals, l: nat, n: nat): (r: seq<KV>)
    ensures |r| == n
  {
    seq(n, i requires 0 <= i < n => w.kv(l, f(l, i), i))
  }

  ghost predicate Starts(w: Model, hist: seq<Token>, f: Residuals) {
    forall j: nat {:trigger f(0, j)} :: j < |hist| ==> f(0, j) == w.embed(hist[j], j)
  }

  ghost predicate StepsAt(w: Model, f: Residuals, l: nat, j: nat) {
    f(l + 1, j) == w.merge(l, f(l, j), j, AllHeads(w, l, f(l, j), j, RowsBy(w, f, l, j + 1)))
  }

  ghost predicate Steps(w: Model, hist: seq<Token>, f: Residuals) {
    forall l: nat, j: nat {:trigger StepsAt(w, f, l, j)} :: j < |hist| ==> StepsAt(w, f, l, j)
  }

  lemma RowsMore(w: Model, f: Residuals, l: nat, n: nat)
    requires 0 < n
    ensures RowsBy(w, f, l, n) == RowsBy(w, f, l, n - 1) + [w.kv(l, f(l, n - 1), n - 1)]
  {}

  lemma {:induction false} OnlyResiduals(w: Model, hist: seq<Token>, f: Residuals, l: nat, j: nat)
    requires Starts(w, hist, f) && Steps(w, hist, f) && j < |hist|
    ensures Res(w, hist, l, j) == f(l, j)
    decreases l, j, 0
  {
    if l > 0 {
      OnlyResiduals(w, hist, f, l - 1, j);
      OnlyRows(w, hist, f, l - 1, j + 1);
      assert StepsAt(w, f, l - 1, j);
    }
  }

  lemma {:induction false} OnlyRows(w: Model, hist: seq<Token>, f: Residuals, l: nat, n: nat)
    requires Starts(w, hist, f) && Steps(w, hist, f) && n <= |hist|
    ensures Rows(w, hist, l, n) == RowsBy(w, f, l, n)
    decreases l, n, 1
  {
    if n > 0 {
      OnlyRows(w, hist, f, l, n - 1);
      OnlyResiduals(w, hist, f, l, n - 1);
      RowsMore(w, f, l, n);
    }
  }

  function Records(hist: seq<Token>, heads: nat): Residuals {
    (l: nat, j: nat) => if j < |hist| then Record(hist, j, heads, l) else Floats([])
  }

  lemma RowRecords(layers: nat, heads: nat, pick: X -> Token, hist: seq<Token>, l: nat, j: nat)
    requires j < |hist|
    ensures Recorder(layers, heads, pick).kv(l, Records(hist, heads)(l, j), j) == Floats([l, j, hist[j], l, j])
  {
    LogOf(hist[j], l, j, LayersSeen(hist, j, heads, l));
  }

  lemma {:induction false} RowsRecord(layers: nat, heads: nat, pick: X -> Token, hist: seq<Token>, l: nat, n: nat)
    requires n <= |hist|
    ensures Join(RowsBy(Recorder(layers, heads, pick), Records(hist, heads), l, n)) == RowsSeen(hist, l, n)
    decreases n
  {
    if n > 0 {
      var w, f := Recorder(layers, heads, pick), Records(hist, heads);
      RowsRecord(layers, heads, pick, hist, l, n - 1);
      RowsMore(w, f, l, n);
      RowRecords(layers, heads, pick, hist, l, n - 1);
      JoinMore(RowsBy(w, f, l, n - 1), w.kv(l, f(l, n - 1), n - 1));
    }
  }

  lemma StepRecords(layers: nat, heads: nat, pick: X -> Token, hist: seq<Token>, l: nat, j: nat)
    requires j < |hist|
    ensures StepsAt(Recorder(layers, heads, pick), Records(hist, heads), l, j)
  {
    var w, f := Recorder(layers, heads, pick), Records(hist, heads);
    RowsRecord(layers, heads, pick, hist, l, j + 1);
    LayerRecords(layers, heads, pick, hist, l, j, f(l, j), RowsBy(w, f, l, j + 1));
  }

  lemma RecordsStart(layers: nat, heads: nat, pick: X -> Token, hist: seq<Token>)
    ensures Starts(Recorder(layers, heads, pick), hist, Records(hist, heads))
  {
    var w, f := Recorder(layers, heads, pick), Records(hist, heads);
    forall j: nat | j < |hist| ensures f(0, j) == w.embed(hist[j], j) { StartRecords(hist, j, heads); }
  }

  lemma RecordsStep(layers: nat, heads: nat, pick: X -> Token, hist: seq<Token>)
    ensures Steps(Recorder(layers, heads, pick), hist, Records(hist, heads))
  {
    forall l: nat, j: nat | j < |hist| ensures StepsAt(Recorder(layers, heads, pick), Records(hist, heads), l, j) {
      StepRecords(layers, heads, pick, hist, l, j);
    }
  }

  lemma ResRecords(layers: nat, heads: nat, pick: X -> Token, hist: seq<Token>, l: nat, j: nat)
    requires j < |hist|
    ensures Res(Recorder(layers, heads, pick), hist, l, j) == Record(hist, j, heads, l)
  {
    RecordsStart(layers, heads, pick, hist);
    RecordsStep(layers, heads, pick, hist);
    OnlyResiduals(Recorder(layers, heads, pick), hist, Records(hist, heads), l, j);
  }

  lemma StartRecords(hist: seq<Token>, j: nat, heads: nat)
    requires j < |hist|
    ensures Record(hist, j, heads, 0) == Floats([hist[j], 0, j])
  {
    assert [hist[j], 0, j] + [] == [hist[j], 0, j];
  }

  lemma {:induction false} HeadsRecord(hist: seq<Token>, l: nat, j: nat, rows: seq<KV>, read: seq<Floats>, h: nat)
    requires j < |hist| && h <= |read| && Join(rows) == RowsSeen(hist, l, j + 1)
    requires forall i :: 0 <= i < |read| ==> read[i] == Floats([i, j] + [l, j, hist[j], l, j] + Join(rows))
    ensures Join(read[..h]) == HeadsSeen(hist, l, j, h)
    decreases h
  {
    if h > 0 {
      HeadsRecord(hist, l, j, rows, read, h - 1);
      assert read[..h][..h - 1] == read[..h - 1];
    }
  }

  /** A pass hands every head the position's own query and exactly the rows of positions 0 to its own. */
  method BatchReadsRows(dec: Decoder, pick: X -> Token, toks: seq<Token>) returns (r: Result<seq<Token>>)
    requires dec.Valid() && dec.model == Recorder(dec.model.layers, dec.model.heads, pick)
    modifies dec, dec.cache
    ensures r.Ok? <==> 1 <= |toks| <= dec.maxBatch && |old(dec.hist)| + |toks| <= dec.maxKv
    ensures r.Ok? ==> dec.hist == old(dec.hist) + toks && |r.value| == |toks|
    ensures r.Ok? ==> forall p :: 0 <= p < |toks| ==>
      r.value[p] == pick(Record(dec.hist, |old(dec.hist)| + p, dec.model.heads, dec.model.layers))
  {
    ghost var n := |dec.hist|;
    r := dec.StepBatch(toks);
    if r.Ok? {
      forall p | 0 <= p < |toks|
        ensures r.value[p] == pick(Record(dec.hist, n + p, dec.model.heads, dec.model.layers))
      {
        ResRecords(dec.model.layers, dec.model.heads, pick, dec.hist, dec.model.layers, n + p);
      }
    }
  }

  // ------------------------------------------------------------ exactly which

  lemma {:induction false} RowsTell(a: seq<Token>, b: seq<Token>, l: nat, n: nat)
    requires n <= |a| && n <= |b|
    ensures RowsSeen(a, l, n) == RowsSeen(b, l, n) <==> a[..n] == b[..n]
    decreases n
  {
    if n > 0 {
      RowsTell(a, b, l, n - 1);
      var s, t := RowsSeen(a, l, n), RowsSeen(b, l, n);
      assert s[..5 * (n - 1)] == RowsSeen(a, l, n - 1) && t[..5 * (n - 1)] == RowsSeen(b, l, n - 1);
      assert s[5 * n - 3] == a[n - 1] && t[5 * n - 3] == b[n - 1];
      assert a[..n] == a[..n - 1] + [a[n - 1]] && b[..n] == b[..n - 1] + [b[n - 1]];
    }
  }

  lemma SameParts(s: seq<int>, t: seq<int>, x: seq<int>, y: seq<int>)
    requires |s| == |t|
    ensures s + x == t + y <==> s == t && x == y
  {
    if s + x == t + y {
      assert s == (s + x)[..|s|] && t == (t + y)[..|s|];
      assert x == (s + x)[|s|..] && y == (t + y)[|s|..];
    }
  }

  lemma SameHead(a: seq<Token>, b: seq<Token>, l: nat, j: nat, h: nat)
    requires j < |a| && j < |b|
    ensures HeadSees(a, l, j, h) == HeadSees(b, l, j, h) <==> a[..j + 1] == b[..j + 1]
  {
    RowsTell(a, b, l, j + 1);
    SameParts([h, j] + [l, j, a[j], l, j], [h, j] + [l, j, b[j], l, j], RowsSeen(a, l, j + 1), RowsSeen(b, l, j + 1));
    if a[..j + 1] == b[..j + 1] { assert a[j] == a[..j + 1][j] == b[j]; }
  }

  /** One more part that is the same just when e. */
  lemma SameMore(s: seq<int>, t: seq<int>, x: seq<int>, y: seq<int>, e: bool)
    requires |s| == |t| && |x| == |y| && (x == y <==> e) && (e ==> s == t)
    ensures |s + x| == |t + y| && (s + x == t + y <==> e)
  {
    SameParts(s, t, x, y);
  }

  lemma {:induction false} SameHeads(a: seq<Token>, b: seq<Token>, l: nat, j: nat, heads: nat)
    requires j < |a| && j < |b|
    ensures |HeadsSeen(a, l, j, heads)| == |HeadsSeen(b, l, j, heads)|
    ensures a[..j + 1] == b[..j + 1] ==> HeadsSeen(a, l, j, heads) == HeadsSeen(b, l, j, heads)
    ensures 0 < heads ==> (HeadsSeen(a, l, j, heads) == HeadsSeen(b, l, j, heads) <==> a[..j + 1] == b[..j + 1])
    decreases heads
  {
    if heads > 0 {
      SameHeads(a, b, l, j, heads - 1);
      SameHead(a, b, l, j, heads - 1);
      SameMore(HeadsSeen(a, l, j, heads - 1), HeadsSeen(b, l, j, heads - 1), HeadSees(a, l, j, heads - 1),
               HeadSees(b, l, j, heads - 1), a[..j + 1] == b[..j + 1]);
    }
  }

  lemma SameLayer(a: seq<Token>, b: seq<Token>, l: nat, j: nat, heads: nat)
    requires j < |a| && j < |b| && 0 < heads
    ensures |LayerSees(a, l, j, heads)| == |LayerSees(b, l, j, heads)|
    ensures LayerSees(a, l, j, heads) == LayerSees(b, l, j, heads) <==> a[..j + 1] == b[..j + 1]
  {
    SameHeads(a, b, l, j, heads);
    SameParts([l, j], [l, j], HeadsSeen(a, l, j, heads), HeadsSeen(b, l, j, heads));
  }

  lemma {:induction false} SameLayers(a: seq<Token>, b: seq<Token>, j: nat, heads: nat, l: nat)
    requires j < |a| && j < |b| && 0 < heads
    ensures |LayersSeen(a, j, heads, l)| == |LayersSeen(b, j, heads, l)|
    ensures a[..j + 1] == b[..j + 1] ==> LayersSeen(a, j, heads, l) == LayersSeen(b, j, heads, l)
    ensures 0 < l ==> (LayersSeen(a, j, heads, l) == LayersSeen(b, j, heads, l) <==> a[..j + 1] == b[..j + 1])
    decreases l
  {
    if l > 0 {
      SameLayers(a, b, j, heads, l - 1);
      SameLayer(a, b, l - 1, j, heads);
      SameMore(LayersSeen(a, j, heads, l - 1), LayersSeen(b, j, heads, l - 1), LayerSees(a, l - 1, j, heads),
               LayerSees(b, l - 1, j, heads), a[..j + 1] == b[..j + 1]);
    }
  }

  /** A position's record tells its own token and all before it, and nothing of those after it. */
  lemma RecordsTell(a: seq<Token>, b: seq<Token>, j: nat, heads: nat, layers: nat)
    requires j < |a| && j < |b| && 0 < heads && 0 < layers
    ensures Record(a, j, heads, layers) == Record(b, j, heads, layers) <==> a[..j + 1] == b[..j + 1]
  {
    SameLayers(a, b, j, heads, layers);
    SameParts([a[j], layers, j], [b[j], layers, j], LayersSeen(a, j, heads, layers), LayersSeen(b, j, heads, layers));
    if a[..j + 1] == b[..j + 1] { assert a[j] == a[..j + 1][j] == b[j]; }
  }
}
