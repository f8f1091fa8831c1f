/**
  The decoder's KV cache under batches and rewinds (src/model/decoder.cpp:
  build_graph_m, step_batch, rewind_to; src/runtime/decode_params.h: kv_append,
  attn_head).  The network's arithmetic is opaque: what matters is which cache
  rows each position reads and writes, and when.
 */
module Decoder {
  import opened Results

  datatype Floats = Floats(bits: seq<int>)   // bit patterns; no operation here looks inside
  type X = Floats     // residual stream of one position
  type KV = Floats    // one cache row (keys and values)
  type Token = int

  datatype Model = Model(
    layers: nat,
    heads: nat,
    embed: (Token, nat) -> X,
    kv: (nat, X, nat) -> KV,                       // layer, residual, position
    query: (nat, X, nat) -> Floats,                // layer, residual, position: projected and rotated
    read: (nat, nat, Floats, nat, seq<KV>) -> Floats,   // layer, head, query, position, rows 0..position
    merge: (nat, X, nat, seq<Floats>) -> X,        // layer, residual, position, what the heads read
    head: X -> Token)

  // ------------------------------------------- what a token history computes

  /** What all heads of a layer make of one position. */
  function AllHeads(w: Model, l: nat, x: X, j: nat, rows: seq<KV>): (r: seq<Floats>)
    ensures |r| == w.heads && forall h :: 0 <= h < w.heads ==> r[h] == w.read(l, h, w.query(l, x, j), j, rows)
  {
    seq(w.heads, h requires 0 <= h < w.heads => w.read(l, h, w.query(l, x, j), j, rows))
  }

  /** Residual of position j entering layer l, from scratch. */
  ghost function Res(w: Model, hist: seq<Token>, l: nat, j: nat): X
    requires j < |hist|
    decreases l, j, 0
  {
    if l == 0 then w.embed(hist[j], j)
    else
      var x := Res(w, hist, l - 1, j);
      w.merge(l - 1, x, j, AllHeads(w, l - 1, x, j, Rows(w, hist, l - 1, j + 1)))
  }

  /** Cache rows 0..n-1 of layer l, from scratch. */
  ghost function Rows(w: Model, hist: seq<Token>, l: nat, n: nat): (r: seq<KV>)
    requires n <= |hist|
    ensures |r| == n
    decreases l, n, 1
  {
    if n == 0 then [] else Rows(w, hist, l, n - 1) + [w.kv(l, Res(w, hist, l, n - 1), n - 1)]
  }

  /** Greedy token after position j. */
  ghost function Out(w: Model, hist: seq<Token>, j: nat): Token
    requires j < |hist|
  {
    w.head(Res(w, hist, w.layers, j))
  }

  /** Position j depends on tokens 0..j only. */
  lemma {:induction false} Causal(w: Model, a: seq<Token>, b: seq<Token>, l: nat, j: nat)
    requires j < |a| && j < |b| && a[..j + 1] == b[..j + 1]
    ensures Res(w, a, l, j) == Res(w, b, l, j)
    decreases l, j, 0
  {
    if l == 0 {
      assert a[j] == a[..j + 1][j] == b[..j + 1][j];
    } else {
      Causal(w, a, b, l - 1, j);
      CausalRows(w, a, b, l - 1, j + 1);
    }
  }

  lemma {:induction false} CausalRows(w: Model, a: seq<Token>, b: seq<Token>, l: nat, n: nat)
    requires n <= |a| && n <= |b| && a[..n] == b[..n]
    ensures Rows(w, a, l, n) == Rows(w, b, l, n)
    decreases l, n, 1
  {
    if n > 0 {
      assert a[..n - 1] == a[..n][..n - 1] && b[..n - 1] == b[..n][..n - 1];
      CausalRows(w, a, b, l, n - 1);
      Causal(w, a, b, l, n - 1);
    }
  }

  lemma {:induction false} RowAt(w: Model, hist: seq<Token>, l: nat, n: nat, j: nat)
    requires j < n <= |hist|
    ensures Rows(w, hist, l, n)[j] == w.kv(l, Res(w, hist, l, j), j)
    decreases n
  {
    if j < n - 1 { RowAt(w, hist, l, n - 1, j); }
  }

  // ---------------------------------------------------------- pass schedules

  /**
    The events of position p (of the batch) at layer l: its query is rotated, its row appended, a
    head reads the cache, the layer's result is merged.
   */
  datatype Event =
    | Query(l: nat, p: nat) | Append(l: nat, p: nat) | Head(l: nat, p: nat, h: nat) | Merge(l: nat, p: nat)

  /** The size of a pass. */
  datatype Dims = Dims(layers: nat, m: nat, heads: nat)

  predicate InRange(e: Event, d: Dims) { e.l < d.layers && e.p < d.m && (e.Head? ==> e.h < d.heads) }

  /**
    What the frozen graph makes an event wait for: the layer below, a head for its query
    and for all appends 0..p, a merge for its heads.
   */
  predicate WaitsFor(e: Event, f: Event) {
    match f
    case Merge(l, p) => l + 1 == e.l && p == e.p
    case Query(l, p) => e.Head? && l == e.l && p == e.p
    case Append(l, q) => e.Head? && l == e.l && q <= e.p
    case Head(l, p, h) => e.Merge? && l == e.l && p == e.p
  }

  ghost predicate DepsIn(e: Event, d: Dims, done: set<Event>) {
    forall f: Event :: InRange(f, d) && WaitsFor(e, f) ==> f in done
  }

  ghost function Events(sched: seq<Event>): set<Event> { set e | e in sched }

  /** No event of the order comes before one it waits for. */
  ghost predicate InOrder(sched: seq<Event>, d: Dims) {
    forall i :: 0 <= i < |sched| ==> InRange(sched[i], d) && DepsIn(sched[i], d, Events(sched[..i]))
  }

  /** Any order the graph of a batch admits. */
  ghost predicate Admitted(sched: seq<Event>, d: Dims) {
    InOrder(sched, d) && forall e: Event :: InRange(e, d) ==> e in sched
  }

  // A layer-major order, to show that admitted orders exist.

  function LayerQueries(l: nat, m: nat): seq<Event> { seq(m, p requires 0 <= p < m => Query(l, p)) }

  function LayerAppends(l: nat, m: nat): seq<Event> { seq(m, p requires 0 <= p < m => Append(l, p)) }

  function LayerMerges(l: nat, m: nat): seq<Event> { seq(m, p requires 0 <= p < m => Merge(l, p)) }

  function PositionHeads(l: nat, p: nat, n: nat): seq<Event> { seq(n, h requires 0 <= h < n => Head(l, p, h)) }

  function LayerHeads(l: nat, m: nat, n: nat): seq<Event> {
    if m == 0 then [] else LayerHeads(l, m - 1, n) + PositionHeads(l, m - 1, n)
  }

  function LayerMajor(d: Dims): seq<Event>
    decreases d.layers
  {
    if d.layers == 0 then []
    else
      var l := d.layers - 1;
      LayerMajor(d.(layers := l)) + (LayerQueries(l, d.m) + LayerAppends(l, d.m)) + LayerHeads(l, d.m,
          d.heads) + LayerMerges(l, d.m)
  }

  lemma {:induction false} LayerHeadsHas(l: nat, m: nat, n: nat, e: Event)
    ensures e in LayerHeads(l, m, n) <==> e.Head? && e.l == l && e.p < m && e.h < n
  {
    if m > 0 {
      LayerHeadsHas(l, m - 1, n, e);
      if e.Head? && e.l == l && e.p == m - 1 && e.h < n { assert PositionHeads(l, m - 1, n)[e.h] == e; }
    }
  }

  lemma LayerEndsHas(l: nat, m: nat, e: Event)
    ensures e in LayerQueries(l, m) <==> e.Query? && e.l == l && e.p < m
    ensures e in LayerAppends(l, m) <==> e.Append? && e.l == l && e.p < m
    ensures e in LayerMerges(l, m) <==> e.Merge? && e.l == l && e.p < m
  {
    if e.l == l && e.p < m {
      assert LayerQueries(l, m)[e.p] == Query(l, e.p) && LayerAppends(l, m)[e.p] == Append(l, e.p);
      assert LayerMerges(l, m)[e.p] == Merge(l, e.p);
    }
  }

  lemma {:induction false} LayerMajorHas(d: Dims, e: Event)
    ensures e in LayerMajor(d) <==> InRange(e, d)
    decreases d.layers
  {
    if d.layers > 0 {
      var l := d.layers - 1;
      LayerMajorHas(d.(layers := l), e);
      LayerEndsHas(l, d.m, e);
      LayerHeadsHas(l, d.m, d.heads, e);
    }
  }

  /** A stage whose events wait only for earlier stages. */
  lemma StageAfter(s: seq<Event>, stage: seq<Event>, d: Dims)
    requires InOrder(s, d) && forall e :: e in stage ==> InRange(e, d) && DepsIn(e, d, Events(s))
    ensures InOrder(s + stage, d)
  {
    var t := s + stage;
    forall i | 0 <= i < |t| ensures InRange(t[i], d) && DepsIn(t[i], d, Events(t[..i])) {
      if i < |s| {
        assert t[..i] == s[..i];
      } else {
        assert t[..i] == s + stage[..i - |s|];
        assert t[i] == stage[i - |s|];
      }
    }
  }

  lemma {:induction false} LayerMajorInOrder(d: Dims, k: nat)
    requires k <= d.layers
    ensures InOrder(LayerMajor(d.(layers := k)), d)
    decreases k
  {
    if k > 0 {
      var l := k - 1;
      LayerMajorInOrder(d, l);
      var below := LayerMajor(d.(layers := l));
      var appends, heads, merges := LayerQueries(l, d.m) + LayerAppends(l, d.m), LayerHeads(l, d.m, d.heads),
          LayerMerges(l, d.m);
      forall e: Event ensures e in below <==> InRange(e, d.(layers := l)) { LayerMajorHas(d.(layers := l), e); }
      forall e: Event ensures e in heads <==> e.Head? && e.l == l && e.p < d.m && e.h < d.heads {
        LayerHeadsHas(l, d.m, d.heads, e);
      }
      forall e: Event
        ensures e in appends <==> (e.Append? || e.Query?) && e.l == l && e.p < d.m
        ensures e in merges <==> e.Merge? && e.l == l && e.p < d.m
      {
        LayerEndsHas(l, d.m, e);
      }
      StageAfter(below, appends, d);
      StageAfter(below + appends, heads, d);
      StageAfter(below + appends + heads, merges, d);
    }
  }

  lemma LayerMajorAdmitted(d: Dims)
    ensures Admitted(LayerMajor(d), d)
  {
    LayerMajorInOrder(d, d.layers);
    forall e: Event | InRange(e, d) ensures e in LayerMajor(d) { LayerMajorHas(d, e); }
  }

  /** Some order the runtime happens to execute the pass in; callers learn only that the graph admits it. */
  method PassOrder(d: Dims) returns (sched: seq<Event>)
    ensures Admitted(sched, d)
  {
    sched := LayerMajor(d);
    LayerMajorAdmitted(d);
  }

  /** A batch gives each position what a single-token pass there would give. */
  lemma BatchIsSingles(w: Model, hist: seq<Token>, toks: seq<Token>, p: nat, l: nat)
    requires p < |toks|
    ensures Out(w, hist + toks, |hist| + p) == Out(w, hist + toks[..p + 1], |hist| + p)
    ensures Rows(w, hist + toks, l, |hist| + p + 1) == Rows(w, hist + toks[..p + 1], l, |hist| + p + 1)
  {
    var a, b := hist + toks, hist + toks[..p + 1];
    assert a[..|hist| + p + 1] == b[..|hist| + p + 1];
    Causal(w, a, b, w.layers, |hist| + p);
    CausalRows(w, a, b, l, |hist| + p + 1);
  }

  class Decoder {
    const model: Model
    const maxKv: nat
    const maxBatch: nat
    const cache: array2<KV>            // layer, position; rows from nPast on are stale
    var nPast: nat
    ghost var hist: seq<Token>

    ghost predicate Row(l: nat, j: nat, h: seq<Token>)
      requires l < cache.Length0 && j < cache.Length1 && j < |h|
      reads cache
    {
      cache[l, j] == model.kv(l, Res(model, h, l, j), j)
    }

    ghost predicate Valid()
      reads this, cache
    {
      && cache.Length0 == model.layers && cache.Length1 == maxKv
      && |hist| == nPast <= maxKv
      && forall l: nat, j: nat {:trigger Row(l, j, hist)} :: l < model.layers && j < nPast ==> Row(l, j, hist)
    }

    constructor (model: Model, maxKv: nat, maxBatch: nat)
      ensures Valid() && hist == [] && fresh(cache)
      ensures this.model == model && this.maxKv == maxKv && this.maxBatch == maxBatch
    {
      this.model, this.maxKv, this.maxBatch := model, maxKv, maxBatch;
      cache := new KV[model.layers, maxKv];
      nPast, hist := 0, [];
    }

    method Reset()
      requires Valid()
      modifies this
      ensures Valid() && hist == []
    {
      nPast, hist := 0, [];
    }

    /** Forgets the tail; the rows stay in the buffer as garbage. */
    method RewindTo(pos: int) returns (r: Result<()>)
      requires Valid()
      modifies this
      ensures Valid()
      ensures r.Ok? <==> 0 <= pos <= |old(hist)|
      ensures hist == if r.Ok? then old(hist)[..pos] else old(hist)
    {
      if pos < 0 || pos > nPast { return Died("bad rewind"); }
      ghost var was := hist;
      nPast, hist := pos, hist[..pos];
      forall l: nat, j: nat | l < model.layers && j < nPast ensures Row(l, j, hist) {
        assert Row(l, j, was);
        assert was[..j + 1] == hist[..j + 1];
        Causal(model, was, hist, l, j);
      }
      r := Ok(());
    }

    // ------------------------------------------------------------- one pass

    /** The buffers of a pass: residuals and queries per layer and position, and what each head read. */
    ghost predicate Shaped(xs: array2<X>, qs: array2<Floats>, ctx: array3<Floats>, m: nat)
      reads this
    {
      && xs.Length0 == model.layers + 1 && xs.Length1 == m && qs.Length0 == model.layers && qs.Length1 == m
      && ctx.Length0 == model.layers && ctx.Length1 == m && ctx.Length2 == model.heads
      && cache.Length0 == model.layers && cache.Length1 == maxKv && nPast + m <= maxKv
      && xs != cache && qs != cache && xs != qs
    }

    function Size(m: nat): Dims { Dims(model.layers, m, model.heads) }

    /** The query of position j at layer l, from scratch. */
    ghost function QueryOf(h: seq<Token>, l: nat, j: nat): Floats
      requires j < |h|
    {
      model.query(l, Res(model, h, l, j), j)
    }

    /** What head h of layer l reads at position j, from scratch. */
    ghost function Read(h: seq<Token>, l: nat, hd: nat, j: nat): Floats
      requires j < |h|
    {
      model.read(l, hd, QueryOf(h, l, j), j, Rows(model, h, l, j + 1))
    }

    /** What a finished event has left behind. */
    ghost predicate Did(e: Event, xs: array2<X>, qs: array2<Floats>, ctx: array3<Floats>, h: seq<Token>, m: nat)
      requires Shaped(xs, qs, ctx, m) && InRange(e, Size(m)) && |h| == nPast + m
      reads this, cache, xs, qs, ctx
    {
      match e
      case Query(l, p) => qs[l, p] == QueryOf(h, l, nPast + p)
      case Append(l, p) => Row(l, nPast + p, h)
      case Head(l, p, hd) => ctx[l, p, hd] == Read(h, l, hd, nPast + p)
      case Merge(l, p) => xs[l + 1, p] == Res(model, h, l + 1, nPast + p)
    }

    /** The invariant of a pass over history h: rows before the batch are intact and finished events did their work. */
    ghost predicate Passing(xs: array2<X>, qs: array2<Floats>, ctx: array3<Floats>, h: seq<Token>, m: nat,
                            done: set<Event>)
      reads this, cache, xs, qs, ctx
    {
      && Shaped(xs, qs, ctx, m) && |h| == nPast + m
      && (forall l: nat, j: nat {:trigger Row(l, j, h)} :: l < model.layers && j < nPast ==> Row(l, j, h))
      && (forall p: nat :: p < m ==> xs[0, p] == Res(model, h, 0, nPast + p))
      && (forall e: Event {:trigger Did(e, xs, qs, ctx, h, m)} :: e in done && InRange(e, Size(m)) ==>
          Did(e, xs, qs, ctx, h, m))
    }

    /** fl_op_attn_head reads rows 0..n-1 and no others. */
    method ReadRows(l: nat, n: nat) returns (rows: seq<KV>)
      requires l < cache.Length0 && n <= cache.Length1
      ensures |rows| == n && forall j :: 0 <= j < n ==> rows[j] == cache[l, j]
    {
      rows := [];
      for j := 0 to n
        invariant |rows| == j && forall i :: 0 <= i < j ==> rows[i] == cache[l, i]
      {
        rows := rows + [cache[l, j]];
      }
    }

    /** The residual an event starts from is there. */
    lemma Entering(e: Event, xs: array2<X>, qs: array2<Floats>, ctx: array3<Floats>, h: seq<Token>, m: nat,
                   done: set<Event>)
      requires InRange(e, Size(m)) && Passing(xs, qs, ctx, h, m, done) && DepsIn(e, Size(m), done)
      ensures xs[e.l, e.p] == Res(model, h, e.l, nPast + e.p)
    {
      if e.l > 0 { assert Did(Merge(e.l - 1, e.p), xs, qs, ctx, h, m); }
    }

    /** The projected query is rotated in place. */
    method DoQuery(e: Event, xs: array2<X>, qs: array2<Floats>, ctx: array3<Floats>, ghost h: seq<Token>, m: nat,
                   ghost done: set<Event>)
      requires e.Query? && InRange(e, Size(m)) && Passing(xs, qs, ctx, h, m, done) && DepsIn(e, Size(m), done)
      modifies qs
      ensures Passing(xs, qs, ctx, h, m, done + {e})
    {
      Entering(e, xs, qs, ctx, h, m, done);
      label before:
      qs[e.l, e.p] := model.query(e.l, xs[e.l, e.p], nPast + e.p);
      forall l: nat, j: nat | l < model.layers && j < nPast ensures Row(l, j, h) { assert old@before(Row(l, j, h)); }
      forall d: Event | d in done + {e} && InRange(d, Size(m)) ensures Did(d, xs, qs, ctx, h, m) {
        if d != e { assert old@before(Did(d, xs, qs, ctx, h, m)); }
      }
    }

    method DoAppend(e: Event, xs: array2<X>, qs: array2<Floats>, ctx: array3<Floats>, ghost h: seq<Token>, m: nat,
                    ghost done: set<Event>)
      requires e.Append? && InRange(e, Size(m)) && Passing(xs, qs, ctx, h, m, done) && DepsIn(e, Size(m), done)
      modifies cache
      ensures Passing(xs, qs, ctx, h, m, done + {e})
    {
      var pos := nPast + e.p;
      Entering(e, xs, qs, ctx, h, m, done);
      label before:
      cache[e.l, pos] := model.kv(e.l, xs[e.l, e.p], pos);
      forall l: nat, j: nat | l < model.layers && j < nPast ensures Row(l, j, h) { assert old@before(Row(l, j, h)); }
      forall d: Event | d in done + {e} && InRange(d, Size(m)) ensures Did(d, xs, qs, ctx, h, m) {
        if d != e { assert old@before(Did(d, xs, qs, ctx, h, m)); }
      }
    }

    method StoreHead(e: Event, xs: array2<X>, qs: array2<Floats>, ctx: array3<Floats>, ghost h: seq<Token>, m: nat,
                     ghost done: set<Event>,
                     v: Floats)
      requires e.Head? && InRange(e, Size(m)) && Passing(xs, qs, ctx, h, m, done)
      requires v == Read(h, e.l, e.h, nPast + e.p)
      modifies ctx
      ensures Passing(xs, qs, ctx, h, m, done + {e})
    {
      label before:
      ctx[e.l, e.p, e.h] := v;
      forall l: nat, j: nat | l < model.layers && j < nPast ensures Row(l, j, h) { assert old@before(Row(l, j, h)); }
      forall d: Event | d in done + {e} && InRange(d, Size(m)) ensures Did(d, xs, qs, ctx, h, m) {
        if d != e { assert old@before(Did(d, xs, qs, ctx, h, m)); }
      }
    }

    /** An attention head reads the cache. */
    method DoHead(e: Event, xs: array2<X>, qs: array2<Floats>, ctx: array3<Floats>, ghost h: seq<Token>, m: nat,
                  ghost done: set<Event>)
      requires e.Head? && InRange(e, Size(m)) && Passing(xs, qs, ctx, h, m, done) && DepsIn(e, Size(m), done)
      modifies ctx
      ensures Passing(xs, qs, ctx, h, m, done + {e})
    {
      var pos := nPast + e.p;
      assert WaitsFor(e, Query(e.l, e.p)) && Did(Query(e.l, e.p), xs, qs, ctx, h, m);
      var rows := ReadRows(e.l, pos + 1);
      RowsRead(e, xs, qs, ctx, h, m, done, rows);
      StoreHead(e, xs, qs, ctx, h, m, done, model.read(e.l, e.h, qs[e.l, e.p], pos, rows));
    }

    method ReadHeads(ctx: array3<Floats>, l: nat, p: nat) returns (r: seq<Floats>)
      requires l < ctx.Length0 && p < ctx.Length1 && ctx.Length2 == model.heads
      ensures |r| == model.heads && forall hd :: 0 <= hd < |r| ==> r[hd] == ctx[l, p, hd]
    {
      r := [];
      for hd := 0 to model.heads
        invariant |r| == hd && forall i :: 0 <= i < hd ==> r[i] == ctx[l, p, i]
      {
        r := r + [ctx[l, p, hd]];
      }
    }

    method StoreMerge(e: Event, xs: array2<X>, qs: array2<Floats>, ctx: array3<Floats>, ghost h: seq<Token>, m: nat,
                      ghost done: set<Event>,
                      v: X)
      requires e.Merge? && InRange(e, Size(m)) && Passing(xs, qs, ctx, h, m, done)
      requires v == Res(model, h, e.l + 1, nPast + e.p)
      modifies xs
      ensures Passing(xs, qs, ctx, h, m, done + {e})
    {
      label before:
      xs[e.l + 1, e.p] := v;
      forall l: nat, j: nat | l < model.layers && j < nPast ensures Row(l, j, h) { assert old@before(Row(l, j, h)); }
      forall d: Event | d in done + {e} && InRange(d, Size(m)) ensures Did(d, xs, qs, ctx, h, m) {
        if d != e { assert old@before(Did(d, xs, qs, ctx, h, m)); }
      }
    }

    /** Projection, feed-forward and residual adds, below the heads. */
    method DoMerge(e: Event, xs: array2<X>, qs: array2<Floats>, ctx: array3<Floats>, ghost h: seq<Token>, m: nat,
                   ghost done: set<Event>)
      requires e.Merge? && InRange(e, Size(m)) && Passing(xs, qs, ctx, h, m, done) && DepsIn(e, Size(m), done)
      modifies xs
      ensures Passing(xs, qs, ctx, h, m, done + {e})
    {
      var pos := nPast + e.p;
      Entering(e, xs, qs, ctx, h, m, done);
      var read := ReadHeads(ctx, e.l, e.p);
      HeadsRead(e, xs, qs, ctx, h, m, done, read);
      StoreMerge(e, xs, qs, ctx, h, m, done, model.merge(e.l, xs[e.l, e.p], pos, read));
    }

    /** Stale rows are never read: rows 0..pos are the earlier ones and those the batch has appended. */
    lemma RowsRead(e: Event, xs: array2<X>, qs: array2<Floats>, ctx: array3<Floats>, h: seq<Token>, m: nat,
                   done: set<Event>,
                   rows: seq<KV>)
      requires e.Head? && InRange(e, Size(m)) && Passing(xs, qs, ctx, h, m, done) && DepsIn(e, Size(m), done)
      requires |rows| == nPast + e.p + 1 && forall j :: 0 <= j < |rows| ==> rows[j] == cache[e.l, j]
      ensures rows == Rows(model, h, e.l, nPast + e.p + 1)
    {
      forall j: nat | j < |rows| ensures rows[j] == Rows(model, h, e.l, |rows|)[j] {
        RowAt(model, h, e.l, |rows|, j);
        if j < nPast {
          assert Row(e.l, j, h);
        } else {
          assert WaitsFor(e, Append(e.l, j - nPast));
          assert Did(Append(e.l, j - nPast), xs, qs, ctx, h, m);
        }
      }
    }

    /** A merge finds what all its heads have read. */
    lemma HeadsRead(e: Event, xs: array2<X>, qs: array2<Floats>, ctx: array3<Floats>, h: seq<Token>, m: nat,
                    done: set<Event>,
                    read: seq<Floats>)
      requires e.Merge? && InRange(e, Size(m)) && Passing(xs, qs, ctx, h, m, done) && DepsIn(e, Size(m), done)
      requires |read| == model.heads && forall hd :: 0 <= hd < |read| ==> read[hd] == ctx[e.l, e.p, hd]
      ensures var j := nPast + e.p;
              read == AllHeads(model, e.l, Res(model, h, e.l, j), j, Rows(model, h, e.l, j + 1))
    {
      forall hd: nat | hd < |read| ensures read[hd] == Read(h, e.l, hd, nPast + e.p) {
        assert WaitsFor(e, Head(e.l, e.p, hd));
        assert Did(Head(e.l, e.p, hd), xs, qs, ctx, h, m);
      }
    }

    lemma OldRows(h: seq<Token>)
      requires Valid() && hist <= h
      ensures forall l: nat, j: nat {:trigger Row(l, j, h)} :: l < model.layers && j < nPast ==> Row(l, j, h)
    {
      forall l: nat, j: nat | l < model.layers && j < nPast ensures Row(l, j, h) {
        assert Row(l, j, hist);
        assert hist[..j + 1] == h[..j + 1];
        Causal(model, hist, h, l, j);
      }
    }

    /** With the embeddings in place a pass can begin. */
    lemma Starts(xs: array2<X>, qs: array2<Floats>, ctx: array3<Floats>, toks: seq<Token>)
      requires Valid() && Shaped(xs, qs, ctx, |toks|)
      requires forall p :: 0 <= p < |toks| ==> xs[0, p] == model.embed(toks[p], nPast + p)
      ensures Passing(xs, qs, ctx, hist + toks, |toks|, {})
    {
      var h := hist + toks;
      OldRows(h);
      forall p: nat | p < |toks| ensures xs[0, p] == Res(model, h, 0, nPast + p) { assert h[nPast + p] == toks[p]; }
    }

    method DoEvent(e: Event, xs: array2<X>, qs: array2<Floats>, ctx: array3<Floats>, ghost h: seq<Token>, m: nat,
                   ghost done: set<Event>)
      requires InRange(e, Size(m)) && Passing(xs, qs, ctx, h, m, done) && DepsIn(e, Size(m), done)
      modifies cache, xs, qs, ctx
      ensures Passing(xs, qs, ctx, h, m, done + {e})
    {
      match e
      case Query(_, _) => DoQuery(e, xs, qs, ctx, h, m, done);
      case Append(_, _) => DoAppend(e, xs, qs, ctx, h, m, done);
      case Head(_, _, _) => DoHead(e, xs, qs, ctx, h, m, done);
      case Merge(_, _) => DoMerge(e, xs, qs, ctx, h, m, done);
    }

    /** Executes the pass's events in an admitted order. */
    method RunPass(xs: array2<X>, qs: array2<Floats>, ctx: array3<Floats>, ghost h: seq<Token>, m: nat,
                   sched: seq<Event>)
      requires Passing(xs, qs, ctx, h, m, {}) && Admitted(sched, Size(m))
      modifies cache, xs, qs, ctx
      ensures Passing(xs, qs, ctx, h, m, Events(sched))
    {
      assert Events(sched[..0]) == {};
      for i := 0 to |sched|
        invariant Passing(xs, qs, ctx, h, m, Events(sched[..i]))
      {
        assert InRange(sched[i], Size(m)) && DepsIn(sched[i], Size(m), Events(sched[..i]));
        DoEvent(sched[i], xs, qs, ctx, h, m, Events(sched[..i]));
        assert sched[..i + 1] == sched[..i] + [sched[i]];
        assert Events(sched[..i + 1]) == Events(sched[..i]) + {sched[i]};
      }
      assert sched[..|sched|] == sched;
    }

    method Heads(xs: array2<X>, qs: array2<Floats>, ctx: array3<Floats>, ghost h: seq<Token>, m: nat,
                 ghost done: set<Event>)
      returns (outs: seq<Token>)
      requires Passing(xs, qs, ctx, h, m, done) && forall e: Event :: InRange(e, Size(m)) ==> e in done
      ensures |outs| == m && forall p :: 0 <= p < m ==> outs[p] == Out(model, h, nPast + p)
    {
      outs := [];
      for p: nat := 0 to m
        invariant |outs| == p && forall q :: 0 <= q < p ==> outs[q] == Out(model, h, nPast + q)
      {
        if model.layers > 0 { assert Did(Merge(model.layers - 1, p), xs, qs, ctx, h, m); }
        outs := outs + [model.head(xs[model.layers, p])];
      }
    }

    lemma AllRows(xs: array2<X>, qs: array2<Floats>, ctx: array3<Floats>, h: seq<Token>, m: nat, done: set<Event>)
      requires Passing(xs, qs, ctx, h, m, done) && forall e: Event :: InRange(e, Size(m)) ==> e in done
      ensures forall l: nat, j: nat {:trigger Row(l, j, h)} :: l < model.layers && j < nPast + m ==> Row(l, j, h)
    {
      forall l: nat, j: nat | l < model.layers && j < nPast + m ensures Row(l, j, h) {
        if j >= nPast { assert Did(Append(l, j - nPast), xs, qs, ctx, h, m); }
      }
    }

    /** The per-position buffers of a pass, with the embeddings filled in. */
    method Embed(toks: seq<Token>) returns (xs: array2<X>)
      ensures fresh(xs) && xs.Length0 == model.layers + 1 && xs.Length1 == |toks|
      ensures forall p :: 0 <= p < |toks| ==> xs[0, p] == model.embed(toks[p], nPast + p)
    {
      xs := new X[model.layers + 1, |toks|];
      for p := 0 to |toks|
        invariant forall q :: 0 <= q < p ==> xs[0, q] == model.embed(toks[q], nPast + q)
      {
        xs[0, p] := model.embed(toks[p], nPast + p);
      }
    }

    /** All buffers of a pass that can begin. */
    method Buffers(toks: seq<Token>) returns (xs: array2<X>, qs: array2<Floats>, ctx: array3<Floats>)
      requires Valid() && nPast + |toks| <= maxKv
      ensures fresh(xs) && fresh(qs) && fresh(ctx) && Passing(xs, qs, ctx, hist + toks, |toks|, {})
    {
      xs := Embed(toks);
      qs, ctx := new Floats[model.layers, |toks|], new Floats[model.layers, |toks|, model.heads];
      Starts(xs, qs, ctx, toks);
    }

    /** All rows of history h are in the cache. */
    ghost predicate RowsOf(h: seq<Token>)
      reads this, cache
    {
      && cache.Length0 == model.layers && cache.Length1 == maxKv && |h| <= maxKv
      && forall l: nat, j: nat {:trigger Row(l, j, h)} :: l < model.layers && j < |h| ==> Row(l, j, h)
    }

    /** Everything of a pass but the cursor. */
    method Forward(toks: seq<Token>) returns (outs: seq<Token>)
      requires Valid() && nPast + |toks| <= maxKv
      modifies cache
      ensures RowsOf(hist + toks)
      ensures |outs| == |toks| && forall p :: 0 <= p < |toks| ==> outs[p] == Out(model, hist + toks, nPast + p)
    {
      ghost var h := hist + toks;
      var m := |toks|;
      var xs, qs, ctx := Buffers(toks);
      var sched := PassOrder(Size(m));
      RunPass(xs, qs, ctx, h, m, sched);
      outs := Heads(xs, qs, ctx, h, m, Events(sched));
      AllRows(xs, qs, ctx, h, m, Events(sched));
    }

    /** Feeds m tokens in one pass; aborts on a bad batch size or a full cache. */
    method StepBatch(toks: seq<Token>) returns (r: Result<seq<Token>>)
      requires Valid()
      modifies this, cache
      ensures Valid()
      ensures r.Ok? <==> 1 <= |toks| <= maxBatch && |old(hist)| + |toks| <= maxKv
      ensures r.Ok? ==> hist == old(hist) + toks && |r.value| == |toks|
      ensures r.Ok? ==> forall p :: 0 <= p < |toks| ==> r.value[p] == Out(model, hist, |old(hist)| + p)
      ensures r.Died? ==> hist == old(hist)
    {
      var m := |toks|;
      if m < 1 || m > maxBatch { return Died("bad batch"); }
      if nPast + m > maxKv { return Died("kv full"); }
      var outs := Forward(toks);
      nPast, hist := nPast + m, hist + toks;
      r := Ok(outs);
    }

    /** One token, one pass. */
    method Step(token: Token) returns (r: Result<Token>)
      requires Valid()
      modifies this, cache
      ensures Valid()
      ensures r.Ok? <==> 1 <= maxBatch && |old(hist)| < maxKv
      ensures r.Ok? ==> hist == old(hist) + [token] && r.value == Out(model, hist, |old(hist)|)
      ensures r.Died? ==> hist == old(hist)
    {
      var outs := StepBatch([token]);
      r := if outs.Ok? then Ok(outs.value[0]) else Died(outs.why);
    }
  }

  /**
    A batch in one decoder and the same tokens one by one in another: the same
    outputs and the same cache rows, whatever stale rows the two caches hold.
   */
  method BatchMatchesSteps(a: Decoder, b: Decoder, toks: seq<Token>) returns (batch: seq<Token>, singles: seq<Token>)
    requires a.Valid() && b.Valid() && a != b && a.cache != b.cache && a.model == b.model && a.hist == b.hist
    requires 1 <= |toks| <= a.maxBatch && 1 <= b.maxBatch && |a.hist| + |toks| <= a.maxKv
      && |b.hist| + |toks| <= b.maxKv
    modifies a, a.cache, b, b.cache
    ensures a.Valid() && b.Valid() && a.hist == b.hist == old(a.hist) + toks && batch == singles
    ensures forall l: nat, j: nat :: l < a.model.layers && j < |a.hist| ==> a.cache[l, j] == b.cache[l, j]
  {
    ghost var hist := a.hist;
    var r := a.StepBatch(toks);
    batch, singles := r.value, [];
    assert hist + toks[..0] == hist;
    for p: nat := 0 to |toks|
      invariant a.Valid() && a.hist == hist + toks && |batch| == |toks|
      invariant forall q: nat :: q < |toks| ==> batch[q] == Out(a.model, hist + toks, |hist| + q)
      invariant b.Valid() && b.hist == hist + toks[..p] && |singles| == p && forall q :: 0 <= q < p ==>
        singles[q] == batch[q]
    {
      var s := b.Step(toks[p]);
      assert hist + toks[..p + 1] == (hist + toks[..p]) + [toks[p]];
      BatchIsSingles(a.model, hist, toks, p, 0);
      singles := singles + [s.value];
    }
    assert toks[..|toks|] == toks;
    forall l: nat, j: nat | l < a.model.layers && j < |a.hist| ensures a.cache[l, j] == b.cache[l, j] {
      assert a.Row(l, j, a.hist) && b.Row(l, j, b.hist);
    }
  }
}
