/**
  What the graph of a verify batch guarantees about any execution of it (src/model/decoder.cpp,
  build_graph_m): which tasks come before which in the built graph, relays included, said of the
  tasks one by one; and that a pass in whatever order the runtime picks is one the decoder's cache
  admits.
 */
module DecodeOrder {
  import opened DecodeGraph
  import opened GraphBuilder
  import opened GraphOps
  import opened PassLabels
  import opened PortedGraph
  import opened TaskGraph
  import opened TaskTypes
  import D = Decoder

  /** What was requested to come before something does so in the graph, relays included. */
  ghost predicate OrderKept(b: Build) {
    forall x: nat, y: nat {:trigger Ordered(b, x, y)} :: Ordered(b, x, y) ==> Before(b.g, x, y)
  }

  /** The tasks of a pass, in a graph as the builder leaves it. */
  ghost predicate InGraph(plan: Plan, b: Build, at: Labels) { OrderKept(b) && PassOk(plan, b, at) }

  lemma BuiltIsInGraph(plan: Plan, b: Build, at: Labels)
    requires GraphBuilder.Inv(b) && PassOk(plan, b, at)
    ensures InGraph(plan, b, at)
  {
    forall x: nat, y: nat | Ordered(b, x, y) ensures Before(b.g, x, y) { OrderIsRequested(b, x, y); }
  }

  /** c's task is of its kind and comes before a's, which is of its kind too. */
  ghost predicate Comes(b: Build, at: Labels, c: Label, ck: TaskKind, a: Label, ak: TaskKind) {
    c in at && a in at && IsA(b, at[c], ck) && IsA(b, at[a], ak) && Before(b.g, at[c], at[a])
  }

  /** c is the k-th of what a needs, or one of those if they are several. */
  predicate Needs(plan: Plan, c: Label, a: Label, k: nat) {
    OfPass(plan, a) && k < |NeedsOf(plan, a)| && InGroup(plan, NeedsOf(plan, a)[k], c)
  }

  /** What a label needs comes before it. */
  lemma NeedComes(plan: Plan, b: Build, at: Labels, c: Label, ck: TaskKind, a: Label, ak: TaskKind, k: nat)
    requires InGraph(plan, b, at) && Needs(plan, c, a, k) && ck == KindFor(c.part) && ak == KindFor(a.part)
    ensures Comes(b, at, c, ck, a, ak)
  {
    assert a in at && c in at;
    assert TaskOk(plan, b, at, a, at[a]) && TaskOk(plan, b, at, c, at[c]);
    assert Follows(plan, b, at, NeedsOf(plan, a)[k], at[a]);
    assert Ordered(b, at[c], at[a]);
  }

  lemma ComesThrough(b: Build, at: Labels, c: Label, d: Label, a: Label, ck: TaskKind, dk: TaskKind, ak: TaskKind)
    requires Comes(b, at, c, ck, d, dk) && Comes(b, at, d, dk, a, ak)
    ensures Comes(b, at, c, ck, a, ak)
  {
    BeforeTransitive(b.g, at[c], at[d], at[a]);
  }

  /** Two labels of the same layer and position. */
  predicate Beside(c: Label, a: Label) { c.l == a.l && c.p == a.p }

  /**
    No task does two things, but for the products under the multi-column switch: there a row tile is one
    task for all positions, so a pass streams those weights once, and otherwise once for each position.
   */
  lemma StreamedOnce(plan: Plan, b: Build, at: Labels, a: Label, c: Label)
    requires PassOk(plan, b, at) && OfPass(plan, a) && OfPass(plan, c)
    ensures a in at && c in at
    ensures at[a] == at[c] <==> a == c || (plan.multicol && IsDot(a.part) && !IsRouted(a.part) && c == a.(p := c.p))
  {
    assert TaskOk(plan, b, at, a, at[a]);
    assert at[a] == at[c] ==> SameTask(plan, a, c);
    if Shares(plan, a.part) { assert Elsewhere(a, c.p) in at && at[Elsewhere(a, c.p)] == at[a]; }
  }

  // ------------------------------------------------------- products and norms

  /** What a product multiplies its weight with. */
  function Input(part: Part): Part
    requires IsDot(part)
  {
    match part
    case Query | KeyValueA => NormQ
    case KeyValueB => KeyNormQ
    case AttnOut => HeadQ
    case Gate | Up | ExpertGate | ExpertUp => FfnNormQ
    case Down => SiluQ
    case ExpertDown => ExpertSiluQ
    case Logits => FfnNorm
    case Output => OutNormQ
  }

  /** Every row tile of a product comes after its input, which but for the router's is a quantized one. */
  lemma ProductsReadInput(plan: Plan, b: Build, at: Labels, c: Label, a: Label)
    requires InGraph(plan, b, at) && OfPass(plan, a) && OfPass(plan, c) && Beside(c, a) && IsDot(a.part)
    requires c.part == Input(a.part) && (a.part == ExpertDown ==> c.u == a.u)
    ensures Comes(b, at, c, if a.part == Logits then RMSNORM else ACT_Q8, a,
                  if IsExpert(a.part) then STREAM_DOT_IDX else STREAM_DOT)
  {
    InputNeeded(plan, c, a);
    ProductKinds(a.part);
    NeedComes(plan, b, at, c, KindFor(c.part), a, KindFor(a.part), 0);
  }

  lemma ProductKinds(part: Part)
    requires IsDot(part)
    ensures KindFor(Input(part)) == if part == Logits then RMSNORM else ACT_Q8
    ensures KindFor(part) == if IsExpert(part) then STREAM_DOT_IDX else STREAM_DOT
  {}

  lemma InputNeeded(plan: Plan, c: Label, a: Label)
    requires OfPass(plan, a) && OfPass(plan, c) && Beside(c, a) && IsDot(a.part)
    requires c.part == Input(a.part) && (a.part == ExpertDown ==> c.u == a.u)
    ensures Needs(plan, c, a, 0)
  {}

  /** An ACT_Q8 and what it quantizes. */
  predicate Quantized(op: Part, quant: Part) {
    match quant
    case NormQ => op == Norm
    case KeyNormQ => op == KeyNorm
    case HeadQ => op == Head
    case FfnNormQ => op == FfnNorm
    case SiluQ => op == Silu
    case ExpertSiluQ => op == ExpertSilu
    case OutNormQ => op == OutNorm
    case _ => false
  }

  /** A quantization comes after what it quantizes: all heads of its position, the right expert. */
  lemma QuantizedAfter(plan: Plan, b: Build, at: Labels, c: Label, a: Label)
    requires InGraph(plan, b, at) && OfPass(plan, a) && OfPass(plan, c) && Beside(c, a) && c.u == a.u
    requires Quantized(c.part, a.part)
    ensures Comes(b, at, c, KindFor(c.part), a, ACT_Q8)
  {
    QuantNeeded(plan, c, a);
    NeedComes(plan, b, at, c, KindFor(c.part), a, KindFor(a.part), 0);
  }

  lemma QuantNeeded(plan: Plan, c: Label, a: Label)
    requires OfPass(plan, a) && OfPass(plan, c) && Beside(c, a) && c.u == a.u && Quantized(c.part, a.part)
    ensures Needs(plan, c, a, 0)
  {}

  // --------------------------------------------------------------- attention

  /** The rotations and the latent row's norm come after all tiles of the projection they read. */
  lemma ProjectedFirst(plan: Plan, b: Build, at: Labels, c: Label, a: Label)
    requires InGraph(plan, b, at) && OfPass(plan, a) && OfPass(plan, c) && Beside(c, a)
    requires (c.part == Query && a.part == QueryRope)
      || (c.part == KeyValueA && (a.part == KeyRope || a.part == KeyNorm))
    ensures Comes(b, at, c, STREAM_DOT, a, if a.part == KeyNorm then RMSNORM else ROPE_DS2)
  {
    NeedComes(plan, b, at, c, STREAM_DOT, a, KindFor(a.part), 0);
  }

  /** Every head of a position comes after the rotation of the position's query. */
  lemma HeadsUseRotatedQuery(plan: Plan, b: Build, at: Labels, c: Label, a: Label)
    requires InGraph(plan, b, at) && OfPass(plan, a) && OfPass(plan, c) && Beside(c, a)
    requires c.part == QueryRope && a.part == Head
    ensures Comes(b, at, c, ROPE_DS2, a, ATTN_HEAD)
  {
    NeedComes(plan, b, at, c, ROPE_DS2, a, ATTN_HEAD, 0);
  }

  /** Every head of position p comes after the appends of positions 0 to p. */
  lemma HeadsWaitForAppends(plan: Plan, b: Build, at: Labels, c: Label, a: Label)
    requires InGraph(plan, b, at) && OfPass(plan, a) && OfPass(plan, c) && c.l == a.l && c.p <= a.p
    requires c.part == Append && a.part == Head
    ensures Comes(b, at, c, KV_APPEND, a, ATTN_HEAD)
  {
    NeedComes(plan, b, at, c, KV_APPEND, a, ATTN_HEAD, 1);
  }

  /** A row is appended after both its parts: the expanded keys and values, every tile of them, and the rotated key. */
  lemma AppendsAreComplete(plan: Plan, b: Build, at: Labels, c: Label, a: Label)
    requires InGraph(plan, b, at) && OfPass(plan, a) && OfPass(plan, c) && Beside(c, a)
    requires (c.part == KeyValueB || c.part == KeyRope) && a.part == Append
    ensures Comes(b, at, c, if c.part == KeyRope then ROPE_DS2 else STREAM_DOT, a, KV_APPEND)
  {
    NeedComes(plan, b, at, c, KindFor(c.part), a, KV_APPEND, if c.part == KeyRope then 1 else 0);
  }

  // ------------------------------------------------------------- feed-forward

  /** The sum after attention reads all of the output projection, and the feed-forward's norm reads the sum. */
  lemma SumAfterAttention(plan: Plan, b: Build, at: Labels, c: Label, a: Label)
    requires InGraph(plan, b, at) && OfPass(plan, a) && OfPass(plan, c) && Beside(c, a)
    requires (c.part == AttnOut && a.part == Add) || (c.part == Add && a.part == FfnNorm)
    ensures Comes(b, at, c, if c.part == Add then ADD2 else STREAM_DOT, a, if a.part == Add then ADD2 else RMSNORM)
  {
    NeedComes(plan, b, at, c, KindFor(c.part), a, KindFor(a.part), 0);
  }

  /** SILU_MUL comes after all tiles of its gate and its up, of the dense or shared products or of its own expert. */
  lemma SiluWaitsForBoth(plan: Plan, b: Build, at: Labels, c: Label, a: Label)
    requires InGraph(plan, b, at) && OfPass(plan, a) && OfPass(plan, c) && Beside(c, a) && c.u == a.u
    requires ((c.part == Gate || c.part == Up) && a.part == Silu)
             || ((c.part == ExpertGate || c.part == ExpertUp) && a.part == ExpertSilu)
    ensures Comes(b, at, c, if a.part == Silu then STREAM_DOT else STREAM_DOT_IDX, a, SILU_MUL)
  {
    SiluNeeds(plan, c, a);
    NeedComes(plan, b, at, c, KindFor(c.part), a, SILU_MUL, if c.part == Gate || c.part == ExpertGate then 0 else 1);
  }

  lemma SiluNeeds(plan: Plan, c: Label, a: Label)
    requires OfPass(plan, a) && OfPass(plan, c) && Beside(c, a) && c.u == a.u
    requires ((c.part == Gate || c.part == Up) && a.part == Silu)
             || ((c.part == ExpertGate || c.part == ExpertUp) && a.part == ExpertSilu)
    ensures Needs(plan, c, a, if c.part == Gate || c.part == ExpertGate then 0 else 1)
  {}

  /** ROUTER_SEL reads all of its position's logits. */
  lemma SelectionReadsLogits(plan: Plan, b: Build, at: Labels, c: Label, a: Label)
    requires InGraph(plan, b, at) && OfPass(plan, a) && OfPass(plan, c) && Beside(c, a)
    requires c.part == Logits && a.part == Select
    ensures Comes(b, at, c, STREAM_DOT, a, ROUTER_SEL)
  {
    NeedComes(plan, b, at, c, STREAM_DOT, a, ROUTER_SEL, 0);
  }

  /** A routed product comes after the selection that says which expert it is, under the barrier switch after all. */
  lemma ExpertsAreSelected(plan: Plan, b: Build, at: Labels, c: Label, a: Label)
    requires InGraph(plan, b, at) && OfPass(plan, a) && OfPass(plan, c) && c.l == a.l && (c.p == a.p || plan.barrier)
    requires c.part == Select && (a.part == ExpertGate || a.part == ExpertUp)
    ensures Comes(b, at, c, ROUTER_SEL, a, STREAM_DOT_IDX)
  {
    NeedComes(plan, b, at, c, ROUTER_SEL, a, STREAM_DOT_IDX, 1);
  }

  // -------------------------------------------------------- layers and the head

  /** A layer's merge reads its down projection, all routed experts' and the sum after attention. */
  lemma MergeIsLast(plan: Plan, b: Build, at: Labels, c: Label, a: Label)
    requires InGraph(plan, b, at) && OfPass(plan, a) && OfPass(plan, c) && Beside(c, a)
    requires (c.part == Down || c.part == ExpertDown || c.part == Add) && a.part == Merge
    ensures Comes(b, at, c, if c.part == Add then ADD2 else if c.part == Down then STREAM_DOT else STREAM_DOT_IDX, a,
      WMERGE)
  {
    var k := if c.part == ExpertDown then 0 else if c.part == Down then 1 else 2;
    NeedComes(plan, b, at, c, KindFor(c.part), a, WMERGE, if a.l < plan.dense then k - 1 else k);
  }

  /** Both uses of a residual, by the norm and by the sum after attention, come after the layer below merged it. */
  lemma ResidualIsMerged(plan: Plan, b: Build, at: Labels, c: Label, a: Label)
    requires InGraph(plan, b, at) && OfPass(plan, a) && OfPass(plan, c) && c.l + 1 == a.l && c.p == a.p
    requires c.part == Merge && (a.part == Norm || a.part == Add || a.part == OutNorm)
    ensures Comes(b, at, c, WMERGE, a, if a.part == Add then ADD2 else RMSNORM)
  {
    NeedComes(plan, b, at, c, WMERGE, a, KindFor(a.part), if a.part == Add then 1 else 0);
  }

  /** The run ends after the head's products of every position; with certified argmax, after every quantized norm. */
  lemma EndIsLast(plan: Plan, b: Build, at: Labels, c: Label, a: Label)
    requires InGraph(plan, b, at) && OfPass(plan, a) && OfPass(plan, c) && a.part == End
    requires c.part == if plan.certified then OutNormQ else Output
    ensures Comes(b, at, c, if plan.certified then ACT_Q8 else STREAM_DOT, a, SIGNAL)
  {
    NeedComes(plan, b, at, c, KindFor(c.part), a, SIGNAL, c.p);
  }

  // ------------------------------------------------------- the events of a pass

  function Size(plan: Plan): D.Dims { D.Dims(plan.layers, plan.m, plan.heads) }

  /** The task that ends an event: a query is there when it is rotated. */
  function EventLabel(e: D.Event): Label {
    match e
    case Query(l, p) => Label(QueryRope, l, p, 0, 0)
    case Append(l, p) => Label(Append, l, p, 0, 0)
    case Head(l, p, h) => Label(Head, l, p, 0, h)
    case Merge(l, p) => Label(Merge, l, p, 0, 0)
  }

  function EventKind(e: D.Event): TaskKind { KindFor(EventLabel(e).part) }

  ghost predicate First(b: Build, at: Labels, f: D.Event, e: D.Event) {
    Comes(b, at, EventLabel(f), EventKind(f), EventLabel(e), EventKind(e))
  }

  lemma FirstThrough(b: Build, at: Labels, f: D.Event, d: D.Event, e: D.Event)
    requires First(b, at, f, d) && First(b, at, d, e)
    ensures First(b, at, f, e)
  {
    ComesThrough(b, at, EventLabel(f), EventLabel(d), EventLabel(e), EventKind(f), EventKind(d), EventKind(e));
  }

  lemma MergeToNorm(plan: Plan, b: Build, at: Labels, l: nat, p: nat)
    requires InGraph(plan, b, at) && l + 1 < plan.layers && p < plan.m
    ensures Comes(b, at, Label(Merge, l, p, 0, 0), WMERGE, Label(Norm, l + 1, p, 0, 0), RMSNORM)
  {
    ResidualIsMerged(plan, b, at, Label(Merge, l, p, 0, 0), Label(Norm, l + 1, p, 0, 0));
  }

  lemma NormToQuant(plan: Plan, b: Build, at: Labels, l: nat, p: nat)
    requires InGraph(plan, b, at) && l < plan.layers && p < plan.m
    ensures Comes(b, at, Label(Norm, l, p, 0, 0), RMSNORM, Label(NormQ, l, p, 0, 0), ACT_Q8)
  {
    QuantizedAfter(plan, b, at, Label(Norm, l, p, 0, 0), Label(NormQ, l, p, 0, 0));
  }

  lemma QuantToProjection(plan: Plan, b: Build, at: Labels, l: nat, p: nat, part: Part)
    requires InGraph(plan, b, at) && l < plan.layers && p < plan.m && (part == Query || part == KeyValueA)
    ensures Comes(b, at, Label(NormQ, l, p, 0, 0), ACT_Q8, Label(part, l, p, 0, 0), STREAM_DOT)
  {
    ProductsReadInput(plan, b, at, Label(NormQ, l, p, 0, 0), Label(part, l, p, 0, 0));
  }

  lemma QueryToRope(plan: Plan, b: Build, at: Labels, l: nat, p: nat)
    requires InGraph(plan, b, at) && l < plan.layers && p < plan.m
    ensures Comes(b, at, Label(Query, l, p, 0, 0), STREAM_DOT, Label(QueryRope, l, p, 0, 0), ROPE_DS2)
  {
    ProjectedFirst(plan, b, at, Label(Query, l, p, 0, 0), Label(QueryRope, l, p, 0, 0));
  }

  lemma KeyToRope(plan: Plan, b: Build, at: Labels, l: nat, p: nat)
    requires InGraph(plan, b, at) && l < plan.layers && p < plan.m
    ensures Comes(b, at, Label(KeyValueA, l, p, 0, 0), STREAM_DOT, Label(KeyRope, l, p, 0, 0), ROPE_DS2)
  {
    ProjectedFirst(plan, b, at, Label(KeyValueA, l, p, 0, 0), Label(KeyRope, l, p, 0, 0));
  }

  lemma RopeToAppend(plan: Plan, b: Build, at: Labels, l: nat, p: nat)
    requires InGraph(plan, b, at) && l < plan.layers && p < plan.m
    ensures Comes(b, at, Label(KeyRope, l, p, 0, 0), ROPE_DS2, Label(Append, l, p, 0, 0), KV_APPEND)
  {
    AppendsAreComplete(plan, b, at, Label(KeyRope, l, p, 0, 0), Label(Append, l, p, 0, 0));
  }

  lemma HeadToQuant(plan: Plan, b: Build, at: Labels, l: nat, p: nat, h: nat)
    requires InGraph(plan, b, at) && l < plan.layers && p < plan.m && h < plan.heads
    ensures Comes(b, at, Label(Head, l, p, 0, h), ATTN_HEAD, Label(HeadQ, l, p, 0, 0), ACT_Q8)
  {
    QuantizedAfter(plan, b, at, Label(Head, l, p, 0, h), Label(HeadQ, l, p, 0, 0));
  }

  lemma QuantToOut(plan: Plan, b: Build, at: Labels, l: nat, p: nat)
    requires InGraph(plan, b, at) && l < plan.layers && p < plan.m
    ensures Comes(b, at, Label(HeadQ, l, p, 0, 0), ACT_Q8, Label(AttnOut, l, p, 0, 0), STREAM_DOT)
  {
    ProductsReadInput(plan, b, at, Label(HeadQ, l, p, 0, 0), Label(AttnOut, l, p, 0, 0));
  }

  lemma OutToAdd(plan: Plan, b: Build, at: Labels, l: nat, p: nat)
    requires InGraph(plan, b, at) && l < plan.layers && p < plan.m
    ensures Comes(b, at, Label(AttnOut, l, p, 0, 0), STREAM_DOT, Label(Add, l, p, 0, 0), ADD2)
  {
    SumAfterAttention(plan, b, at, Label(AttnOut, l, p, 0, 0), Label(Add, l, p, 0, 0));
  }

  lemma AddToMerge(plan: Plan, b: Build, at: Labels, l: nat, p: nat)
    requires InGraph(plan, b, at) && l < plan.layers && p < plan.m
    ensures Comes(b, at, Label(Add, l, p, 0, 0), ADD2, Label(Merge, l, p, 0, 0), WMERGE)
  {
    MergeIsLast(plan, b, at, Label(Add, l, p, 0, 0), Label(Merge, l, p, 0, 0));
  }

  /** The layer below comes before a position's quantized norm. */
  lemma BelowNorm(plan: Plan, b: Build, at: Labels, l: nat, p: nat)
    requires InGraph(plan, b, at) && l + 1 < plan.layers && p < plan.m
    ensures Comes(b, at, Label(Merge, l, p, 0, 0), WMERGE, Label(NormQ, l + 1, p, 0, 0), ACT_Q8)
  {
    var m, n, q := Label(Merge, l, p, 0, 0), Label(Norm, l + 1, p, 0, 0), Label(NormQ, l + 1, p, 0, 0);
    MergeToNorm(plan, b, at, l, p);
    NormToQuant(plan, b, at, l + 1, p);
    ComesThrough(b, at, m, n, q, WMERGE, RMSNORM, ACT_Q8);
  }

  lemma BelowProjection(plan: Plan, b: Build, at: Labels, l: nat, p: nat, part: Part)
    requires InGraph(plan, b, at) && l + 1 < plan.layers && p < plan.m && (part == Query || part == KeyValueA)
    ensures Comes(b, at, Label(Merge, l, p, 0, 0), WMERGE, Label(part, l + 1, p, 0, 0), STREAM_DOT)
  {
    BelowNorm(plan, b, at, l, p);
    QuantToProjection(plan, b, at, l + 1, p, part);
    ComesThrough(b, at, Label(Merge, l, p, 0, 0), Label(NormQ, l + 1, p, 0, 0), Label(part, l + 1, p, 0, 0), WMERGE,
                 ACT_Q8, STREAM_DOT);
  }

  lemma BelowQuery(plan: Plan, b: Build, at: Labels, l: nat, p: nat)
    requires InGraph(plan, b, at) && l + 1 < plan.layers && p < plan.m
    ensures First(b, at, D.Merge(l, p), D.Query(l + 1, p))
  {
    var m, q, r := Label(Merge, l, p, 0, 0), Label(Query, l + 1, p, 0, 0), Label(QueryRope, l + 1, p, 0, 0);
    BelowProjection(plan, b, at, l, p, Query);
    QueryToRope(plan, b, at, l + 1, p);
    ComesThrough(b, at, m, q, r, WMERGE, STREAM_DOT, ROPE_DS2);
  }

  lemma BelowKeyRope(plan: Plan, b: Build, at: Labels, l: nat, p: nat)
    requires InGraph(plan, b, at) && l + 1 < plan.layers && p < plan.m
    ensures Comes(b, at, Label(Merge, l, p, 0, 0), WMERGE, Label(KeyRope, l + 1, p, 0, 0), ROPE_DS2)
  {
    var m, k, r := Label(Merge, l, p, 0, 0), Label(KeyValueA, l + 1, p, 0, 0), Label(KeyRope, l + 1, p, 0, 0);
    BelowProjection(plan, b, at, l, p, KeyValueA);
    KeyToRope(plan, b, at, l + 1, p);
    ComesThrough(b, at, m, k, r, WMERGE, STREAM_DOT, ROPE_DS2);
  }

  lemma BelowAppend(plan: Plan, b: Build, at: Labels, l: nat, p: nat)
    requires InGraph(plan, b, at) && l + 1 < plan.layers && p < plan.m
    ensures First(b, at, D.Merge(l, p), D.Append(l + 1, p))
  {
    var m, r, a := Label(Merge, l, p, 0, 0), Label(KeyRope, l + 1, p, 0, 0), Label(Append, l + 1, p, 0, 0);
    BelowKeyRope(plan, b, at, l, p);
    RopeToAppend(plan, b, at, l + 1, p);
    ComesThrough(b, at, m, r, a, WMERGE, ROPE_DS2, KV_APPEND);
  }

  lemma HeadToOut(plan: Plan, b: Build, at: Labels, l: nat, p: nat, h: nat)
    requires InGraph(plan, b, at) && l < plan.layers && p < plan.m && h < plan.heads
    ensures Comes(b, at, Label(Head, l, p, 0, h), ATTN_HEAD, Label(AttnOut, l, p, 0, 0), STREAM_DOT)
  {
    HeadToQuant(plan, b, at, l, p, h);
    QuantToOut(plan, b, at, l, p);
    ComesThrough(b, at, Label(Head, l, p, 0, h), Label(HeadQ, l, p, 0, 0), Label(AttnOut, l, p, 0, 0), ATTN_HEAD,
                 ACT_Q8, STREAM_DOT);
  }

  lemma HeadToAdd(plan: Plan, b: Build, at: Labels, l: nat, p: nat, h: nat)
    requires InGraph(plan, b, at) && l < plan.layers && p < plan.m && h < plan.heads
    ensures Comes(b, at, Label(Head, l, p, 0, h), ATTN_HEAD, Label(Add, l, p, 0, 0), ADD2)
  {
    HeadToOut(plan, b, at, l, p, h);
    OutToAdd(plan, b, at, l, p);
    ComesThrough(b, at, Label(Head, l, p, 0, h), Label(AttnOut, l, p, 0, 0), Label(Add, l, p, 0, 0), ATTN_HEAD,
                 STREAM_DOT, ADD2);
  }

  lemma HeadMerged(plan: Plan, b: Build, at: Labels, l: nat, p: nat, h: nat)
    requires InGraph(plan, b, at) && l < plan.layers && p < plan.m && h < plan.heads
    ensures First(b, at, D.Head(l, p, h), D.Merge(l, p))
  {
    HeadToAdd(plan, b, at, l, p, h);
    AddToMerge(plan, b, at, l, p);
    ComesThrough(b, at, Label(Head, l, p, 0, h), Label(Add, l, p, 0, 0), Label(Merge, l, p, 0, 0), ATTN_HEAD, ADD2,
                 WMERGE);
  }

  lemma QueryBeforeHead(plan: Plan, b: Build, at: Labels, l: nat, p: nat, h: nat)
    requires InGraph(plan, b, at) && l < plan.layers && p < plan.m && h < plan.heads
    ensures First(b, at, D.Query(l, p), D.Head(l, p, h))
  {
    HeadsUseRotatedQuery(plan, b, at, Label(QueryRope, l, p, 0, 0), Label(Head, l, p, 0, h));
  }

  lemma AppendBeforeHead(plan: Plan, b: Build, at: Labels, l: nat, q: nat, p: nat, h: nat)
    requires InGraph(plan, b, at) && l < plan.layers && q <= p < plan.m && h < plan.heads
    ensures First(b, at, D.Append(l, q), D.Head(l, p, h))
  {
    HeadsWaitForAppends(plan, b, at, Label(Append, l, q, 0, 0), Label(Head, l, p, 0, h));
  }

  lemma BelowHead(plan: Plan, b: Build, at: Labels, l: nat, p: nat, h: nat)
    requires InGraph(plan, b, at) && l + 1 < plan.layers && p < plan.m && h < plan.heads
    ensures First(b, at, D.Merge(l, p), D.Head(l + 1, p, h))
  {
    BelowQuery(plan, b, at, l, p);
    QueryBeforeHead(plan, b, at, l + 1, p, h);
    FirstThrough(b, at, D.Merge(l, p), D.Query(l + 1, p), D.Head(l + 1, p, h));
  }

  lemma BelowMerge(plan: Plan, b: Build, at: Labels, l: nat, p: nat)
    requires InGraph(plan, b, at) && l + 1 < plan.layers && p < plan.m
    ensures First(b, at, D.Merge(l, p), D.Merge(l + 1, p))
  {
    BelowHead(plan, b, at, l, p, 0);
    HeadMerged(plan, b, at, l + 1, p, 0);
    FirstThrough(b, at, D.Merge(l, p), D.Head(l + 1, p, 0), D.Merge(l + 1, p));
  }

  /** The layer below comes first for every event of a position. */
  lemma BelowFirst(plan: Plan, b: Build, at: Labels, l: nat, p: nat, e: D.Event)
    requires InGraph(plan, b, at) && D.InRange(e, Size(plan)) && e.l == l + 1 && e.p == p
    ensures First(b, at, D.Merge(l, p), e)
  {
    match e
    case Query(_, _) => BelowQuery(plan, b, at, l, p);
    case Append(_, _) => BelowAppend(plan, b, at, l, p);
    case Head(_, _, h) => BelowHead(plan, b, at, l, p, h);
    case Merge(_, _) => BelowMerge(plan, b, at, l, p);
  }

  /** What an event waits for comes before it in the built graph. */
  lemma DepsComeBefore(plan: Plan, b: Build, at: Labels, f: D.Event, e: D.Event)
    requires InGraph(plan, b, at) && D.InRange(f, Size(plan)) && D.InRange(e, Size(plan)) && D.WaitsFor(e, f)
    ensures First(b, at, f, e)
  {
    match f
    case Merge(l, p) => BelowFirst(plan, b, at, l, p, e);
    case Query(l, p) => QueryBeforeHead(plan, b, at, l, p, e.h);
    case Append(l, q) => AppendBeforeHead(plan, b, at, l, q, e.p, e.h);
    case Head(l, p, h) => HeadMerged(plan, b, at, l, p, h);
  }

  ghost predicate IsEventTask(plan: Plan, at: Labels, id: nat, e: D.Event) {
    D.InRange(e, Size(plan)) && EventLabel(e) in at && at[EventLabel(e)] == id
  }

  /** No task is two events. */
  lemma EventsApart(plan: Plan, b: Build, at: Labels, id: nat, e: D.Event, f: D.Event)
    requires Lawful(plan, b, at) && IsEventTask(plan, at, id, e) && IsEventTask(plan, at, id, f)
    ensures e == f
  {
    var x, y := EventLabel(e), EventLabel(f);
    assert at[x] == at[y] && SameTask(plan, x, y);
  }

  /** The events among the tasks of an order, in that order. */
  ghost function Project(plan: Plan, at: Labels, order: seq<nat>): seq<D.Event>
    decreases |order|
  {
    if order == [] then []
    else
      var n := |order| - 1;
      var before := Project(plan, at, order[..n]);
      if e :| IsEventTask(plan, at, order[n], e) then before + [e] else before
  }

  lemma {:induction false} EventsOf(plan: Plan, b: Build, at: Labels, order: seq<nat>, e: D.Event)
    requires PassOk(plan, b, at) && D.InRange(e, Size(plan))
    ensures EventLabel(e) in at && (e in Project(plan, at, order) <==> at[EventLabel(e)] in order)
    decreases |order|
  {
    assert OfPass(plan, EventLabel(e));
    if order != [] {
      var k := |order| - 1;
      EventsOf(plan, b, at, order[..k], e);
      assert order == order[..k] + [order[k]];
      var s, before := Project(plan, at, order), Project(plan, at, order[..k]);
      if f :| IsEventTask(plan, at, order[k], f) {
        var last := s[|s| - 1];
        assert s == before + [last] && IsEventTask(plan, at, order[k], last);
        if at[EventLabel(e)] == order[k] { EventsApart(plan, b, at, order[k], e, last); }
      } else {
        assert s == before && !IsEventTask(plan, at, order[k], e);
      }
    }
  }

  /** An event's dependencies are done when its task's turn comes in an order that respects the graph. */
  lemma DepsDone(plan: Plan, b: Build, at: Labels, order: seq<nat>, k: nat, e: D.Event)
    requires InGraph(plan, b, at) && Linear(b.g, order) && k < |order| && IsEventTask(plan, at, order[k], e)
    ensures D.DepsIn(e, Size(plan), D.Events(Project(plan, at, order[..k])))
  {
    var done := D.Events(Project(plan, at, order[..k]));
    forall f: D.Event | D.InRange(f, Size(plan)) && D.WaitsFor(e, f) ensures f in done {
      DepsComeBefore(plan, b, at, f, e);
      var len :| Walk(b.g, at[EventLabel(f)], order[k], len);
      LinearWalk(b.g, order, at[EventLabel(f)], k, len);
      EventsOf(plan, b, at, order[..k], f);
    }
  }

  lemma {:induction false} ProjectsInOrder(plan: Plan, b: Build, at: Labels, order: seq<nat>, k: nat, i: nat)
    requires InGraph(plan, b, at) && Linear(b.g, order) && k <= |order| && i < |Project(plan, at, order[..k])|
    ensures var s := Project(plan, at, order[..k]);
            D.InRange(s[i], Size(plan)) && D.DepsIn(s[i], Size(plan), D.Events(s[..i]))
    decreases k
  {
    if k > 0 {
      assert order[..k][..k - 1] == order[..k - 1];
      var s, t := Project(plan, at, order[..k]), Project(plan, at, order[..k - 1]);
      if i < |t| {
        ProjectsInOrder(plan, b, at, order, k - 1, i);
        assert s[..i] == t[..i];
      } else {
        assert s[..i] == t;
        DepsDone(plan, b, at, order, k - 1, s[i]);
      }
    }
  }

  /**
    In whatever order the runtime executes the built graph, its rotated queries, appends, head reads
    and merges come in an order a pass admits.
   */
  lemma AnyOrderIsAdmitted(plan: Plan, b: Build, at: Labels, order: seq<nat>)
    requires GraphBuilder.Inv(b) && PassOk(plan, b, at) && Topological(b.g, order)
    ensures D.Admitted(Project(plan, at, order), Size(plan))
  {
    BuiltIsInGraph(plan, b, at);
    InOrder(plan, b, at, order);
    forall e: D.Event | D.InRange(e, Size(plan)) ensures e in Project(plan, at, order) {
      EventsOf(plan, b, at, order, e);
      assert TaskOk(plan, b, at, EventLabel(e), at[EventLabel(e)]);
    }
  }

  lemma InOrder(plan: Plan, b: Build, at: Labels, order: seq<nat>)
    requires InGraph(plan, b, at) && Linear(b.g, order)
    ensures D.InOrder(Project(plan, at, order), Size(plan))
  {
    var s := Project(plan, at, order);
    assert order[..|order|] == order;
    forall i | 0 <= i < |s| ensures D.InRange(s[i], Size(plan)) && D.DepsIn(s[i], Size(plan), D.Events(s[..i])) {
      ProjectsInOrder(plan, b, at, order, |order|, i);
    }
  }
}
