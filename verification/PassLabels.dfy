/**
  What the tasks of a pass are for (src/model/decoder.cpp, build_graph_m).  Every task that
  computes something has a label: its part in the layer, the layer, the position of the batch, and
  where it applies the routed expert and the row tile or attention head.  The buffers it reads say
  which labels have to be finished before it starts.
 */
module PassLabels {
  import opened TaskTypes

  type Count = n: nat | 0 < n witness 1

  /** The steps of a layer, and of the head after the last one. */
  datatype Part =
    // attention
    | Norm | NormQ | Query | KeyValueA | KeyNorm | KeyNormQ | KeyValueB
    | QueryRope | KeyRope | Append | Head | HeadQ | AttnOut
    // feed-forward: the dense one, or the shared expert beside the routed ones
    | Add | FfnNorm | FfnNormQ | Gate | Up | Silu | SiluQ | Down | Merge
    // routed experts
    | Logits | Select | ExpertGate | ExpertUp | ExpertSilu | ExpertSiluQ | ExpertDown
    // after the last layer
    | OutNorm | OutNormQ | Output | End

  /** u is the place of a routed expert among those the position uses; i is a row tile, or an attention head. */
  datatype Label = Label(part: Part, l: nat, p: nat, u: nat, i: nat)

  /** What the model file, the batch and the switches decide; `used` is how many experts a position runs. */
  datatype Plan = Plan(layers: Count, m: Count, dense: nat, heads: Count, multicol: bool, certified: bool,
                       barrier: bool,
                       tiles: (nat, Part) -> Count, used: nat -> Count)

  /** Products with a streamed weight, cut into row tiles. */
  predicate IsDot(part: Part) {
    || part.Query? || part.KeyValueA? || part.KeyValueB? || part.AttnOut? || part.Gate? || part.Up? || part.Down?
    || part.Logits? || part.ExpertGate? || part.ExpertUp? || part.ExpertDown? || part.Output?
  }

  predicate IsExpert(part: Part) {
    part.ExpertGate? || part.ExpertUp? || part.ExpertSilu? || part.ExpertSiluQ? || part.ExpertDown?
  }

  /** Parts of the layers that route. */
  predicate IsRouted(part: Part) { IsExpert(part) || part.Logits? || part.Select? }

  /** Products that the multi-column switch makes one task for all positions of the batch. */
  predicate Shares(plan: Plan, part: Part) { plan.multicol && IsDot(part) && !IsRouted(part) }

  predicate IsLast(part: Part) { part.OutNorm? || part.OutNormQ? || part.Output? || part.End? }

  /** How many tasks a part has at one place. */
  function Width(plan: Plan, part: Part, l: nat): Count {
    if IsDot(part) then plan.tiles(l, part) else if part == Head then plan.heads else 1
  }

  /** The labels of a pass. */
  predicate OfPass(plan: Plan, a: Label) {
    && a.p < plan.m && a.i < Width(plan, a.part, a.l)
    && (if IsLast(a.part) then a.l == plan.layers else a.l < plan.layers)
    && (IsRouted(a.part) ==> plan.dense <= a.l)
    && (if IsExpert(a.part) then a.u < plan.used(a.p) else a.u == 0)
    && (a.part == Output ==> !plan.certified) && (a.part == End ==> a.p == 0)
  }

  function KindFor(part: Part): TaskKind {
    match part
    case Norm | KeyNorm | FfnNorm | OutNorm => RMSNORM
    case NormQ | KeyNormQ | HeadQ | FfnNormQ | SiluQ | ExpertSiluQ | OutNormQ => ACT_Q8
    case Query | KeyValueA | KeyValueB | AttnOut | Gate | Up | Down | Logits | Output => STREAM_DOT
    case ExpertGate | ExpertUp | ExpertDown => STREAM_DOT_IDX
    case QueryRope | KeyRope => ROPE_DS2
    case Append => KV_APPEND
    case Head => ATTN_HEAD
    case Add => ADD2
    case Silu | ExpertSilu => SILU_MUL
    case Merge => WMERGE
    case Select => ROUTER_SEL
    case End => SIGNAL
  }

  // ------------------------------------------------------------ dependencies

  /** All tasks of a part in a layer for the positions lo to hi and the experts from to upto. */
  datatype Group = Group(part: Part, l: nat, lo: nat, hi: nat, from: nat, upto: nat)

  predicate InGroup(plan: Plan, g: Group, c: Label) {
    && c.part == g.part && c.l == g.l && g.lo <= c.p < g.hi && g.from <= c.u < g.upto
    && OfPass(plan, c)
  }

  function At(part: Part, l: nat, p: nat): Group { Group(part, l, p, p + 1, 0, 1) }

  function AtExpert(part: Part, l: nat, p: nat, u: nat): Group { Group(part, l, p, p + 1, u, u + 1) }

  /** The positions below n. */
  function First(part: Part, l: nat, n: nat): Group { Group(part, l, 0, n, 0, 1) }

  /** The residual a position brings into layer l: what the layer below merged, or its embedding. */
  function Residual(l: nat, p: nat): seq<Group> { if l == 0 then [] else [At(Merge, l - 1, p)] }

  /** What has to be finished before a task starts, buffer by buffer. */
  function NeedsOf(plan: Plan, a: Label): seq<Group> {
    var l, p, u := a.l, a.p, a.u;
    match a.part
    case Norm => Residual(l, p)
    case NormQ => [At(Norm, l, p)]
    case Query => [At(NormQ, l, p)]
    case KeyValueA => [At(NormQ, l, p)]
    case KeyNorm => [At(KeyValueA, l, p)]
    case KeyNormQ => [At(KeyNorm, l, p)]
    case KeyValueB => [At(KeyNormQ, l, p)]
    case QueryRope => [At(Query, l, p)]
    case KeyRope => [At(KeyValueA, l, p)]
    case Append => [At(KeyValueB, l, p), At(KeyRope, l, p)]
    case Head => [At(QueryRope, l, p), First(Append, l, p + 1)]
    case HeadQ => [At(Head, l, p)]
    case AttnOut => [At(HeadQ, l, p)]
    case Add => [At(AttnOut, l, p)] + Residual(l, p)
    case FfnNorm => [At(Add, l, p)]
    case FfnNormQ => [At(FfnNorm, l, p)]
    case Gate => [At(FfnNormQ, l, p)]
    case Up => [At(FfnNormQ, l, p)]
    case Silu => [At(Gate, l, p), At(Up, l, p)]
    case SiluQ => [At(Silu, l, p)]
    case Down => [At(SiluQ, l, p)]
    case Merge =>
      if l < plan.dense then [At(Down, l, p), At(Add, l, p)]
      else [Group(ExpertDown, l, p, p + 1, 0, plan.used(p)), At(Down, l, p), At(Add, l, p)]
    case Logits => [At(FfnNorm, l, p)]
    case Select => [At(Logits, l, p)]
    case ExpertGate => [At(FfnNormQ, l, p), Selected(plan, l, p)]
    case ExpertUp => [At(FfnNormQ, l, p), Selected(plan, l, p)]
    case ExpertSilu => [AtExpert(ExpertGate, l, p, u), AtExpert(ExpertUp, l, p, u)]
    case ExpertSiluQ => [AtExpert(ExpertSilu, l, p, u)]
    case ExpertDown => [AtExpert(ExpertSiluQ, l, p, u)]
    case OutNorm => Residual(l, p)
    case OutNormQ => [At(OutNorm, l, p)]
    case Output => [At(OutNormQ, l, p)]
    case End => EndNeeds(plan, l)
  }

  /** The terminal waits for the head, or with certified argmax for the quantized positions themselves. */
  function EndNeeds(plan: Plan, l: nat): (r: seq<Group>)
    ensures |r| == plan.m
  {
    seq(plan.m, p requires 0 <= p < plan.m => At(LastPart(plan), l, p))
  }

  function LastPart(plan: Plan): Part { if plan.certified then OutNormQ else Output }

  /** The selection an expert's products wait for; under the barrier switch those of all positions. */
  function Selected(plan: Plan, l: nat, p: nat): Group {
    if plan.barrier then First(Select, l, plan.m) else At(Select, l, p)
  }

  // ------------------------------------------------------------- build order

  /** The stage of a layer in which a part is built. */
  function StageOf(part: Part): nat {
    match part
    case Norm | NormQ | OutNorm | OutNormQ => 0
    case Query | Output => 1
    case KeyValueA | End => 2
    case KeyNorm | KeyNormQ => 3
    case KeyValueB => 4
    case QueryRope | KeyRope | Append | Head | HeadQ => 5
    case AttnOut => 6
    case Add | FfnNorm | FfnNormQ => 7
    case Logits | Select => 8
    case ExpertGate | ExpertUp | ExpertSilu | ExpertSiluQ | ExpertDown => 9
    case Gate => 10
    case Up => 11
    case Silu | SiluQ => 12
    case Down => 13
    case Merge => 14
  }

  /** Built before stage s of layer l reaches position p and expert u. */
  predicate Earlier(a: Label, l: nat, s: nat, p: nat, u: nat) {
    a.l < l || (a.l == l && (StageOf(a.part) < s || (StageOf(a.part) == s && (a.p < p || (a.p == p && a.u < u)))))
  }
}
