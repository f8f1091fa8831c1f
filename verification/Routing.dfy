/**
  Which queue a task is published to and who pops it
  (src/runtime/runtime_internal.h, the claim orders of runtime.cpp and
  gpu_exec.cu).
 */
module Routing {
  import opened Arithmetic
  import opened TaskTypes

  datatype TaskInfo = TaskInfo(kind: TaskKind, fmt: Fmt, affinity: Engine)

  datatype Config = Config(gpu: bool, perblock: bool, chunk: nat, noSteal: bool, blocks: nat, cpus: nat, batch: nat)

  const GPU_MAX_BATCH := 16

  /** What the Runtime constructor and gpu_start establish; a pool of no CPU workers is accepted. */
  predicate ConfigOk(c: Config) {
    (c.perblock ==> c.gpu) && (c.gpu <==> 0 < c.blocks) && 1 <= c.batch <= GPU_MAX_BATCH
  }

  datatype QueueId = Shared(i: nat) | Ring(b: nat)

  function TaskQueue(t: TaskInfo, gpu: bool): (q: nat)
    ensures q < 4
    ensures q == 3 ==> gpu
  {
    if IsOp(t.kind) then 2
    else if IsCodebook(t.fmt) then if gpu then 3 else 1
    else if t.affinity == GPU then 0
    else if t.affinity == CPU then 1
    else if gpu then 0 else 1
  }

  /** Where fl_publish pushes task id. */
  function Destination(c: Config, t: TaskInfo, id: nat, fromGpu: bool): QueueId {
    var q := TaskQueue(t, if fromGpu then true else c.gpu);
    var nb := if c.perblock then c.blocks else 0;
    if q == 0 && nb > 0 then Ring((id / (if c.chunk > 0 then c.chunk else 1)) % nb) else Shared(q)
  }

  /** A tile the GPU's blocks share out: neither a decode op nor a codebook tile nor bound to the CPU. */
  predicate ForBlocks(c: Config, t: TaskInfo) {
    c.gpu && !IsOp(t.kind) && !IsCodebook(t.fmt) && t.affinity != CPU
  }

  /**
    The blocks' rings take turns: the tasks of one chunk of ids share a ring, the next chunk has
    the next ring, and after the last comes the first.  Nothing else goes to a ring.
   */
  lemma RoundRobin(c: Config, t: TaskInfo, m: nat, i: nat, fromGpu: bool)
    requires ConfigOk(c) && i < (if c.chunk == 0 then 1 else c.chunk)
    ensures var id := m * (if c.chunk == 0 then 1 else c.chunk) + i;
            && (Destination(c, t, id, fromGpu).Ring? ==> c.perblock)
            && (c.perblock && ForBlocks(c, t) ==> Destination(c, t, id, fromGpu) == Ring(m % c.blocks))
            && (c.perblock && !ForBlocks(c, t) ==> Destination(c, t, id, fromGpu).Shared?)
  {
    var chunk := if c.chunk == 0 then 1 else c.chunk;
    DivMod(m, chunk, i);
  }

  lemma NextModulo(m: nat, n: nat)
    requires 0 < n
    ensures (m + 1) % n == if m % n + 1 < n then m % n + 1 else 0
  {
    var q, r := m / n, m % n;
    Euclid(m, n);
    Spread(q, 1, n);
    if r + 1 < n { DivModOf(m + 1, q, n, r + 1); } else { DivModOf(m + 1, q + 1, n, 0); }
  }

  /** The next chunk's ring is the next one. */
  lemma NextRing(c: Config, t: TaskInfo, id: nat)
    requires ConfigOk(c) && c.perblock && ForBlocks(c, t)
    ensures var chunk := if c.chunk == 0 then 1 else c.chunk;
            var here, next := Destination(c, t, id, false), Destination(c, t, id + chunk, false);
            here.Ring? && next == Ring(if here.b + 1 < c.blocks then here.b + 1 else 0)
  {
    var chunk := if c.chunk == 0 then 1 else c.chunk;
    var m, i := id / chunk, id % chunk;
    Euclid(id, chunk);
    DivModOf(id + chunk, m + 1, chunk, i) by { Spread(m, 1, chunk); }
    NextModulo(m, c.blocks);
  }

  datatype Unit = Cpu(w: nat) | Gpu(b: nat)

  predicate Live(c: Config, u: Unit) {
    match u
    case Cpu(w) => w < c.cpus
    case Gpu(b) => b < c.blocks
  }

  /** How many tasks one claim may take: pop for a worker, pop_bulk for a block. */
  function ClaimLimit(c: Config, u: Unit): nat { if u.Cpu? then 1 else c.batch }

  /** Queues unit u may ever claim from. */
  predicate MayPop(c: Config, u: Unit, q: QueueId) {
    match u
    case Cpu(_) =>
      q == Shared(2) || q == Shared(1)
      || (!c.noSteal && if c.perblock then q.Ring? && q.b < c.blocks else q == Shared(0))
    case Gpu(b) =>
      q == Shared(3) || q == (if c.perblock then Ring(b) else Shared(0))
      || (!c.noSteal && ((c.perblock && q.Ring? && q.b < c.blocks) || q == Shared(1)))
  }

  /** Queues unit u looks at in every idle pass: of the peer rings a block sweeps, its cursor leaves one out. */
  predicate Polls(c: Config, u: Unit, q: QueueId) {
    MayPop(c, u, q) && (u.Gpu? && q.Ring? ==> q.b == u.b)
  }

  ghost predicate Served(c: Config, q: QueueId) { exists u :: Live(c, u) && Polls(c, u, q) }

  /** Host and device publishers compute the same destination: the device only runs when the GPU is on. */
  lemma PublishersAgree(c: Config, t: TaskInfo, id: nat)
    ensures (forall fromGpu :: Destination(c, t, id, fromGpu) == Destination(c, t, id, false))
            <==> c.gpu || (!IsOp(t.kind) ==> !IsCodebook(t.fmt) && t.affinity != ANY)
  {
    var d := Destination(c, t, id, true);
  }

  /**
    Tasks whose queue has no consumer at all.  Without CPU workers: everything
    when the GPU is off too, else decode ops, and CPU-affine tiles unless blocks
    steal.  With CPU workers: GPU-affine tiles when the GPU is off and nobody
    steals.
   */
  predicate Stranded(c: Config, t: TaskInfo) {
    if c.cpus == 0 then
      !c.gpu || IsOp(t.kind) || (c.noSteal && !IsCodebook(t.fmt) && t.affinity == CPU)
    else
      c.noSteal && !c.gpu && !IsOp(t.kind) && !IsCodebook(t.fmt) && t.affinity == GPU
  }

  /** A published task sits in a queue that some live unit polls, except a stranded one, which nobody may pop. */
  lemma ServedUnlessStranded(c: Config, t: TaskInfo, id: nat)
    requires ConfigOk(c)
    ensures Served(c, Destination(c, t, id, false)) <==> !Stranded(c, t)
    ensures Stranded(c, t) ==> forall u :: Live(c, u) ==> !MayPop(c, u, Destination(c, t, id, false))
  {
    var d := Destination(c, t, id, false);
    if c.gpu && !Stranded(c, t) {
      assert Live(c, Gpu(0));
      match d
      case Ring(b) => assert Live(c, Gpu(b)) && Polls(c, Gpu(b), d);
      case Shared(i) => assert Polls(c, Gpu(0), d) || (Live(c, Cpu(0)) && Polls(c, Cpu(0), d));
    } else if !Stranded(c, t) {
      assert Live(c, Cpu(0)) && Polls(c, Cpu(0), d);
    }
  }

  /** Codebook tiles never reach the CPU while the GPU runs, and decode ops never reach the GPU. */
  lemma EnginePurity(c: Config, t: TaskInfo, id: nat, n: nat)
    requires ConfigOk(c)
    ensures c.gpu && !IsOp(t.kind) && IsCodebook(t.fmt) ==> !MayPop(c, Cpu(n), Destination(c, t, id, false))
    ensures IsOp(t.kind) ==> !MayPop(c, Gpu(n), Destination(c, t, id, false))
  {}

  /** The k-th ring a sweep starting at cursor rr probes. */
  function Probe(rr: nat, k: nat, nb: nat): nat
    requires 0 < nb
  {
    (rr + k) % nb
  }

  /** A CPU sweep probes every ring; a GPU block's peer sweep probes every ring but its cursor's. */
  lemma SweepCovers(rr: nat, nb: nat, b: nat) returns (k: nat)
    requires b < nb
    ensures k < nb && Probe(rr, k, nb) == b
    ensures k == 0 <==> b == rr % nb
  {
    var r := rr % nb;
    k := if r <= b then b - r else b + nb - r;
    var q := rr / nb;
    assert rr + k == (if r <= b then q else q + 1) * nb + b;
    DivMod(if r <= b then q else q + 1, nb, b);
  }

  const MAX_GPU_BLOCKS := 64

  /** Driver's answer for a block width: how many blocks can be resident at once. */
  type Residency = nat -> int

  function Halved(threads: nat, k: nat): nat { if k == 0 then threads else Halved(threads, k - 1) / 2 }

  /** The k-th halving is the first width the driver admits, or the first that may not be halved again. */
  predicate FirstAdmitted(threads0: nat, k: nat, resident: Residency) {
    && (resident(Halved(threads0, k)) > 0 || Halved(threads0, k) <= 256)
    && forall j {:trigger Halved(threads0, j)} ::
         0 <= j < k ==> resident(Halved(threads0, j)) <= 0 && Halved(threads0, j) > 256
  }

  /**
    gpu_start: halve the width until the driver admits a block, then clamp the
    grid.  The count returned is the one published for routing.
   */
  method GpuStart(requested: nat, threads0: nat, resident: Residency)
    returns (blocks: nat, threads: nat, ghost halvings: nat)
    requires 0 < requested
    ensures threads == Halved(threads0, halvings) && FirstAdmitted(threads0, halvings, resident)
    ensures 0 < blocks <= requested && blocks <= MAX_GPU_BLOCKS
    ensures resident(threads) > 0 ==> blocks <= resident(threads)
    ensures blocks < requested ==> blocks == MAX_GPU_BLOCKS || blocks == resident(threads)
  {
    blocks, threads, halvings := requested, threads0, 0;
    var cap := resident(threads);
    while cap <= 0 && threads > 256
      invariant threads == Halved(threads0, halvings) && cap == resident(threads)
      invariant forall j {:trigger Halved(threads0, j)} ::
        0 <= j < halvings ==> resident(Halved(threads0, j)) <= 0 && Halved(threads0, j) > 256
      decreases threads
    {
      threads, halvings := threads / 2, halvings + 1;
      cap := resident(threads);
    }
    if cap > 0 && blocks > cap { blocks := cap; }
    if blocks > MAX_GPU_BLOCKS { blocks := MAX_GPU_BLOCKS; }
  }
}
