/**
  Execution of one q4_K STREAM_DOT tile on the CPU (src/runtime/kernels.h,
  exec_task_cpu): every dispatch branch leaves the same y.
 */
module Tile {
  import opened Arithmetic
  import opened Quants
  import opened Kernels
  import opened Shadow

  /** Which instruction sets the build has. */
  datatype Cpu = Cpu(dotprod: bool, i8mm: bool)

  /** Run-time switches: FASTLLM_MC_LEGACY, FASTLLM_SMMLA, and whether the interleave scratch is large enough. */
  datatype Switches = Switches(mcLegacy: bool, smmla: bool, scratchFits: bool)

  /** What the registry holds for the tile's weights, and the tile's first row there. */
  datatype View = NoSpan | PlainSpan(rows: seq<seq<Plain>>, r0: nat) | PairSpan(pairs: seq<seq<Pair>>, r0: nat)

  predicate RowsOk(w: seq<seq<Q4K>>, n: nat) { forall r :: 0 <= r < |w| ==> |w[r]| == n && RowOk(w[r]) }

  /** The span was built from packed rows, of which the tile is a part. */
  ghost predicate ViewOk(o: Ops, w: seq<seq<Q4K>>, view: View, packed: seq<seq<Q4K>>, n: nat) {
    match view
    case NoSpan => true
    case PlainSpan(rows, r0) =>
      && RowsOk(packed, n) && r0 + |w| <= |packed| == |rows| && w == packed[r0..r0 + |w|]
      && forall r: nat :: r < |packed| ==> rows[r] == PlainRow(o, packed[r])
    case PairSpan(pairs, r0) =>
      && RowsOk(packed, n) && r0 + |w| <= |packed| == 2 * |pairs| && w == packed[r0..r0 + |w|]
      && forall u: nat :: u < |pairs| ==> pairs[u] == PairRow(o, packed[2 * u], packed[2 * u + 1])
  }

  // ------------------------------------------------------------------- cells

  /** Cell (column p, row r) of y, with ys cells between columns; a single column has no stride. */
  function Cell(p: nat, r: nat, ys: nat): nat { p * ys + r }

  /** The column and the row of cell i, nx columns in all. */
  function ColOf(i: nat, nx: nat, ys: nat): nat { if nx <= 1 || ys == 0 then 0 else i / ys }

  function RowOf(i: nat, nx: nat, ys: nat): nat { if nx <= 1 || ys == 0 then i else i % ys }

  /** Several columns must not overlap, and all of them fit in y. */
  predicate TileFits(w: seq<seq<Q4K>>, nx: nat, ys: nat, len: nat) {
    (nx > 1 ==> |w| <= ys) && forall p: nat :: p < nx ==> Cell(p, 0, ys) + |w| <= len
  }

  ghost predicate TileOk(w: seq<seq<Q4K>>, cols: seq<seq<Column>>, n: nat, ys: nat, len: nat) {
    RowsOk(w, n) && ColsOk(cols, n) && TileFits(w, |cols|, ys, len)
  }

  /** A single-column tile as add_dot builds it, with no stride, fits whenever its rows do. */
  lemma SingleColumnFits(w: seq<seq<Q4K>>, col: seq<Column>, n: nat, len: nat)
    requires RowsOk(w, n) && |col| == n && ColOk(col) && |w| <= len
    ensures TileOk(w, [col], n, 0, len)
  {}

  /** Cell i with or without its product. */
  ghost function Expected(o: Ops, w: seq<seq<Q4K>>, cols: seq<seq<Column>>, n: nat, ys: nat, y0: seq<F>, i: nat,
                          got: bool): F
    requires RowsOk(w, n) && ColsOk(cols, n) && i < |y0|
  {
    var p, r := ColOf(i, |cols|, ys), RowOf(i, |cols|, ys);
    if got && p < |cols| && r < |w| then o.add(y0[i], RowDot(o, w[r], cols[p])) else y0[i]
  }

  /** How far a tile has got: all columns of the rows before r, and the first p columns of the next `width` rows. */
  datatype Pos = Pos(r: nat, p: nat, width: nat)

  predicate Got(at: Pos, i: nat, nx: nat, ys: nat) {
    RowOf(i, nx, ys) < at.r || (RowOf(i, nx, ys) < at.r + at.width && ColOf(i, nx, ys) < at.p)
  }

  /** Cells passed so far have received their product once; all other cells are untouched. */
  ghost predicate Progress(o: Ops, w: seq<seq<Q4K>>, cols: seq<seq<Column>>, n: nat, ys: nat, y0: seq<F>, y: seq<F>,
                           at: Pos)
    requires RowsOk(w, n) && ColsOk(cols, n)
  {
    |y| == |y0| && forall i: nat :: i < |y| ==> y[i] == Expected(o, w, cols, n, ys, y0, i, Got(at, i, |cols|, ys))
  }

  /** Cell (p, r) has column p and row r. */
  lemma CellIs(p: nat, r: nat, nx: nat, ys: nat)
    requires p < nx && (nx > 1 ==> r < ys)
    ensures ColOf(Cell(p, r, ys), nx, ys) == p && RowOf(Cell(p, r, ys), nx, ys) == r
  {
    if nx > 1 { DivMod(p, ys, r); }
  }

  /** A cell is where its column and row say. */
  lemma CellBack(i: nat, nx: nat, ys: nat)
    requires ColOf(i, nx, ys) < nx && (nx > 1 ==> 0 < ys)
    ensures i == Cell(ColOf(i, nx, ys), RowOf(i, nx, ys), ys)
  {
    if nx > 1 { Euclid(i, ys); }
  }

  /** Only cell (p, r) lies at its index. */
  lemma CellOnly(p: nat, r: nat, nx: nat, ys: nat, i: nat)
    requires p < nx && (nx > 1 ==> r < ys)
    ensures ColOf(i, nx, ys) == p && RowOf(i, nx, ys) == r <==> i == Cell(p, r, ys)
  {
    CellIs(p, r, nx, ys);
    if ColOf(i, nx, ys) == p { CellBack(i, nx, ys); }
  }

  function Product(o: Ops, w: seq<seq<Q4K>>, cols: seq<seq<Column>>, n: nat, p: nat, r: nat): F
    requires RowsOk(w, n) && ColsOk(cols, n) && p < |cols| && r < |w|
  {
    RowDot(o, w[r], cols[p])
  }

  lemma OneCell(o: Ops, w: seq<seq<Q4K>>, cols: seq<seq<Column>>, n: nat, ys: nat, y0: seq<F>, y: seq<F>, y': seq<F>,
                p: nat, r: nat)
    requires RowsOk(w, n) && ColsOk(cols, n) && p < |cols| && r < |w| && (|cols| > 1 ==> |w| <= ys)
      && Cell(p, r, ys) < |y|
    requires Progress(o, w, cols, n, ys, y0, y, Pos(r, p, 1))
    requires y' == y[Cell(p, r, ys) := o.add(y[Cell(p, r, ys)], Product(o, w, cols, n, p, r))]
    ensures Progress(o, w, cols, n, ys, y0, y', Pos(r, p + 1, 1))
  {
    forall i: nat | i < |y'| ensures y'[i] == Expected(o, w, cols, n, ys, y0, i, Got(Pos(r, p + 1, 1), i, |cols|, ys)) {
      CellOnly(p, r, |cols|, ys, i);
      assert y[i] == Expected(o, w, cols, n, ys, y0, i, Got(Pos(r, p, 1), i, |cols|, ys));
    }
  }

  lemma TwoCells(o: Ops, w: seq<seq<Q4K>>, cols: seq<seq<Column>>, n: nat, ys: nat, y0: seq<F>, y: seq<F>, y': seq<F>,
                 p: nat, r: nat)
    requires RowsOk(w, n) && ColsOk(cols, n) && p < |cols| && r + 1 < |w| && (|cols| > 1 ==> |w| <= ys)
      && Cell(p, r + 1, ys) < |y|
    requires Progress(o, w, cols, n, ys, y0, y, Pos(r, p, 2))
    requires y' == y[Cell(p, r, ys) := o.add(y[Cell(p, r, ys)], Product(o, w, cols, n, p, r))]
                    [Cell(p, r + 1, ys) := o.add(y[Cell(p, r + 1, ys)], Product(o, w, cols, n, p, r + 1))]
    ensures Progress(o, w, cols, n, ys, y0, y', Pos(r, p + 1, 2))
  {
    forall i: nat | i < |y'| ensures y'[i] == Expected(o, w, cols, n, ys, y0, i, Got(Pos(r, p + 1, 2), i, |cols|, ys)) {
      TwoCellsAt(o, w, cols, n, ys, y0, y, y', p, r, i);
    }
  }

  lemma TwoCellsAt(o: Ops, w: seq<seq<Q4K>>, cols: seq<seq<Column>>, n: nat, ys: nat, y0: seq<F>, y: seq<F>,
                   y': seq<F>, p: nat, r: nat, i: nat)
    requires RowsOk(w, n) && ColsOk(cols, n) && p < |cols| && r + 1 < |w| && (|cols| > 1 ==> |w| <= ys)
      && Cell(p, r + 1, ys) < |y|
    requires Progress(o, w, cols, n, ys, y0, y, Pos(r, p, 2))
    requires y' == y[Cell(p, r, ys) := o.add(y[Cell(p, r, ys)], Product(o, w, cols, n, p, r))]
                    [Cell(p, r + 1, ys) := o.add(y[Cell(p, r + 1, ys)], Product(o, w, cols, n, p, r + 1))]
    requires i < |y'|
    ensures y'[i] == Expected(o, w, cols, n, ys, y0, i, Got(Pos(r, p + 1, 2), i, |cols|, ys))
  {
    CellOnly(p, r, |cols|, ys, i);
    CellOnly(p, r + 1, |cols|, ys, i);
    assert y[i] == Expected(o, w, cols, n, ys, y0, i, Got(Pos(r, p, 2), i, |cols|, ys));
  }

  /** Two positions that agree on the tile's columns. */
  ghost predicate SameCells(at: Pos, at': Pos, nx: nat, ys: nat) {
    forall i: nat {:trigger Got(at', i, nx, ys)} :: ColOf(i, nx, ys) < nx ==> Got(at', i, nx, ys) == Got(at, i, nx, ys)
  }

  lemma Moves(o: Ops, w: seq<seq<Q4K>>, cols: seq<seq<Column>>, n: nat, ys: nat, y0: seq<F>, y: seq<F>, at: Pos,
              at': Pos)
    requires RowsOk(w, n) && ColsOk(cols, n)
    requires Progress(o, w, cols, n, ys, y0, y, at) && SameCells(at, at', |cols|, ys)
    ensures Progress(o, w, cols, n, ys, y0, y, at')
  {
    forall i: nat | i < |y| ensures y[i] == Expected(o, w, cols, n, ys, y0, i, Got(at', i, |cols|, ys)) {
      assert y[i] == Expected(o, w, cols, n, ys, y0, i, Got(at, i, |cols|, ys));
    }
  }

  /** The end of a row (or of two) is the start of the next; with no column done the width does not matter. */
  lemma RowEnd(nx: nat, ys: nat, r: nat, width: nat, next: nat)
    ensures SameCells(Pos(r, nx, width), Pos(r + width, 0, next), nx, ys)
    ensures SameCells(Pos(r, 0, width), Pos(r, 0, next), nx, ys)
  {}

  /** y[p * ystride + r] += v, one row's results into all columns. */
  method AddRow(o: Ops, w: seq<seq<Q4K>>, cols: seq<seq<Column>>, n: nat, ys: nat, ghost y0: seq<F>, y: array<F>,
                r: nat, vals: seq<F>)
    requires TileOk(w, cols, n, ys, y.Length) && r < |w| && AreDots(o, w[r], cols, vals)
    requires Progress(o, w, cols, n, ys, y0, y[..], Pos(r, 0, 1))
    modifies y
    ensures Progress(o, w, cols, n, ys, y0, y[..], Pos(r + 1, 0, 1))
  {
    for p: nat := 0 to |cols|
      invariant Progress(o, w, cols, n, ys, y0, y[..], Pos(r, p, 1))
    {
      ghost var was := y[..];
      assert Cell(p, 0, ys) + |w| <= y.Length;
      y[Cell(p, r, ys)] := o.add(y[Cell(p, r, ys)], vals[p]);
      assert y[..] == was[Cell(p, r, ys) := o.add(was[Cell(p, r, ys)], Product(o, w, cols, n, p, r))];
      OneCell(o, w, cols, n, ys, y0, was, y[..], p, r);
    }
    RowEnd(|cols|, ys, r, 1, 1);
    Moves(o, w, cols, n, ys, y0, y[..], Pos(r, |cols|, 1), Pos(r + 1, 0, 1));
  }

  /** Two rows' results, column by column. */
  method AddTwoRows(o: Ops, w: seq<seq<Q4K>>, cols: seq<seq<Column>>, n: nat, ys: nat, ghost y0: seq<F>, y: array<F>,
                    r: nat, v0: seq<F>, v1: seq<F>)
    requires TileOk(w, cols, n, ys, y.Length) && r + 1 < |w| && AreDots(o, w[r], cols, v0)
      && AreDots(o, w[r + 1], cols, v1)
    requires Progress(o, w, cols, n, ys, y0, y[..], Pos(r, 0, 1))
    modifies y
    ensures Progress(o, w, cols, n, ys, y0, y[..], Pos(r + 2, 0, 1))
  {
    RowEnd(|cols|, ys, r, 1, 2);
    Moves(o, w, cols, n, ys, y0, y[..], Pos(r, 0, 1), Pos(r, 0, 2));
    for p: nat := 0 to |cols|
      invariant Progress(o, w, cols, n, ys, y0, y[..], Pos(r, p, 2))
    {
      AddTwo(o, w, cols, n, ys, y0, y, p, r, v0[p], v1[p]);
    }
    RowEnd(|cols|, ys, r, 2, 1);
    Moves(o, w, cols, n, ys, y0, y[..], Pos(r, |cols|, 2), Pos(r + 2, 0, 1));
  }

  method AddTwo(o: Ops, w: seq<seq<Q4K>>, cols: seq<seq<Column>>, n: nat, ys: nat, ghost y0: seq<F>, y: array<F>,
                p: nat, r: nat, v0: F, v1: F)
    requires TileOk(w, cols, n, ys, y.Length) && p < |cols| && r + 1 < |w|
    requires v0 == Product(o, w, cols, n, p, r) && v1 == Product(o, w, cols, n, p, r + 1)
    requires Progress(o, w, cols, n, ys, y0, y[..], Pos(r, p, 2))
    modifies y
    ensures Progress(o, w, cols, n, ys, y0, y[..], Pos(r, p + 1, 2))
  {
    ghost var was := y[..];
    assert Cell(p, 0, ys) + |w| <= y.Length;
    var i, j := Cell(p, r, ys), Cell(p, r + 1, ys);
    y[i] := o.add(y[i], v0);
    y[j] := o.add(y[j], v1);
    assert y[..] == was[i := o.add(was[i], v0)][j := o.add(was[j], v1)];
    TwoCells(o, w, cols, n, ys, y0, was, y[..], p, r);
  }

  // ---------------------------------------------------------------- branches

  /** Cell i belongs to no column and row of the tile. */
  ghost predicate Outside(i: nat, rows: nat, nx: nat, ys: nat) {
    forall p: nat, r: nat {:trigger Cell(p, r, ys)} :: p < nx && r < rows ==> i != Cell(p, r, ys)
  }

  /** What every branch does to y: each (column, row) cell gains its own product once, and no other cell changes. */
  ghost predicate TileDone(o: Ops, w: seq<seq<Q4K>>, cols: seq<seq<Column>>, n: nat, ys: nat, y0: seq<F>, y: seq<F>)
    requires RowsOk(w, n) && ColsOk(cols, n)
  {
    && |y| == |y0|
    && (forall p: nat, r: nat {:trigger Cell(p, r, ys)} :: p < |cols| && r < |w| ==>
          Cell(p, r, ys) < |y| && y[Cell(p, r, ys)] == o.add(y0[Cell(p, r, ys)], RowDot(o, w[r], cols[p])))
    && (forall i: nat :: i < |y| && Outside(i, |w|, |cols|, ys) ==> y[i] == y0[i])
  }

  lemma CellInside(w: seq<seq<Q4K>>, nx: nat, ys: nat, len: nat, p: nat, r: nat)
    requires TileFits(w, nx, ys, len) && p < nx && r < |w|
    ensures Cell(p, r, ys) < len
  {
    assert Cell(p, 0, ys) + |w| <= len;
  }

  lemma AllDone(o: Ops, w: seq<seq<Q4K>>, cols: seq<seq<Column>>, n: nat, ys: nat, y0: seq<F>, y: seq<F>)
    requires TileOk(w, cols, n, ys, |y|)
    requires Progress(o, w, cols, n, ys, y0, y, Pos(|w|, 0, 1))
    ensures TileDone(o, w, cols, n, ys, y0, y)
  {
    var at, nx := Pos(|w|, 0, 1), |cols|;
    forall p: nat, r: nat | p < nx && r < |w|
      ensures Cell(p, r, ys) < |y| && y[Cell(p, r, ys)] == o.add(y0[Cell(p, r, ys)], RowDot(o, w[r], cols[p]))
    {
      var i := Cell(p, r, ys);
      CellInside(w, nx, ys, |y|, p, r);
      CellOnly(p, r, nx, ys, i);
      assert y[i] == Expected(o, w, cols, n, ys, y0, i, Got(at, i, nx, ys));
    }
    forall i: nat | i < |y| && Outside(i, |w|, nx, ys) ensures y[i] == y0[i] {
      var p, r := ColOf(i, nx, ys), RowOf(i, nx, ys);
      assert y[i] == Expected(o, w, cols, n, ys, y0, i, Got(at, i, nx, ys));
      if p < nx && r < |w| {
        CellOnly(p, r, nx, ys, i);
      }
    }
  }

  lemma NoneDone(o: Ops, w: seq<seq<Q4K>>, cols: seq<seq<Column>>, n: nat, ys: nat, y0: seq<F>)
    requires RowsOk(w, n) && ColsOk(cols, n)
    ensures Progress(o, w, cols, n, ys, y0, y0, Pos(0, 0, 1))
  {}

  /** dot_row_i8k: vector or scalar, as the build has it. */
  method DotRow(o: Ops, cpu: Cpu, row: seq<Q4K>, col: seq<Column>) returns (v: F)
    requires |row| == |col| && RowOk(row) && ColOk(col)
    ensures v == RowDot(o, row, col)
  {
    if cpu.dotprod { v := DotNeon(o, row, col); } else { v := DotPacked(o, row, col); }
  }

  method PackedRow(o: Ops, cpu: Cpu, row: seq<Q4K>, cols: seq<seq<Column>>) returns (vals: seq<F>)
    requires RowOk(row) && ColsOk(cols, |row|)
    ensures AreDots(o, row, cols, vals)
  {
    vals := [];
    for p: nat := 0 to |cols|
      invariant |vals| == p && forall q :: 0 <= q < p ==> vals[q] == RowDot(o, row, cols[q])
    {
      var v := DotRow(o, cpu, row, cols[p]);
      vals := vals + [v];
    }
  }

  /** Rows from r on through the packed path: the default, the odd tail, the misaligned start. */
  method PackedRows(o: Ops, cpu: Cpu, w: seq<seq<Q4K>>, cols: seq<seq<Column>>, n: nat, ys: nat, ghost y0: seq<F>,
                    y: array<F>,
                    from: nat)
    requires TileOk(w, cols, n, ys, y.Length) && from <= |w|
    requires Progress(o, w, cols, n, ys, y0, y[..], Pos(from, 0, 1))
    modifies y
    ensures TileDone(o, w, cols, n, ys, y0, y[..])
  {
    for r: nat := from to |w|
      invariant Progress(o, w, cols, n, ys, y0, y[..], Pos(r, 0, 1))
    {
      var vals := PackedRow(o, cpu, w[r], cols);
      AddRow(o, w, cols, n, ys, y0, y, r, vals);
    }
    AllDone(o, w, cols, n, ys, y0, y[..]);
  }

  /** The unpack-sharing multi-column loop, from row r on. */
  method McRows(o: Ops, w: seq<seq<Q4K>>, cols: seq<seq<Column>>, n: nat, ys: nat, ghost y0: seq<F>, y: array<F>,
                from: nat)
    requires TileOk(w, cols, n, ys, y.Length) && from <= |w|
    requires Progress(o, w, cols, n, ys, y0, y[..], Pos(from, 0, 1))
    modifies y
    ensures TileDone(o, w, cols, n, ys, y0, y[..])
  {
    for r: nat := from to |w|
      invariant Progress(o, w, cols, n, ys, y0, y[..], Pos(r, 0, 1))
    {
      var vals := DotMc(o, w[r], cols);
      AddRow(o, w, cols, n, ys, y0, y, r, vals);
    }
    AllDone(o, w, cols, n, ys, y0, y[..]);
  }

  /** Row pairs through SMMLA over runtime-combined rows; an odd last row goes through the multi-column loop. */
  method SmmlaRows(o: Ops, w: seq<seq<Q4K>>, cols: seq<seq<Column>>, n: nat, ys: nat, ghost y0: seq<F>, y: array<F>)
    requires TileOk(w, cols, n, ys, y.Length) && |cols| % 2 == 0 && y[..] == y0
    modifies y
    ensures TileDone(o, w, cols, n, ys, y0, y[..])
  {
    var planes := InterleaveTile(cols, n);
    NoneDone(o, w, cols, n, ys, y0);
    var r: nat := 0;
    while r + 1 < |w|
      invariant r <= |w| && Progress(o, w, cols, n, ys, y0, y[..], Pos(r, 0, 1))
    {
      var v0, v1 := DotMcSmmla(o, w[r], w[r + 1], cols, planes);
      AddTwoRows(o, w, cols, n, ys, y0, y, r, v0, v1);
      r := r + 2;
    }
    McRows(o, w, cols, n, ys, y0, y, r);
  }

  method PairRowDots(o: Ops, s: seq<Pair>, cols: seq<seq<Column>>, ghost row0: seq<Q4K>, ghost row1: seq<Q4K>)
    returns (v0: seq<F>, v1: seq<F>)
    requires RowOk(row0) && RowOk(row1) && |row0| == |row1| && ColsOk(cols, |row0|) && s == PairRow(o, row0, row1)
    ensures AreDots(o, row0, cols, v0) && AreDots(o, row1, cols, v1)
  {
    v0, v1 := [], [];
    for p: nat := 0 to |cols|
      invariant |v0| == p == |v1|
      invariant forall q :: 0 <= q < p ==> v0[q] == RowDot(o, row0, cols[q]) && v1[q] == RowDot(o, row1, cols[q])
    {
      var a, b := Dot2Shadow(o, s, cols[p], row0, row1);
      v0, v1 := v0 + [a], v1 + [b];
    }
  }

  lemma PairInTile(o: Ops, w: seq<seq<Q4K>>, pairs: seq<seq<Pair>>, r0: nat, packed: seq<seq<Q4K>>, n: nat, r: nat)
    requires r0 % 2 == 0 && r % 2 == 0 && r + 1 < |w| && ViewOk(o, w, PairSpan(pairs, r0), packed, n)
    ensures RowOk(w[r]) && RowOk(w[r + 1]) && |w[r]| == n == |w[r + 1]|
    ensures (r0 + r) / 2 < |pairs| && pairs[(r0 + r) / 2] == PairRow(o, w[r], w[r + 1])
  {
    var u := (r0 + r) / 2;
    assert w[r] == packed[2 * u] && w[r + 1] == packed[2 * u + 1];
  }

  /** Aligned start: pairs of the interleaved shadow, odd tail through the packed path. */
  method PairShadowRows(o: Ops, cpu: Cpu, w: seq<seq<Q4K>>, cols: seq<seq<Column>>, n: nat, ys: nat, ghost y0: seq<F>,
                        y: array<F>,
                        pairs: seq<seq<Pair>>, r0: nat, ghost packed: seq<seq<Q4K>>)
    requires TileOk(w, cols, n, ys, y.Length) && y[..] == y0 && r0 % 2 == 0
      && ViewOk(o, w, PairSpan(pairs, r0), packed, n)
    modifies y
    ensures TileDone(o, w, cols, n, ys, y0, y[..])
  {
    NoneDone(o, w, cols, n, ys, y0);
    var r: nat := 0;
    while r + 1 < |w|
      invariant r <= |w| && r % 2 == 0 && Progress(o, w, cols, n, ys, y0, y[..], Pos(r, 0, 1))
    {
      var u := (r0 + r) / 2;
      PairInTile(o, w, pairs, r0, packed, n, r);
      var v0, v1 := PairRowDots(o, pairs[u], cols, w[r], w[r + 1]);
      AddTwoRows(o, w, cols, n, ys, y0, y, r, v0, v1);
      r := r + 2;
    }
    PackedRows(o, cpu, w, cols, n, ys, y0, y, r);
  }

  method PlainRowDots(o: Ops, cpu: Cpu, s: seq<Plain>, cols: seq<seq<Column>>, ghost row: seq<Q4K>)
    returns (vals: seq<F>)
    requires RowOk(row) && ColsOk(cols, |row|) && s == PlainRow(o, row)
    ensures AreDots(o, row, cols, vals)
  {
    vals := [];
    for p: nat := 0 to |cols|
      invariant |vals| == p && forall q :: 0 <= q < p ==> vals[q] == RowDot(o, row, cols[q])
    {
      var v := DotShadow(o, cpu.dotprod, s, cols[p], row);
      vals := vals + [v];
    }
  }

  method PlainShadowRows(o: Ops, cpu: Cpu, w: seq<seq<Q4K>>, cols: seq<seq<Column>>, n: nat, ys: nat,
                         ghost y0: seq<F>, y: array<F>,
                         rows: seq<seq<Plain>>, r0: nat, ghost packed: seq<seq<Q4K>>)
    requires TileOk(w, cols, n, ys, y.Length) && y[..] == y0 && ViewOk(o, w, PlainSpan(rows, r0), packed, n)
    modifies y
    ensures TileDone(o, w, cols, n, ys, y0, y[..])
  {
    NoneDone(o, w, cols, n, ys, y0);
    for r: nat := 0 to |w|
      invariant Progress(o, w, cols, n, ys, y0, y[..], Pos(r, 0, 1))
    {
      assert w[r] == packed[r0 + r];
      var vals := PlainRowDots(o, cpu, rows[r0 + r], cols, w[r]);
      AddRow(o, w, cols, n, ys, y0, y, r, vals);
    }
    AllDone(o, w, cols, n, ys, y0, y[..]);
  }

  /**
    The whole dispatch: whatever the build, the switches and the shadow layout,
    each cell of the tile gains its row-column product once and no other cell
    changes.
   */
  method ExecTile(o: Ops, cpu: Cpu, sw: Switches, w: seq<seq<Q4K>>, cols: seq<seq<Column>>, n: nat, view: View,
                  ghost packed: seq<seq<Q4K>>, y: array<F>, ys: nat)
    requires TileOk(w, cols, n, ys, y.Length) && ViewOk(o, w, view, packed, n) && (view.PairSpan? ==> cpu.i8mm)
    modifies y
    ensures TileDone(o, w, cols, n, ys, old(y[..]), y[..])
  {
    ghost var y0 := y[..];
    NoneDone(o, w, cols, n, ys, y0);
    if cpu.dotprod && |cols| > 1 && !sw.mcLegacy {
      if cpu.i8mm && sw.smmla && |cols| % 2 == 0 && |w| >= 2 && sw.scratchFits {
        SmmlaRows(o, w, cols, n, ys, y0, y);
      } else {
        McRows(o, w, cols, n, ys, y0, y, 0);
      }
      return;
    }
    match view
    case PairSpan(pairs, r0) =>
      if r0 % 2 == 0 {
        PairShadowRows(o, cpu, w, cols, n, ys, y0, y, pairs, r0, packed);
      } else {
        PackedRows(o, cpu, w, cols, n, ys, y0, y, 0);
      }
    case PlainSpan(rows, r0) => PlainShadowRows(o, cpu, w, cols, n, ys, y0, y, rows, r0, packed);
    case NoSpan => PackedRows(o, cpu, w, cols, n, ys, y0, y, 0);
  }
}
