/** The store kernel of kernels/src/paged_attention_cuda.cu: one thread per element of the batch's keys and
    values, in no particular order. Each thread finds its slot through the positions and the flat padded
    table that the runner uploads. Together they leave the cache that storing row by row leaves. */
module CudaStore {
  import opened Common
  import opened Blocks
  import opened Attention
  import opened Transformer
  import opened PagedBatch
  import opened CacheLayout
  import opened PagedRunners
  import opened SchedulerSpec
  import opened SchedulerProofs
  import opened ScheduleProofs
  import opened Generation
  import opened EngineSpec
  import opened RunProofs
  import opened RunPlanProofs
  import opened RequestProofs
  import opened Engine
  import opened EngineProofs

  // ---------------------------------------------------------------- the uploaded tables

  /** A row of the uploaded table: the block table, filled up with -1. */
  function Padded(table: seq<nat>, width: nat): (r: seq<int>)
    requires |table| <= width
    ensures |r| == width && forall j: nat :: j < |table| ==> r[j] == table[j]
  {
    seq(width, j requires 0 <= j < width => Entry(table, j))
  }

  function Entry(table: seq<nat>, j: nat): int {
    if j < |table| then table[j] else -1
  }

  ghost predicate Narrow(rows: seq<Row>, width: nat) {
    forall r: nat :: r < |rows| ==> |rows[r].table| <= width
  }

  /** The tables of all rows, one after the other. */
  ghost function Flat(rows: seq<Row>, width: nat): (r: seq<int>)
    requires Narrow(rows, width)
    ensures |r| == |rows| * width
  {
    if rows == [] then []
    else
      var n := |rows| - 1;
      Flat(rows[..n], width) + Padded(rows[n].table, width)
  }

  /** Entry `j` of row `r` is entry `j` of that row's block table. */
  lemma {:induction false} FlatAt(rows: seq<Row>, width: nat, r: nat, j: nat)
    requires Narrow(rows, width) && r < |rows| && j < |rows[r].table|
    ensures 0 <= r * width + j < |rows| * width && Flat(rows, width)[r * width + j] == rows[r].table[j]
    decreases |rows|
  {
    var n := |rows| - 1;
    MulMonoStrict(r, |rows|, width);
    MulMono(0, r, width);
    if r < n {
      FlatAt(rows[..n], width, r, j);
    }
  }

  method CopyTable(data: array<int>, base: nat, table: seq<nat>)
    requires base + |table| <= data.Length
    modifies data
    ensures Placed(old(data[..]), data[..], base, table)
  {
    var j := 0;
    while j < |table|
      invariant 0 <= j <= |table|
      invariant forall x: nat :: x < data.Length ==> data[x] == if base <= x < base + j then table[x - base] else old(data[x])
    {
      data[base + j] := table[j];
      j := j + 1;
    }
  }

  ghost predicate Placed(before: seq<int>, now: seq<int>, base: nat, table: seq<nat>) {
    && base + |table| <= |before| == |now|
    && forall x: nat :: x < |now| ==> now[x] == if base <= x < base + |table| then table[x - base] else before[x]
  }

  /** The first `base` entries are uploaded, the others still -1. */
  ghost predicate Uploaded(data: seq<int>, base: nat, flat: seq<int>) {
    base <= |data| && data[..base] == flat && forall x: nat :: base <= x < |data| ==> data[x] == -1
  }

  lemma UploadNext(before: seq<int>, now: seq<int>, base: nat, flat: seq<int>, table: seq<nat>, width: nat)
    requires Uploaded(before, base, flat) && Placed(before, now, base, table) && |table| <= width && base + width <= |before|
    ensures Uploaded(now, base + width, flat + Padded(table, width))
  {
    var more := flat + Padded(table, width);
    forall x: nat | x < base + width ensures now[..base + width][x] == more[x] {
      if x < base {
        assert before[..base][x] == before[x];
      }
    }
    assert |now[..base + width]| == |more|;
  }

  /** The upload as the runner prepares it: all -1 first, then each block table copied to its row. */
  method BuildTables(rows: seq<Row>, width: nat) returns (data: array<int>)
    requires Narrow(rows, width)
    ensures fresh(data) && data[..] == Flat(rows, width)
  {
    hide Uploaded, Placed, Padded;
    MulMono(0, |rows|, width);
    data := new int[|rows| * width](x => -1);
    NothingUploaded(data[..]);
    var r, base := 0, 0;
    while r < |rows|
      invariant 0 <= r <= |rows| && base == r * width && data.Length == |rows| * width
      invariant Uploaded(data[..], base, Flat(rows[..r], width))
    {
      MulMonoStrict(r, |rows|, width);
      ghost var before := data[..];
      CopyTable(data, base, rows[r].table);
      assert rows[..r + 1][..r] == rows[..r] && rows[..r + 1][r] == rows[r];
      UploadNext(before, data[..], base, Flat(rows[..r], width), rows[r].table, width);
      r, base := r + 1, base + width;
    }
    assert rows[..r] == rows;
    AllUploaded(data[..], base, Flat(rows, width));
  }

  lemma NothingUploaded(data: seq<int>)
    requires forall x: nat :: x < |data| ==> data[x] == -1
    ensures Uploaded(data, 0, [])
  {
  }

  lemma AllUploaded(data: seq<int>, base: nat, flat: seq<int>)
    requires Uploaded(data, base, flat) && base == |data|
    ensures data == flat
  {
    assert data[..base] == data;
  }

  // ---------------------------------------------------------------- threads

  /** The kernel's arguments. Element `index` of the flat input is column `index % kvDim` of row
      `index / kvDim`. */
  datatype Grid = Grid(g: Layout, layer: nat, width: nat, positions: seq<nat>, tables: seq<int>) {
    function Count(): nat {
      |positions| * g.kvDim
    }

    /** What a thread of row `r` finds in the flat table. */
    function Page(r: nat): int
      requires g.blockSize > 0 && r < |positions| && 0 <= r * width + positions[r] / g.blockSize < |tables|
    {
      tables[r * width + positions[r] / g.blockSize]
    }

    ghost predicate RowFits(r: nat)
      requires r < |positions|
    {
      && g.blockSize > 0 && 0 <= r * width + positions[r] / g.blockSize < |tables|
      && 0 <= Page(r) < g.numBlocks
    }

    function Slot(r: nat): (s: nat)
      requires r < |positions| && RowFits(r)
      ensures s < g.Slots()
    {
      DivBounds(positions[r], g.blockSize);
      SlotInRange(g.blockSize, Page(r), positions[r] % g.blockSize, g.numBlocks);
      SlotIn(g.blockSize, Page(r), positions[r] % g.blockSize)
    }

    ghost predicate Valid() {
      && layer < g.layers && g.kvDim > 0
      && (forall r: nat :: r < |positions| ==> RowFits(r))
      && (forall a: nat, b: nat :: a < b < |positions| ==> Slot(a) != Slot(b))
    }
  }

  lemma RowOfThread(k: Grid, index: nat)
    requires k.Valid() && index < k.Count()
    ensures index / k.g.kvDim < |k.positions| && k.RowFits(index / k.g.kvDim) && 0 <= index % k.g.kvDim < k.g.kvDim
    ensures k.g.Base(k.layer, k.Slot(index / k.g.kvDim)) + index % k.g.kvDim < k.g.Cells()
  {
    hide Layout.Base, Layout.Slots, Layout.Cells, Grid.Slot;
    DivBounds(index, k.g.kvDim);
    if index / k.g.kvDim >= |k.positions| {
      MulMono(|k.positions|, index / k.g.kvDim, k.g.kvDim);
      assert false;
    }
    assert k.RowFits(index / k.g.kvDim);
    BaseBounds(k.g, k.layer, k.Slot(index / k.g.kvDim));
  }

  ghost predicate HasRow(k: Grid, index: nat) {
    k.g.kvDim > 0 && index / k.g.kvDim < |k.positions| && k.RowFits(index / k.g.kvDim)
  }

  /** The cell a thread writes. */
  function Target(k: Grid, index: nat): (x: nat)
    requires HasRow(k, index)
  {
    DivBounds(index, k.g.kvDim);
    k.g.Base(k.layer, k.Slot(index / k.g.kvDim)) + index % k.g.kvDim
  }

  /** The kernel's formula gives that cell. */
  lemma RowAddress(k: Grid, row: nat, dim: nat)
    requires row < |k.positions| && k.RowFits(row)
    ensures 0 <= k.positions[row] % k.g.blockSize
    ensures k.g.Address(k.layer, k.Page(row), k.positions[row] % k.g.blockSize, dim) == k.g.Base(k.layer, k.Slot(row)) + dim
  {
    hide Layout.Address, Layout.Base;
    DivBounds(k.positions[row], k.g.blockSize);
    AddressIsBase(k.g, k.layer, k.Page(row), k.positions[row] % k.g.blockSize, dim);
  }

  /** No two threads write the same cell. */
  lemma TargetsDiffer(k: Grid, a: nat, b: nat)
    requires k.Valid() && a < k.Count() && b < k.Count() && a != b
    ensures HasRow(k, a) && HasRow(k, b) && Target(k, a) != Target(k, b)
  {
    hide Layout.Base, Layout.Slots, Layout.Cells, Grid.Count;
    RowOfThread(k, a);
    RowOfThread(k, b);
    DivBounds(a, k.g.kvDim);
    DivBounds(b, k.g.kvDim);
    var x, y := a / k.g.kvDim, b / k.g.kvDim;
    if x != y {
      assert k.Slot(x) != k.Slot(y);
      BasesApart(k.g, k.layer, k.Slot(x), k.layer, k.Slot(y));
    }
  }

  /** The cells after the threads in `order` have run, one after the other; those beyond the last element
      do nothing. */
  ghost function Run(k: Grid, source: seq<real>, order: seq<nat>, cells: seq<real>): (r: seq<real>)
    requires k.Valid() && |source| == k.Count() && |cells| == k.g.Cells()
    ensures |r| == |cells|
  {
    if order == [] then cells
    else
      var before := Run(k, source, order[..|order| - 1], cells);
      var index := order[|order| - 1];
      if index >= k.Count() then before
      else
        RowOfThread(k, index);
        before[Target(k, index) := source[index]]
  }

  /** Whatever the order, a thread that ran has left its element in its cell, and a cell of no thread is
      untouched. */
  lemma {:induction false} RunLeaves(k: Grid, source: seq<real>, order: seq<nat>, cells: seq<real>, index: nat)
    requires k.Valid() && |source| == k.Count() && |cells| == k.g.Cells() && index < k.Count()
    ensures HasRow(k, index) && Target(k, index) < |cells|
    ensures Run(k, source, order, cells)[Target(k, index)] == if index in order then source[index] else cells[Target(k, index)]
    decreases |order|
  {
    hide Target, Grid.Valid, Grid.Count, Layout.Cells;
    ThreadOk(k, index);
    if order != [] {
      var init, last := order[..|order| - 1], order[|order| - 1];
      RunLeaves(k, source, init, cells, index);
      assert index in order <==> index in init || index == last;
      if last < k.Count() && last != index {
        TargetsDiffer(k, index, last);
      }
    }
  }

  lemma ThreadOk(k: Grid, index: nat)
    requires k.Valid() && index < k.Count()
    ensures HasRow(k, index) && Target(k, index) < k.g.Cells()
  {
    RowOfThread(k, index);
  }

  lemma {:induction false} RunLeavesRest(k: Grid, source: seq<real>, order: seq<nat>, cells: seq<real>, x: nat)
    requires k.Valid() && |source| == k.Count() && |cells| == k.g.Cells() && x < |cells|
    requires forall index: nat :: index < k.Count() && HasRow(k, index) ==> Target(k, index) != x
    ensures Run(k, source, order, cells)[x] == cells[x]
    decreases |order|
  {
    hide Target, Grid.Valid, Grid.Count, Layout.Cells;
    if order != [] {
      var last := order[|order| - 1];
      RunLeavesRest(k, source, order[..|order| - 1], cells, x);
      if last < k.Count() {
        ThreadOk(k, last);
      }
    }
  }

  // ---------------------------------------------------------------- the same as copying row by row

  /** The rows copied one after the other, as on the CPU. */
  ghost function Copied(k: Grid, source: seq<real>, n: nat, cells: seq<real>): (r: seq<real>)
    requires k.Valid() && |source| == k.Count() && |cells| == k.g.Cells() && n <= |k.positions|
    ensures |r| == |cells|
  {
    if n == 0 then cells
    else
      var before := Copied(k, source, n - 1, cells);
      var base := k.g.Base(k.layer, k.Slot(n - 1));
      BaseBounds(k.g, k.layer, k.Slot(n - 1));
      MulMonoStrict(n - 1, |k.positions|, k.g.kvDim);
      MulMono(0, n - 1, k.g.kvDim);
      before[..base] + source[(n - 1) * k.g.kvDim..(n - 1) * k.g.kvDim + k.g.kvDim] + before[base + k.g.kvDim..]
  }

  lemma CopyStep(k: Grid, source: seq<real>, n: nat, cells: seq<real>, x: nat)
    requires k.Valid() && |source| == k.Count() && |cells| == k.g.Cells() && 0 < n <= |k.positions| && x < |cells|
    ensures var base := k.g.Base(k.layer, k.Slot(n - 1));
      && base + k.g.kvDim <= |cells| && 0 <= (n - 1) * k.g.kvDim <= |source| - k.g.kvDim
      && Copied(k, source, n, cells)[x] ==
        if base <= x < base + k.g.kvDim then source[(n - 1) * k.g.kvDim + (x - base)] else Copied(k, source, n - 1, cells)[x]
  {
    hide Layout.Base, Layout.Cells, Layout.Slots;
    BaseBounds(k.g, k.layer, k.Slot(n - 1));
    MulMonoStrict(n - 1, |k.positions|, k.g.kvDim);
    MulMono(0, n - 1, k.g.kvDim);
  }

  /** After `n` rows, an element of one of these rows is in its cell. */
  lemma {:induction false} CopiedLeaves(k: Grid, source: seq<real>, n: nat, cells: seq<real>, index: nat)
    requires k.Valid() && |source| == k.Count() && |cells| == k.g.Cells() && n <= |k.positions| && index < k.Count()
    ensures HasRow(k, index) && Target(k, index) < |cells|
    ensures Copied(k, source, n, cells)[Target(k, index)] == if index / k.g.kvDim < n then source[index] else cells[Target(k, index)]
    decreases n
  {
    hide Layout.Base, Layout.Cells, Layout.Slots, Copied, Grid.Count;
    ThreadOk(k, index);
    DivBounds(index, k.g.kvDim);
    if n == 0 {
      NoneCopied(k, source, cells);
    } else {
      var row := index / k.g.kvDim;
      CopiedLeaves(k, source, n - 1, cells, index);
      CopyStep(k, source, n, cells, Target(k, index));
      if row != n - 1 {
        assert k.Slot(row) != k.Slot(n - 1);
        BasesApart(k.g, k.layer, k.Slot(row), k.layer, k.Slot(n - 1));
      }
    }
  }

  lemma NoneCopied(k: Grid, source: seq<real>, cells: seq<real>)
    requires k.Valid() && |source| == k.Count() && |cells| == k.g.Cells()
    ensures Copied(k, source, 0, cells) == cells
  {
  }

  lemma {:induction false} CopiedLeavesRest(k: Grid, source: seq<real>, n: nat, cells: seq<real>, x: nat)
    requires k.Valid() && |source| == k.Count() && |cells| == k.g.Cells() && n <= |k.positions| && x < |cells|
    requires forall index: nat :: index < k.Count() && HasRow(k, index) ==> Target(k, index) != x
    ensures Copied(k, source, n, cells)[x] == cells[x]
    decreases n
  {
    hide Layout.Base, Layout.Cells, Layout.Slots, Copied;
    if n == 0 {
      NoneCopied(k, source, cells);
    } else {
      CopiedLeavesRest(k, source, n - 1, cells, x);
      CopyStep(k, source, n, cells, x);
      var base := k.g.Base(k.layer, k.Slot(n - 1));
      if base <= x < base + k.g.kvDim {
        var index := ThreadOfCell(k, n - 1, x);
        assert false;
      }
    }
  }

  /** Every cell of a row's slot is the target of a thread. */
  lemma ThreadOfCell(k: Grid, row: nat, x: nat) returns (index: nat)
    requires k.Valid() && row < |k.positions| && k.g.Base(k.layer, k.Slot(row)) <= x < k.g.Base(k.layer, k.Slot(row)) + k.g.kvDim
    ensures index < k.Count() && HasRow(k, index) && Target(k, index) == x
  {
    hide Layout.Base, Layout.Cells, Layout.Slots;
    var dim := x - k.g.Base(k.layer, k.Slot(row));
    MulMono(0, row, k.g.kvDim);
    MulMonoStrict(row, |k.positions|, k.g.kvDim);
    index := row * k.g.kvDim + dim;
    DivUnique(index, row, k.g.kvDim);
  }

  /** One of these copies is the in-place copy of the CPU runner. */
  lemma CopyIsWritten(k: Grid, source: seq<real>, n: nat, cells: seq<real>)
    requires k.Valid() && |source| == k.Count() && |cells| == k.g.Cells() && n < |k.positions|
    ensures 0 <= n * k.g.kvDim <= n * k.g.kvDim + k.g.kvDim <= |source|
    ensures Written(Copied(k, source, n, cells), Copied(k, source, n + 1, cells), k.g.Base(k.layer, k.Slot(n)), source[n * k.g.kvDim..n * k.g.kvDim + k.g.kvDim])
  {
    hide Layout.Base, Layout.Cells, Layout.Slots;
    BaseBounds(k.g, k.layer, k.Slot(n));
    MulMonoStrict(n, |k.positions|, k.g.kvDim);
    MulMono(0, n, k.g.kvDim);
  }

  /** However the threads are scheduled, once each of them has run, the kernel has written the very cells
      that the copies write, with the same contents, each of them once. */
  lemma StoreAgrees(k: Grid, source: seq<real>, order: seq<nat>, cells: seq<real>)
    requires k.Valid() && |source| == k.Count() && |cells| == k.g.Cells()
    requires forall index: nat :: index < k.Count() ==> index in order
    ensures Run(k, source, order, cells) == Copied(k, source, |k.positions|, cells)
  {
    hide Run, Copied, Target, Grid.Count, Layout.Cells, Layout.Slots;
    var a, b := Run(k, source, order, cells), Copied(k, source, |k.positions|, cells);
    forall x: nat | x < |cells| ensures a[x] == b[x] {
      if index: nat :| index < k.Count() && HasRow(k, index) && Target(k, index) == x {
        RunLeaves(k, source, order, cells, index);
        CopiedLeaves(k, source, |k.positions|, cells, index);
      } else {
        RunLeavesRest(k, source, order, cells, x);
        CopiedLeavesRest(k, source, |k.positions|, cells, x);
      }
    }
  }

  // ---------------------------------------------------------------- the kernel on its arrays

  /** One thread. `order` are those that have run before. */
  method StoreThread(k: Grid, index: nat, keys: seq<real>, values: seq<real>, keyCache: array<real>, valueCache: array<real>,
                     ghost order: seq<nat>, ghost wasKeys: seq<real>, ghost wasValues: seq<real>)
    requires k.Valid() && |keys| == |values| == k.Count() && keyCache.Length == valueCache.Length == k.g.Cells() && keyCache != valueCache
    requires |wasKeys| == |wasValues| == k.g.Cells()
    requires keyCache[..] == Run(k, keys, order, wasKeys) && valueCache[..] == Run(k, values, order, wasValues)
    modifies keyCache, valueCache
    ensures keyCache[..] == Run(k, keys, order + [index], wasKeys) && valueCache[..] == Run(k, values, order + [index], wasValues)
  {
    hide Run, Grid.Count, Layout.Cells, Target;
    RunNext(k, keys, order, wasKeys, index);
    RunNext(k, values, order, wasValues, index);
    if index < k.Count() {
      var offset := Offset(k, index);
      keyCache[offset] := keys[index];
      valueCache[offset] := values[index];
    }
  }

  lemma RunNext(k: Grid, source: seq<real>, order: seq<nat>, cells: seq<real>, index: nat)
    requires k.Valid() && |source| == k.Count() && |cells| == k.g.Cells()
    ensures index < k.Count() ==> HasRow(k, index) && Target(k, index) < k.g.Cells()
    ensures Run(k, source, order + [index], cells) ==
      if index < k.Count() then Run(k, source, order, cells)[Target(k, index) := source[index]] else Run(k, source, order, cells)
  {
    hide Grid.Count, Layout.Cells, Target;
    assert (order + [index])[..|order|] == order;
    if index < k.Count() {
      ThreadOk(k, index);
    }
  }

  /** The address a thread computes. */
  method Offset(k: Grid, index: nat) returns (offset: nat)
    requires k.Valid() && index < k.Count()
    ensures HasRow(k, index) && offset == Target(k, index)
  {
    hide Layout.Cells, Layout.Address, Layout.Base, Grid.Slot, Grid.Count;
    RowOfThread(k, index);
    var row := index / k.g.kvDim;
    var dim := index % k.g.kvDim;
    RowAddress(k, row, dim);
    var position := k.positions[row];
    var page := k.tables[row * k.width + position / k.g.blockSize];
    offset := k.g.Address(k.layer, page, position % k.g.blockSize, dim);
  }

  lemma RunNone(k: Grid, source: seq<real>, cells: seq<real>)
    requires k.Valid() && |source| == k.Count() && |cells| == k.g.Cells()
    ensures Run(k, source, [], cells) == cells
  {
  }

  /** The kernel, its threads in the order in which the device happens to run them. */
  method StoreBatch(k: Grid, order: seq<nat>, keys: seq<real>, values: seq<real>, keyCache: array<real>, valueCache: array<real>)
    requires k.Valid() && |keys| == |values| == k.Count() && keyCache.Length == valueCache.Length == k.g.Cells() && keyCache != valueCache
    modifies keyCache, valueCache
    ensures keyCache[..] == Run(k, keys, order, old(keyCache[..])) && valueCache[..] == Run(k, values, order, old(valueCache[..]))
  {
    hide Grid.Valid, Grid.Count, Layout.Cells, Run;
    ghost var wasKeys, wasValues := keyCache[..], valueCache[..];
    RunNone(k, keys, wasKeys);
    RunNone(k, values, wasValues);
    var n := 0;
    while n < |order|
      invariant 0 <= n <= |order|
      invariant keyCache[..] == Run(k, keys, order[..n], wasKeys) && valueCache[..] == Run(k, values, order[..n], wasValues)
    {
      StoreThread(k, order[n], keys, values, keyCache, valueCache, order[..n], wasKeys, wasValues);
      assert order[..n + 1] == order[..n] + [order[n]];
      n := n + 1;
    }
    assert order[..n] == order;
  }

  // ---------------------------------------------------------------- a batch of the runner

  ghost function Positions(rows: seq<Row>): (r: seq<nat>)
    ensures |r| == |rows|
  {
    seq(|rows|, i requires 0 <= i < |rows| => rows[i].pos)
  }

  /** The kernel's arguments for a batch. */
  ghost function GridOf(g: Layout, layer: nat, width: nat, rows: seq<Row>): Grid
    requires Narrow(rows, width)
  {
    Grid(g, layer, width, Positions(rows), Flat(rows, width))
  }

  ghost function ShapeIn(g: Layout): Shape {
    Shape(g.blockSize, g.Slots())
  }

  /** What the runner's checks and the plan give: tables no wider than the upload, pages of the pool,
      positions covered, and no row touching what a later one writes. */
  ghost predicate BatchOk(g: Layout, width: nat, rows: seq<Row>) {
    && Narrow(rows, width) && RowsOk(ShapeIn(g), rows) && NoReadAhead(ShapeIn(g), rows)
    && forall r: nat, j: nat :: r < |rows| && j < |rows[r].table| ==> rows[r].table[j] < g.numBlocks
  }

  /** A thread of row `r` finds the slot that this row is stored to on the CPU. */
  lemma SlotIsTarget(g: Layout, layer: nat, width: nat, rows: seq<Row>, r: nat)
    requires BatchOk(g, width, rows) && r < |rows|
    ensures var k := GridOf(g, layer, width, rows);
      k.RowFits(r) && k.Slot(r) == PagedBatch.Target(ShapeIn(g), rows[r])
  {
    hide NoReadAhead, Flat;
    assert RowOk(ShapeIn(g), rows[r]);
    DivBounds(rows[r].pos, g.blockSize);
    FlatAt(rows, width, r, rows[r].pos / g.blockSize);
  }

  lemma GridOk(g: Layout, layer: nat, width: nat, rows: seq<Row>)
    requires BatchOk(g, width, rows) && layer < g.layers && g.kvDim > 0
    ensures GridOf(g, layer, width, rows).Valid()
  {
    var k := GridOf(g, layer, width, rows);
    hide Grid.Slot, Grid.RowFits, Flat, RowOk, Layout.Slots, PagedBatch.Target;
    forall r: nat | r < |rows| ensures k.RowFits(r) {
      SlotIsTarget(g, layer, width, rows, r);
    }
    forall a: nat, b: nat | a < b < |rows| ensures k.Slot(a) != k.Slot(b) {
      SlotIsTarget(g, layer, width, rows, a);
      SlotIsTarget(g, layer, width, rows, b);
      assert Apart(ShapeIn(g), rows[a], rows[b]);
      OwnTarget(ShapeIn(g), rows[a], rows[b]);
    }
  }

  lemma OwnTarget(g: Shape, row: Row, later: Row)
    requires RowOk(g, row) && RowOk(g, later) && Apart(g, row, later)
    ensures PagedBatch.Target(g, row) != PagedBatch.Target(g, later)
  {
  }

  /** The projections of all rows, row after row. */
  ghost function KeysOf(m: Model, layer: nat, rows: seq<Row>, hs: seq<Vec>): seq<real>
    requires |hs| == |rows|
  {
    if rows == [] then []
    else
      var n := |rows| - 1;
      KeysOf(m, layer, rows[..n], hs[..n]) + NewKv(m, layer, rows[n], hs[n]).key
  }

  ghost function ValuesOf(m: Model, layer: nat, rows: seq<Row>, hs: seq<Vec>): seq<real>
    requires |hs| == |rows|
  {
    if rows == [] then []
    else
      var n := |rows| - 1;
      ValuesOf(m, layer, rows[..n], hs[..n]) + NewKv(m, layer, rows[n], hs[n]).value
  }

  ghost predicate Wide(m: Model, layer: nat, kvDim: nat) {
    forall row: Row, h: Vec :: |NewKv(m, layer, row, h).key| == kvDim && |NewKv(m, layer, row, h).value| == kvDim
  }

  lemma {:induction false} KvSize(m: Model, layer: nat, rows: seq<Row>, hs: seq<Vec>, kvDim: nat)
    requires |hs| == |rows| && Wide(m, layer, kvDim)
    ensures |KeysOf(m, layer, rows, hs)| == |ValuesOf(m, layer, rows, hs)| == |rows| * kvDim
    decreases |rows|
  {
    hide NewKv;
    if rows != [] {
      KvSize(m, layer, rows[..|rows| - 1], hs[..|rows| - 1], kvDim);
    }
  }

  lemma {:induction false} KvPart(m: Model, layer: nat, rows: seq<Row>, hs: seq<Vec>, kvDim: nat, r: nat)
    requires |hs| == |rows| && Wide(m, layer, kvDim) && r < |rows|
    ensures 0 <= r * kvDim && r * kvDim + kvDim <= |rows| * kvDim
    ensures |KeysOf(m, layer, rows, hs)| == |ValuesOf(m, layer, rows, hs)| == |rows| * kvDim
    ensures KeysOf(m, layer, rows, hs)[r * kvDim..r * kvDim + kvDim] == NewKv(m, layer, rows[r], hs[r]).key
    ensures ValuesOf(m, layer, rows, hs)[r * kvDim..r * kvDim + kvDim] == NewKv(m, layer, rows[r], hs[r]).value
    decreases |rows|
  {
    hide NewKv;
    var n := |rows| - 1;
    KvSize(m, layer, rows, hs, kvDim);
    KvSize(m, layer, rows[..n], hs[..n], kvDim);
    MulMono(0, r, kvDim);
    MulMonoStrict(r, |rows|, kvDim);
    if r < n {
      KvPart(m, layer, rows[..n], hs[..n], kvDim, r);
      MulMonoStrict(r, n, kvDim);
      SliceOfSum(KeysOf(m, layer, rows[..n], hs[..n]), NewKv(m, layer, rows[n], hs[n]).key, r * kvDim, r * kvDim + kvDim);
      SliceOfSum(ValuesOf(m, layer, rows[..n], hs[..n]), NewKv(m, layer, rows[n], hs[n]).value, r * kvDim, r * kvDim + kvDim);
    }
  }

  lemma SliceOfSum(a: seq<real>, b: seq<real>, x: nat, y: nat)
    requires x <= y <= |a|
    ensures (a + b)[x..y] == a[x..y]
  {
  }

  /** The row by row copies are the stores of the layer-by-layer pass. */
  lemma {:induction false} CopiedStores(m: Model, g: Layout, layer: nat, width: nat, rows: seq<Row>, hs: seq<Vec>, keys: seq<real>, values: seq<real>, n: nat)
    requires BatchOk(g, width, rows) && layer < g.layers && g.kvDim > 0 && |hs| == |rows| && Wide(m, layer, g.kvDim)
    requires |keys| == |values| == g.Cells() && n <= |rows|
    ensures GridOf(g, layer, width, rows).Valid() && RowsOk(ShapeIn(g), rows[..n])
    ensures |KeysOf(m, layer, rows, hs)| == |ValuesOf(m, layer, rows, hs)| == GridOf(g, layer, width, rows).Count()
    ensures var k := GridOf(g, layer, width, rows);
      View(g, Copied(k, KeysOf(m, layer, rows, hs), n, keys), Copied(k, ValuesOf(m, layer, rows, hs), n, values)) ==
      View(g, keys, values)[layer := StoreAll(m, ShapeIn(g), layer, View(g, keys, values)[layer], rows[..n], hs[..n])]
    decreases n
  {
    hide NewKv, Flat, Grid.Slot, Grid.RowFits, Copied, KeysOf, ValuesOf, Layout.Base, Layout.Slots, Layout.Cells, LayerView, PagedBatch.Target, RowOk, NoReadAhead, Wide;
    var k := GridOf(g, layer, width, rows);
    var ks, vs := KeysOf(m, layer, rows, hs), ValuesOf(m, layer, rows, hs);
    var was := View(g, keys, values);
    GridOk(g, layer, width, rows);
    KvSize(m, layer, rows, hs, g.kvDim);
    if n == 0 {
      NoneCopied(k, ks, keys);
      NoneCopied(k, vs, values);
      assert was[layer := was[layer]] == was;
    } else {
      var row := n - 1;
      CopiedStores(m, g, layer, width, rows, hs, keys, values, row);
      assert rows[..n][..row] == rows[..row] && hs[..n][..row] == hs[..row] && rows[..n][row] == rows[row] && hs[..n][row] == hs[row];
      CopyStores(m, g, layer, width, rows, hs, keys, values, row);
    }
  }

  /** One copy is one store. */
  lemma CopyStores(m: Model, g: Layout, layer: nat, width: nat, rows: seq<Row>, hs: seq<Vec>, keys: seq<real>, values: seq<real>, row: nat)
    requires BatchOk(g, width, rows) && layer < g.layers && g.kvDim > 0 && |hs| == |rows| && Wide(m, layer, g.kvDim)
    requires |keys| == |values| == g.Cells() && row < |rows| && GridOf(g, layer, width, rows).Valid()
    requires |KeysOf(m, layer, rows, hs)| == |ValuesOf(m, layer, rows, hs)| == GridOf(g, layer, width, rows).Count()
    ensures RowOk(ShapeIn(g), rows[row]) && 0 <= PagedBatch.Target(ShapeIn(g), rows[row]) < g.Slots()
    ensures var k := GridOf(g, layer, width, rows);
      var ks, vs := KeysOf(m, layer, rows, hs), ValuesOf(m, layer, rows, hs);
      var before := View(g, Copied(k, ks, row, keys), Copied(k, vs, row, values));
      View(g, Copied(k, ks, row + 1, keys), Copied(k, vs, row + 1, values)) ==
      before[layer := before[layer][PagedBatch.Target(ShapeIn(g), rows[row]) := NewKv(m, layer, rows[row], hs[row])]]
  {
    hide NewKv, Flat, Grid.Slot, Grid.RowFits, Copied, KeysOf, ValuesOf, Layout.Base, Layout.Slots, Layout.Cells, LayerView, PagedBatch.Target, NoReadAhead, Wide, View;
    var k := GridOf(g, layer, width, rows);
    var ks, vs := KeysOf(m, layer, rows, hs), ValuesOf(m, layer, rows, hs);
    assert RowOk(ShapeIn(g), rows[row]);
    hide RowOk;
    SlotIsTarget(g, layer, width, rows, row);
    KvPart(m, layer, rows, hs, g.kvDim, row);
    NewSize(m, layer, g.kvDim, rows[row], hs[row]);
    CopyIsWritten(k, ks, row, keys);
    CopyIsWritten(k, vs, row, values);
    StoreView(g, Copied(k, ks, row, keys), Copied(k, vs, row, values), Copied(k, ks, row + 1, keys), Copied(k, vs, row + 1, values), layer,
              k.Slot(row), NewKv(m, layer, rows[row], hs[row]));
  }

  lemma NewSize(m: Model, layer: nat, kvDim: nat, row: Row, h: Vec)
    requires Wide(m, layer, kvDim)
    ensures |NewKv(m, layer, row, h).key| == |NewKv(m, layer, row, h).value| == kvDim
  {
  }

  /** However the threads run, once each has run the kernel has stored the batch: the layer holds what the
      layer-by-layer pass stores, and no other layer has changed. */
  lemma KernelStores(m: Model, g: Layout, layer: nat, width: nat, rows: seq<Row>, hs: seq<Vec>, order: seq<nat>, keys: seq<real>, values: seq<real>)
    requires BatchOk(g, width, rows) && layer < g.layers && g.kvDim > 0 && |hs| == |rows| && Wide(m, layer, g.kvDim)
    requires |keys| == |values| == g.Cells()
    requires forall index: nat :: index < |rows| * g.kvDim ==> index in order
    ensures GridOf(g, layer, width, rows).Valid()
    ensures |KeysOf(m, layer, rows, hs)| == |ValuesOf(m, layer, rows, hs)| == GridOf(g, layer, width, rows).Count()
    ensures var k := GridOf(g, layer, width, rows);
      View(g, Run(k, KeysOf(m, layer, rows, hs), order, keys), Run(k, ValuesOf(m, layer, rows, hs), order, values)) ==
      View(g, keys, values)[layer := StoreAll(m, ShapeIn(g), layer, View(g, keys, values)[layer], rows, hs)]
  {
    var k := GridOf(g, layer, width, rows);
    hide Run, Copied, View, StoreAll, KeysOf, ValuesOf, BatchOk, Wide, Flat;
    CopiedStores(m, g, layer, width, rows, hs, keys, values, |rows|);
    assert rows[..|rows|] == rows && hs[..|rows|] == hs;
    StoreAgrees(k, KeysOf(m, layer, rows, hs), order, keys);
    StoreAgrees(k, ValuesOf(m, layer, rows, hs), order, values);
  }

  /** What is known of the batch of a run that succeeds. */
  lemma RunPassed(w: World, e: State)
    requires EngineInv(w, e) && e.phase.Scheduled? && RunPhase(w, e).0 == Success
    ensures CanRun(w, e) && NoReadAhead(ShapeOf(w.c), BatchRows(e.sched.seqs, Places(e.phase.plan.items)))
    ensures forall k :: 0 <= k < |e.phase.plan.items| ==> e.phase.plan.items[k].who < |e.sched.seqs| && e.phase.plan.items[k].count > 0
    ensures CheckBatch(w, BatchRows(e.sched.seqs, Places(e.phase.plan.items)),
                       SampleRows(e.sched.seqs, e.phase.plan.isPrefill, e.phase.plan.items)) == Success
  {
    RunReady(w, e);
    hide Inv, RequestsOk, Numbered, WellFormed, ForwardBatch, BatchRows, Places, RowsCover, RowsOk, PlacesOk, CacheOk, PlanOk, ItemsOk,
      NoReadAhead, AllOrComplete, RunPhase, CheckBatch, Total, SampleRows, CanRun, ForwardBatchHidden, ForwardBatchCache, SampleUpTo, Walkable;
    RunUnroll(w, e);
    PlanOkMatches(w.c, e.sched, e.phase.plan);
    PlanRows(w.c, e.sched, e.phase.plan.items);
  }

  lemma PlanOkMatches(c: Config, st: Sched, plan: Plan)
    requires WellFormed(st) && PlanOk(c, st, plan)
    ensures Matches(st.seqs, plan.items)
  {
  }

  /** Every batch that an engine runs meets these conditions, so its threads never meet. */
  lemma PlanStores(w: World, e: State, kvDim: nat)
    requires EngineInv(w, e) && e.phase.Scheduled? && RunPhase(w, e).0 == Success
    ensures CanRun(w, e)
    ensures BatchOk(Layout(w.m.layers, w.c.numKvBlocks, w.c.blockSize, kvDim), NumBlocks(w.contextLen, w.c.blockSize),
                    BatchRows(e.sched.seqs, Places(e.phase.plan.items)))
  {
    hide EngineInv, ForwardBatch, BatchRows, Places, RowsOk, PlacesOk, CacheOk, NoReadAhead, RunPhase, NumBlocks, CheckBatch, SampleRows, Narrow;
    RunPassed(w, e);
    PassedChecks(w, BatchRows(e.sched.seqs, Places(e.phase.plan.items)), SampleRows(e.sched.seqs, e.phase.plan.isPrefill, e.phase.plan.items));
    assert ShapeIn(Layout(w.m.layers, w.c.numKvBlocks, w.c.blockSize, kvDim)) == ShapeOf(w.c);
  }

  lemma PassedChecks(w: World, rows: seq<Row>, sampleRows: seq<nat>)
    requires CheckBatch(w, rows, sampleRows) == Success
    ensures Narrow(rows, NumBlocks(w.contextLen, w.c.blockSize))
    ensures forall r: nat, j: nat :: r < |rows| && j < |rows[r].table| ==> rows[r].table[j] < w.c.numKvBlocks
  {
    hide CheckRow, NumBlocks;
    RowsAllChecked(w, rows);
    forall r: nat | r < |rows|
      ensures |rows[r].table| <= NumBlocks(w.contextLen, w.c.blockSize) && forall j: nat :: j < |rows[r].table| ==> rows[r].table[j] < w.c.numKvBlocks
    {
      TableChecked(w, rows[r]);
    }
  }

  lemma TableChecked(w: World, row: Row)
    requires CheckRow(w, row) == Success
    ensures |row.table| <= NumBlocks(w.contextLen, w.c.blockSize) && forall j: nat :: j < |row.table| ==> row.table[j] < w.c.numKvBlocks
  {
    hide NumBlocks;
  }
}
