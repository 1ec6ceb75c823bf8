/** The model runner: model/src/qwen3_kv_cache.cpp and model/src/qwen3_paged_batch.cpp on the CPU. The
    caches are flat arrays, written in place; what they hold afterwards, and the logits, are proved to be
    those of PagedBatch.ForwardBatch. */
module PagedRunners {
  import opened Common
  import opened Blocks
  import opened Attention
  import opened Transformer
  import opened PagedBatch
  import opened CacheLayout
  import opened PagedAttention
  import opened Generation
  import opened EngineSpec

  /** The projections produce vectors of the configured widths. */
  ghost predicate Sized(m: Model, kvHeads: nat, kvDim: nat) {
    && Grouped(m.heads, kvHeads, kvDim)
    && (forall l: nat, h: Vec, pos: nat :: |m.query(l, h, pos)| == m.heads.headNum * m.heads.headSize)
    && (forall l: nat, h: Vec, pos: nat :: |m.keyOf(l, h, pos)| == kvDim)
    && (forall l: nat, h: Vec :: |m.valueOf(l, h)| == kvDim)
  }

  lemma SizedNew(m: Model, kvHeads: nat, kvDim: nat, l: nat, row: Row, h: Vec)
    requires Sized(m, kvHeads, kvDim)
    ensures |m.keyOf(l, h, row.pos)| == |m.valueOf(l, h)| == kvDim && m.Valid()
  {
  }

  ghost function LogitsAt(m: Model, hs: seq<Vec>, sampleRows: seq<nat>): (r: seq<Vec>)
    ensures |r| == |sampleRows|
  {
    seq(|sampleRows|, k requires 0 <= k < |sampleRows| => if sampleRows[k] < |hs| then m.logits(hs[sampleRows[k]]) else [])
  }

  /** Every row passed the checks. */
  ghost predicate RowsChecked(w: World, rows: seq<Row>) {
    forall r: nat :: r < |rows| ==> CheckRow(w, rows[r]) == Success
  }

  lemma {:induction false} RowsAllChecked(w: World, rows: seq<Row>)
    requires CheckRows(w, rows) == Success
    ensures RowsChecked(w, rows)
    decreases |rows|
  {
    hide CheckRow;
    if rows != [] {
      RowsAllChecked(w, rows[1..]);
      forall r: nat | r < |rows| ensures CheckRow(w, rows[r]) == Success {
        assert r > 0 ==> rows[r] == rows[1..][r - 1];
      }
    }
  }

  lemma CheckedRowOk(w: World, row: Row)
    requires CheckRow(w, row) == Success
    ensures RowOk(ShapeOf(w.c), row)
  {
    var g := ShapeOf(w.c);
    forall q: nat | q <= row.pos
      ensures q / g.blockSize < |row.table| && 0 <= SlotOf(g.blockSize, row.table, q) < g.slots
    {
      DivMono(q, row.pos, g.blockSize);
      DivBounds(q, g.blockSize);
      SlotInRange(g.blockSize, row.table[q / g.blockSize], q % g.blockSize, w.c.numKvBlocks);
    }
  }

  lemma CheckedRowsOk(w: World, rows: seq<Row>)
    requires RowsChecked(w, rows)
    ensures RowsOk(ShapeOf(w.c), rows)
  {
    hide CheckRow, RowOk;
    forall r: nat | r < |rows| ensures RowOk(ShapeOf(w.c), rows[r]) {
      CheckedRowOk(w, rows[r]);
    }
  }

  lemma {:induction false} GatherIgnoresToken(g: Shape, layer: Layer, row: Row, n: nat)
    requires RowOk(g, row) && RowOk(g, Row(0, row.pos, row.table)) && n <= row.pos + 1 && |layer| == g.slots
    ensures Gather(g, layer, Row(0, row.pos, row.table), n) == Gather(g, layer, row, n)
  {
    hide SlotOf;
    if n > 0 {
      GatherIgnoresToken(g, layer, row, n - 1);
    }
  }

  class PagedRunner {
    const m: Model
    const contextLen: nat
    const isEos: Token -> bool
    const kvHeads: nat
    const kvDim: nat
    var g: Layout
    var maxBatch: int
    var keys: array<real>
    var values: array<real>

    ghost predicate Valid()
      reads this
    {
      && Sized(m, kvHeads, kvDim)
      && g.layers == m.layers && g.kvDim == kvDim
      && keys.Length == values.Length == g.Cells() && keys != values
    }

    /** The cache was configured for this engine. */
    ghost predicate For(w: World)
      reads this
    {
      && w.m == m && w.contextLen == contextLen && w.isEos == isEos
      && g.blockSize == w.c.blockSize && g.numBlocks == w.c.numKvBlocks && maxBatch == w.c.maxNumBatchedTokens
    }

    predicate Configured()
      reads this
    {
      g.numBlocks > 0 && g.blockSize > 0 && maxBatch > 0
    }

    lemma ForConfigured(w: World)
      requires For(w)
      ensures Configured()
    {
    }

    /** What the arrays hold. */
    ghost function Cached(): Cache
      reads this, keys, values
    {
      View(g, keys[..], values[..])
    }

    constructor (m: Model, contextLen: nat, isEos: Token -> bool, kvHeads: nat)
      requires Sized(m, kvHeads, kvHeads * m.heads.headSize)
      ensures Valid() && g.numBlocks == 0 && this.m == m && this.contextLen == contextLen && this.isEos == isEos
      ensures fresh(keys) && fresh(values)
    {
      this.m, this.contextLen, this.isEos, this.kvHeads, this.kvDim := m, contextLen, isEos, kvHeads, kvHeads * m.heads.headSize;
      g := Layout(m.layers, 0, 0, kvHeads * m.heads.headSize);
      maxBatch := 0;
      keys, values := new real[0], new real[0];
      new;
      assert m.layers * 0 == 0;
    }

    /** configure_paged_kv_cache: the contents of the new arrays are whatever the memory holds. */
    method Configure(numBlocks: int, blockSize: int, maxBatchTokens: int) returns (status: Status)
      requires Valid()
      modifies this
      ensures Valid()
      ensures status ==
        if numBlocks <= 0 || blockSize <= 0 || blockSize > contextLen || maxBatchTokens <= 0 then Failure(BadCacheShape)
        else if old(g.numBlocks) > 0 then Failure(AlreadyConfigured) else Success
      ensures status.Failure? ==> unchanged(this)
      ensures status == Success ==> g == Layout(m.layers, numBlocks, blockSize, kvDim) && maxBatch == maxBatchTokens && fresh(keys) && fresh(values)
    {
      if numBlocks <= 0 || blockSize <= 0 || blockSize > contextLen || maxBatchTokens <= 0 {
        return Failure(BadCacheShape);
      }
      if g.numBlocks > 0 {
        return Failure(AlreadyConfigured);
      }
      g := Layout(m.layers, numBlocks, blockSize, kvDim);
      keys := new real[g.Cells()];
      values := new real[g.Cells()];
      maxBatch := maxBatchTokens;
      return Success;
    }

    // -------------------------------------------------------------- checks

    method Check(ghost w: World, rows: seq<Row>, sampleRows: seq<nat>) returns (status: Status)
      requires Valid() && For(w)
      ensures status == CheckBatch(w, rows, sampleRows)
    {
      hide CheckRow, NumBlocks;
      if rows == [] || |rows| > maxBatch {
        return Failure(BatchCountInvalid);
      }
      var r := 0;
      assert rows[0..] == rows;
      while r < |rows|
        invariant 0 <= r <= |rows| && CheckRows(w, rows) == CheckRows(w, rows[r..])
      {
        status := CheckOne(w, rows[r]);
        assert rows[r..][1..] == rows[r + 1..];
        if status.Failure? {
          return;
        }
        r := r + 1;
      }
      var k := 0;
      while k < |sampleRows|
        invariant 0 <= k <= |sampleRows| && forall j :: 0 <= j < k ==> sampleRows[j] < |rows|
      {
        if sampleRows[k] >= |rows| {
          return Failure(InvalidSampleRow);
        }
        k := k + 1;
      }
      return Success;
    }

    method CheckOne(ghost w: World, row: Row) returns (status: Status)
      requires Valid() && For(w)
      ensures status == CheckRow(w, row)
    {
      var maxTableEntries := NumBlocks(contextLen, g.blockSize);
      if row.pos >= contextLen {
        return Failure(PositionOutOfContext);
      }
      var logicalBlock := row.pos / g.blockSize;
      if row.table == [] || |row.table| > maxTableEntries || logicalBlock >= |row.table| {
        return Failure(TableDoesNotCover);
      }
      var j := 0;
      while j < |row.table|
        invariant 0 <= j <= |row.table| && forall i :: 0 <= i < j ==> row.table[i] < g.numBlocks
      {
        if row.table[j] >= g.numBlocks {
          return Failure(InvalidPage);
        }
        j := j + 1;
      }
      return Success;
    }

    // -------------------------------------------------------------- stores

    /** A copy of `v` into `cells` from `base` on. */
    method Copy(cells: array<real>, base: nat, v: Vec)
      requires base + |v| <= cells.Length
      modifies cells
      ensures Written(old(cells[..]), cells[..], base, v)
    {
      var i := 0;
      while i < |v|
        invariant 0 <= i <= |v|
        invariant forall x: nat :: base <= x < base + i ==> cells[x] == v[x - base]
        invariant forall x: nat :: x < cells.Length && (x < base || x >= base + i) ==> cells[x] == old(cells[x])
      {
        cells[base + i] := v[i];
        i := i + 1;
      }
    }

    /** One row's keys and values go to its slot. */
    method StoreRow(ghost w: World, layer: nat, row: Row, h: Vec)
      requires Valid() && For(w) && layer < m.layers && CheckRow(w, row) == Success
      modifies keys, values
      ensures RowOk(ShapeOf(w.c), row) && Valid()
      ensures Cached() == old(Cached())[layer := old(Cached())[layer][Target(ShapeOf(w.c), row) := NewKv(m, layer, row, h)]]
    {
      hide View, LayerView, Written, Layout.Cells, Layout.Base, Layout.Slots, Sized;
      CheckedRowOk(w, row);
      SizedNew(m, kvHeads, kvDim, layer, row, h);
      var page := row.pos / g.blockSize;
      DivBounds(row.pos, g.blockSize);
      var offset := g.Address(layer, row.table[page], row.pos % g.blockSize, 0);
      ghost var slot := Target(ShapeOf(w.c), row);
      AddressIsBase(g, layer, row.table[page], row.pos % g.blockSize, 0);
      SlotsOf(g);
      BaseBounds(g, layer, slot);
      ghost var k, v := keys[..], values[..];
      Copy(keys, offset, m.keyOf(layer, h, row.pos));
      Copy(values, offset, m.valueOf(layer, h));
      StoreView(g, k, v, keys[..], values[..], layer, slot, NewKv(m, layer, row, h));
    }

    /** The first half of a layer: every row is stored, in row order. */
    method StoreRows(ghost w: World, layer: nat, rows: seq<Row>, hs: seq<Vec>)
      requires Valid() && For(w) && layer < m.layers && RowsChecked(w, rows) && |hs| == |rows|
      modifies keys, values
      ensures RowsOk(ShapeOf(w.c), rows) && Valid() && CacheOk(m, ShapeOf(w.c), old(Cached())) && CacheOk(m, ShapeOf(w.c), Cached())
      ensures Cached() == old(Cached())[layer := StoreAll(m, ShapeOf(w.c), layer, old(Cached())[layer], rows, hs)]
    {
      hide CheckRow, RowOk, NewKv, View, LayerView, Target, Sized;
      CheckedRowsOk(w, rows);
      ViewOk(w);
      ghost var shape := ShapeOf(w.c);
      ghost var was := Cached();
      assert was == was[layer := was[layer]];
      var r := 0;
      while r < |rows|
        invariant 0 <= r <= |rows| && Valid() && For(w)
        invariant RowsOk(shape, rows[..r])
        invariant Cached() == was[layer := StoreAll(m, shape, layer, was[layer], rows[..r], hs[..r])]
      {
        assert rows[..r + 1][..r] == rows[..r] && hs[..r + 1][..r] == hs[..r];
        assert rows[..r + 1][r] == rows[r] && hs[..r + 1][r] == hs[r];
        assert forall k: nat :: k < r + 1 ==> rows[..r + 1][k] == rows[k];
        StoreRow(w, layer, rows[r], hs[r]);
        r := r + 1;
      }
      assert rows[..r] == rows && hs[..r] == hs;
      ViewOk(w);
    }

    lemma ViewOk(w: World)
      requires Valid() && For(w)
      ensures CacheOk(m, ShapeOf(w.c), Cached())
      ensures ShapeOf(w.c) == Shape(g.blockSize, g.Slots())
      ensures |Cached()| == g.layers && forall l: nat :: l < m.layers ==> Cached()[l] == LayerView(g, keys[..], values[..], l)
    {
      hide LayerView;
    }

    // -------------------------------------------------------------- attention

    /** One row attends; its output goes to its place in `output`. */
    method AttendRow(ghost w: World, layer: nat, row: Row, h: Vec, score: array<real>, output: array<real>, base: nat)
      requires Valid() && For(w) && layer < m.layers && CheckRow(w, row) == Success
      requires score.Length == m.heads.headNum * contextLen && base + m.heads.headNum * m.heads.headSize <= output.Length
      requires output != keys && output != values && score != keys && score != values && output != score
      modifies output, score
      ensures RowOk(ShapeOf(w.c), row) && m.Valid() && CacheOk(m, ShapeOf(w.c), Cached())
      ensures m.post(layer, h, output[base..base + m.heads.headNum * m.heads.headSize]) == NextHidden(m, ShapeOf(w.c), layer, Cached()[layer], row, h)
      ensures SameOutside(old(output[..]), output[..], base, m.heads.headNum * m.heads.headSize)
    {
      hide LayerView, View, Layout.Slots, Layout.Cells, SameOutside, AttendAt, Attend;
      CheckedRowOk(w, row);
      ViewOk(w);
      var k := Launch(m.heads, g, layer, row.table, row.pos);
      LaunchRow(k);
      GatherIgnoresToken(ShapeOf(w.c), Cached()[layer], row, row.pos + 1);
      PagedAttentionCpu(k, kvHeads, m.query(layer, h, row.pos), keys, values, score, contextLen, output, base);
    }

    /** The second half of a layer: every row attends, and its hidden state moves on. */
    method AttendRows(ghost w: World, layer: nat, rows: seq<Row>, hs: seq<Vec>) returns (next: seq<Vec>)
      requires Valid() && For(w) && layer < m.layers && RowsChecked(w, rows) && |hs| == |rows|
      ensures RowsOk(ShapeOf(w.c), rows) && m.Valid() && CacheOk(m, ShapeOf(w.c), Cached())
      ensures next == AttendAll(m, ShapeOf(w.c), layer, Cached()[layer], rows, hs)
    {
      hide CheckRow, RowOk, NextHidden, View, LayerView, SameOutside, Sized;
      CheckedRowsOk(w, rows);
      ViewOk(w);
      MValid();
      ghost var shape := ShapeOf(w.c);
      var width: nat := m.heads.headNum * m.heads.headSize;
      var score := new real[m.heads.headNum * contextLen];
      var output := new real[|rows| * width];
      next := [];
      var r := 0;
      while r < |rows|
        invariant 0 <= r <= |rows| && RowsOk(shape, rows[..r])
        invariant next == AttendAll(m, shape, layer, Cached()[layer], rows[..r], hs[..r])
      {
        assert rows[..r + 1][..r] == rows[..r] && hs[..r + 1][..r] == hs[..r];
        assert rows[..r + 1][r] == rows[r] && hs[..r + 1][r] == hs[r];
        assert forall k: nat :: k < r + 1 ==> rows[..r + 1][k] == rows[k];
        MulMono(0, r, width);
        MulMonoStrict(r, |rows|, width);
        AttendRow(w, layer, rows[r], hs[r], score, output, r * width);
        next := next + [m.post(layer, hs[r], output[r * width..r * width + width])];
        r := r + 1;
      }
      assert rows[..r] == rows && hs[..r] == hs;
    }

    lemma MValid()
      requires Valid()
      ensures m.Valid()
    {
    }

    // -------------------------------------------------------------- the forward pass

    method Embed(rows: seq<Row>) returns (hs: seq<Vec>)
      ensures hs == Embeds(m, rows)
    {
      hs := [];
      var r := 0;
      while r < |rows|
        invariant 0 <= r <= |rows| && hs == Embeds(m, rows[..r])
      {
        assert rows[..r + 1][..r] == rows[..r];
        hs := hs + [m.embed(rows[r].token)];
        r := r + 1;
      }
      assert rows[..r] == rows;
    }

    /** forward_paged_batch: nothing changes unless every check passes; then the caches hold what running
        the whole batch layer by layer leaves, and the logits are those of the sampled rows. */
    method ForwardPagedBatch(ghost w: World, rows: seq<Row>, sampleRows: seq<nat>) returns (status: Status, logits: seq<Vec>, ghost hs: seq<Vec>)
      requires Valid() && (Configured() ==> For(w))
      modifies keys, values
      ensures Valid() && status == if Configured() then CheckBatch(w, rows, sampleRows) else Failure(NotConfigured)
      ensures status.Failure? ==> Cached() == old(Cached())
      ensures status == Success ==> RowsOk(ShapeOf(w.c), rows) && m.Valid() && CacheOk(m, ShapeOf(w.c), old(Cached()))
      ensures status == Success ==> (Cached(), hs) == ForwardBatch(m, ShapeOf(w.c), old(Cached()), rows)
      ensures status == Success ==> logits == LogitsAt(m, hs, sampleRows)
    {
      hide CheckRow, RowOk, CheckRows, View, LayerView, Sized, StoreAll, AttendAll, Embeds;
      logits, hs := [], [];
      if g.numBlocks <= 0 || g.blockSize <= 0 || maxBatch <= 0 {
        return Failure(NotConfigured), logits, hs;
      }
      status := Check(w, rows, sampleRows);
      if status.Failure? {
        return;
      }
      RowsAllChecked(w, rows);
      CheckedRowsOk(w, rows);
      ViewOk(w);
      MValid();
      ghost var shape := ShapeOf(w.c);
      ghost var was := Cached();
      var hidden := Embed(rows);
      var layer := 0;
      while layer < m.layers
        invariant 0 <= layer <= m.layers && Valid() && For(w) && |hidden| == |rows|
        invariant CacheOk(m, shape, Cached())
        invariant LayersFrom(m, shape, 0, was, rows, Embeds(m, rows)) == LayersFrom(m, shape, layer, Cached(), rows, hidden)
      {
        ghost var before := Cached();
        StoreRows(w, layer, rows, hidden);
        assert Cached()[layer] == StoreAll(m, shape, layer, before[layer], rows, hidden);
        hidden := AttendRows(w, layer, rows, hidden);
        layer := layer + 1;
      }
      hs := hidden;
      var k := 0;
      while k < |sampleRows|
        invariant 0 <= k <= |sampleRows| && |logits| == k
        invariant forall j :: 0 <= j < k ==> logits[j] == LogitsAt(m, hs, sampleRows)[j]
      {
        logits := logits + [m.logits(hidden[sampleRows[k]])];
        k := k + 1;
      }
    }
  }
}
