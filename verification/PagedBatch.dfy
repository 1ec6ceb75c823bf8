/** The paged forward pass on logical caches: `cache[layer][slot]` is what one slot of one layer holds.
    model/src/qwen3_paged_batch.cpp runs layer by layer over all rows; the reference runs row by row. */
module PagedBatch {
  import opened Common
  import opened Blocks
  import opened Attention
  import opened Transformer

  type Layer = seq<KV>
  type Cache = seq<Layer>

  datatype Row = Row(token: Token, pos: nat, table: seq<nat>)

  /** The shape of the cache: block size and slots per layer. */
  datatype Shape = Shape(blockSize: nat, slots: nat)

  ghost predicate CacheOk(m: Model, g: Shape, cache: Cache) {
    |cache| == m.layers && forall l: nat :: l < m.layers ==> |cache[l]| == g.slots
  }

  /** Every position up to the row's own has a slot inside the cache. */
  ghost predicate RowOk(g: Shape, row: Row) {
    && g.blockSize > 0
    && row.pos / g.blockSize < |row.table|
    && forall q: nat :: q <= row.pos ==> q / g.blockSize < |row.table| && 0 <= SlotOf(g.blockSize, row.table, q) < g.slots
  }

  function Target(g: Shape, row: Row): int
    requires g.blockSize > 0 && row.pos / g.blockSize < |row.table|
  {
    SlotOf(g.blockSize, row.table, row.pos)
  }

  /** What attention gathers for the first `n` positions through the row's table. */
  ghost function Gather(g: Shape, layer: Layer, row: Row, n: nat): (r: seq<KV>)
    requires RowOk(g, row) && n <= row.pos + 1 && |layer| == g.slots
    ensures |r| == n
  {
    if n == 0 then [] else Gather(g, layer, row, n - 1) + [layer[SlotOf(g.blockSize, row.table, n - 1)]]
  }

  ghost function NewKv(m: Model, l: nat, row: Row, h: Vec): KV {
    KV(m.keyOf(l, h, row.pos), m.valueOf(l, h))
  }

  ghost function NextHidden(m: Model, g: Shape, l: nat, layer: Layer, row: Row, h: Vec): Vec
    requires m.Valid() && RowOk(g, row) && |layer| == g.slots
  {
    m.post(l, h, Attend(m.heads, m.query(l, h, row.pos), Gather(g, layer, row, row.pos + 1)))
  }

  ghost predicate RowsOk(g: Shape, rows: seq<Row>) {
    forall r: nat :: r < |rows| ==> RowOk(g, rows[r])
  }

  // ---------------------------------------------------------------- layer by layer

  /** One layer, first half: every row stores its keys and values, in row order. */
  ghost function StoreAll(m: Model, g: Shape, l: nat, layer: Layer, rows: seq<Row>, hs: seq<Vec>): (r: Layer)
    requires RowsOk(g, rows) && |hs| == |rows| && |layer| == g.slots
    ensures |r| == g.slots
  {
    if rows == [] then layer
    else
      var n := |rows| - 1;
      assert RowOk(g, rows[n]);
      StoreAll(m, g, l, layer, rows[..n], hs[..n])[Target(g, rows[n]) := NewKv(m, l, rows[n], hs[n])]
  }

  /** One layer, second half: every row attends to what the layer holds now. */
  ghost function AttendAll(m: Model, g: Shape, l: nat, layer: Layer, rows: seq<Row>, hs: seq<Vec>): (r: seq<Vec>)
    requires m.Valid() && RowsOk(g, rows) && |hs| == |rows| && |layer| == g.slots
    ensures |r| == |rows|
  {
    if rows == [] then []
    else
      var n := |rows| - 1;
      assert RowOk(g, rows[n]);
      AttendAll(m, g, l, layer, rows[..n], hs[..n]) + [NextHidden(m, g, l, layer, rows[n], hs[n])]
  }

  /** forward_paged_batch from layer `l` on. */
  ghost function LayersFrom(m: Model, g: Shape, l: nat, cache: Cache, rows: seq<Row>, hs: seq<Vec>): (r: (Cache, seq<Vec>))
    requires m.Valid() && CacheOk(m, g, cache) && RowsOk(g, rows) && |hs| == |rows| && l <= m.layers
    ensures CacheOk(m, g, r.0) && |r.1| == |rows|
    decreases m.layers - l
  {
    if l == m.layers then (cache, hs)
    else
      var layer := StoreAll(m, g, l, cache[l], rows, hs);
      LayersFrom(m, g, l + 1, cache[l := layer], rows, AttendAll(m, g, l, layer, rows, hs))
  }

  ghost function Embeds(m: Model, rows: seq<Row>): (r: seq<Vec>)
    ensures |r| == |rows|
  {
    if rows == [] then [] else Embeds(m, rows[..|rows| - 1]) + [m.embed(rows[|rows| - 1].token)]
  }

  /** forward_paged_batch: the cache it leaves and each row's final hidden state. */
  ghost function ForwardBatch(m: Model, g: Shape, cache: Cache, rows: seq<Row>): (r: (Cache, seq<Vec>))
    requires m.Valid() && CacheOk(m, g, cache) && RowsOk(g, rows)
    ensures CacheOk(m, g, r.0) && |r.1| == |rows|
  {
    LayersFrom(m, g, 0, cache, rows, Embeds(m, rows))
  }

  // ---------------------------------------------------------------- row by row

  /** One row through the layers from `l` on, alone. */
  ghost function RowFrom(m: Model, g: Shape, l: nat, cache: Cache, row: Row, h: Vec): (r: (Cache, Vec))
    requires m.Valid() && CacheOk(m, g, cache) && RowOk(g, row) && l <= m.layers
    ensures CacheOk(m, g, r.0)
    decreases m.layers - l
  {
    if l == m.layers then (cache, h)
    else
      var layer := cache[l][Target(g, row) := NewKv(m, l, row, h)];
      RowFrom(m, g, l + 1, cache[l := layer], row, NextHidden(m, g, l, layer, row, h))
  }

  /** The reference: one row after the other, each through all layers. */
  ghost function RowByRow(m: Model, g: Shape, cache: Cache, rows: seq<Row>): (r: (Cache, seq<Vec>))
    requires m.Valid() && CacheOk(m, g, cache) && RowsOk(g, rows)
    ensures CacheOk(m, g, r.0) && |r.1| == |rows|
  {
    if rows == [] then (cache, [])
    else
      var n := |rows| - 1;
      assert RowOk(g, rows[n]);
      var (c0, hs) := RowByRow(m, g, cache, rows[..n]);
      var (c1, h) := RowFrom(m, g, 0, c0, rows[n], m.embed(rows[n].token));
      (c1, hs + [h])
  }

  // ---------------------------------------------------------------- both agree

  /** No row reads or writes the slot that a later row writes. */
  ghost predicate NoReadAhead(g: Shape, rows: seq<Row>)
    requires RowsOk(g, rows)
  {
    forall a: nat, b: nat :: a < b < |rows| ==> Apart(g, rows[a], rows[b])
  }

  ghost predicate Apart(g: Shape, row: Row, later: Row)
    requires RowOk(g, row) && RowOk(g, later)
  {
    forall q: nat :: q <= row.pos ==> SlotOf(g.blockSize, row.table, q) != Target(g, later)
  }

  lemma {:induction false} GatherFrame(g: Shape, layer: Layer, row: Row, n: nat, x: int, kv: KV)
    requires RowOk(g, row) && n <= row.pos + 1 && |layer| == g.slots && 0 <= x < g.slots
    requires forall q: nat :: q < n ==> SlotOf(g.blockSize, row.table, q) != x
    ensures Gather(g, layer[x := kv], row, n) == Gather(g, layer, row, n)
  {
    if n > 0 {
      GatherFrame(g, layer, row, n - 1, x, kv);
    }
  }

  lemma {:induction false} AttendFrame(m: Model, g: Shape, l: nat, layer: Layer, rows: seq<Row>, hs: seq<Vec>, last: Row, kv: KV)
    requires m.Valid() && RowsOk(g, rows) && |hs| == |rows| && |layer| == g.slots && RowOk(g, last)
    requires forall a: nat :: a < |rows| ==> Apart(g, rows[a], last)
    ensures AttendAll(m, g, l, layer[Target(g, last) := kv], rows, hs) == AttendAll(m, g, l, layer, rows, hs)
  {
    hide NextHidden, Apart, RowOk, Target;
    if rows != [] {
      var n := |rows| - 1;
      assert Apart(g, rows[n], last) && RowOk(g, rows[n]);
      assert forall a: nat :: a < n ==> rows[..n][a] == rows[a];
      AttendFrame(m, g, l, layer, rows[..n], hs[..n], last, kv);
      NextFrame(m, g, l, layer, rows[n], hs[n], last, kv);
    }
  }

  lemma NextFrame(m: Model, g: Shape, l: nat, layer: Layer, row: Row, h: Vec, last: Row, kv: KV)
    requires m.Valid() && RowOk(g, row) && |layer| == g.slots && RowOk(g, last) && Apart(g, row, last)
    ensures 0 <= Target(g, last) < g.slots
    ensures NextHidden(m, g, l, layer[Target(g, last) := kv], row, h) == NextHidden(m, g, l, layer, row, h)
  {
    hide Attend;
    GatherFrame(g, layer, row, row.pos + 1, Target(g, last), kv);
  }

  /** The layers from `l` on neither read nor write an earlier layer. */
  lemma {:induction false} LayersFrame(m: Model, g: Shape, l: nat, cache: Cache, rows: seq<Row>, hs: seq<Vec>, k: nat, layer: Layer)
    requires m.Valid() && CacheOk(m, g, cache) && RowsOk(g, rows) && |hs| == |rows| && k < l <= m.layers && |layer| == g.slots
    ensures CacheOk(m, g, cache[k := layer])
    ensures LayersFrom(m, g, l, cache[k := layer], rows, hs) ==
            (LayersFrom(m, g, l, cache, rows, hs).0[k := layer], LayersFrom(m, g, l, cache, rows, hs).1)
    ensures |cache| == m.layers && LayersFrom(m, g, l, cache, rows, hs).0[k] == cache[k]
    decreases m.layers - l
  {
    if l < m.layers {
      var y := StoreAll(m, g, l, cache[l], rows, hs);
      var hs' := AttendAll(m, g, l, y, rows, hs);
      hide StoreAll, AttendAll, RowsOk;
      LayersFrame(m, g, l + 1, cache[l := y], rows, hs', k, layer);
      assert cache[k := layer][l := y] == cache[l := y][k := layer];
    }
  }

  lemma RowsSplit(g: Shape, rows: seq<Row>, last: Row)
    requires RowsOk(g, rows + [last])
    ensures RowsOk(g, rows) && RowOk(g, last)
  {
    forall r: nat | r < |rows| ensures RowOk(g, rows[r]) {
      assert (rows + [last])[r] == rows[r];
    }
    assert (rows + [last])[|rows|] == last;
  }

  /** One more row at the end of the batch, on one layer: it stores after the others, and only it can
      see the difference. */
  lemma LayerSnoc(m: Model, g: Shape, l: nat, layer: Layer, rows: seq<Row>, hs: seq<Vec>, last: Row, h: Vec)
    requires m.Valid() && RowsOk(g, rows + [last]) && |hs| == |rows| && |layer| == g.slots
    requires RowsOk(g, rows) && RowOk(g, last) && forall a: nat :: a < |rows| ==> Apart(g, rows[a], last)
    ensures var y := StoreAll(m, g, l, layer, rows, hs);
      var z := y[Target(g, last) := NewKv(m, l, last, h)];
      && StoreAll(m, g, l, layer, rows + [last], hs + [h]) == z
      && AttendAll(m, g, l, z, rows + [last], hs + [h]) == AttendAll(m, g, l, y, rows, hs) + [NextHidden(m, g, l, z, last, h)]
  {
    assert (rows + [last])[..|rows|] == rows && (hs + [h])[..|rows|] == hs;
    var y := StoreAll(m, g, l, layer, rows, hs);
    AttendFrame(m, g, l, y, rows, hs, last, NewKv(m, l, last, h));
  }

  /** One layer peeled off, for the batch with the row and for the batch without it. */
  lemma LayersUnroll(m: Model, g: Shape, l: nat, cache: Cache, rows: seq<Row>, hs: seq<Vec>, last: Row, h: Vec, y: Layer, z: Layer, hs1: seq<Vec>, h1: Vec)
    requires m.Valid() && CacheOk(m, g, cache) && RowsOk(g, rows + [last]) && |hs| == |rows| && l < m.layers
    requires RowsOk(g, rows) && RowOk(g, last) && forall a: nat :: a < |rows| ==> Apart(g, rows[a], last)
    requires y == StoreAll(m, g, l, cache[l], rows, hs) && z == y[Target(g, last) := NewKv(m, l, last, h)]
    requires hs1 == AttendAll(m, g, l, y, rows, hs) && h1 == NextHidden(m, g, l, z, last, h)
    ensures CacheOk(m, g, cache[l := y]) && CacheOk(m, g, cache[l := z])
    ensures LayersFrom(m, g, l, cache, rows + [last], hs + [h]) == LayersFrom(m, g, l + 1, cache[l := z], rows + [last], hs1 + [h1])
    ensures LayersFrom(m, g, l, cache, rows, hs) == LayersFrom(m, g, l + 1, cache[l := y], rows, hs1)
  {
    LayerSnoc(m, g, l, cache[l], rows, hs, last, h);
    hide StoreAll, AttendAll, NewKv, NextHidden, RowsOk, Apart;
  }

  lemma RowUnroll(m: Model, g: Shape, l: nat, c0: Cache, last: Row, h: Vec, y: Layer)
    requires m.Valid() && CacheOk(m, g, c0) && RowOk(g, last) && l < m.layers && c0[l] == y
    ensures var z := y[Target(g, last) := NewKv(m, l, last, h)];
      CacheOk(m, g, c0[l := z])
      && RowFrom(m, g, l, c0, last, h) == RowFrom(m, g, l + 1, c0[l := z], last, NextHidden(m, g, l, z, last, h))
  {
    hide NewKv, NextHidden;
  }

  /** What one more row at the end of the batch does: it is run alone after the batch. */
  ghost predicate Snoc(m: Model, g: Shape, l: nat, cache: Cache, rows: seq<Row>, hs: seq<Vec>, last: Row, h: Vec)
    requires m.Valid() && CacheOk(m, g, cache) && RowsOk(g, rows + [last]) && |hs| == |rows| && l <= m.layers
    requires RowsOk(g, rows) && RowOk(g, last)
  {
    var (c0, hs') := LayersFrom(m, g, l, cache, rows, hs);
    var (c1, h') := RowFrom(m, g, l, c0, last, h);
    LayersFrom(m, g, l, cache, rows + [last], hs + [h]) == (c1, hs' + [h'])
  }

  lemma SnocStep(m: Model, g: Shape, l: nat, cache: Cache, rows: seq<Row>, hs: seq<Vec>, last: Row, h: Vec, y: Layer, z: Layer, hs1: seq<Vec>, h1: Vec)
    requires m.Valid() && CacheOk(m, g, cache) && RowsOk(g, rows + [last]) && |hs| == |rows| && l < m.layers
    requires RowsOk(g, rows) && RowOk(g, last) && forall a: nat :: a < |rows| ==> Apart(g, rows[a], last)
    requires y == StoreAll(m, g, l, cache[l], rows, hs) && z == y[Target(g, last) := NewKv(m, l, last, h)]
    requires hs1 == AttendAll(m, g, l, y, rows, hs) && h1 == NextHidden(m, g, l, z, last, h)
    requires CacheOk(m, g, cache[l := z]) && Snoc(m, g, l + 1, cache[l := z], rows, hs1, last, h1)
    ensures Snoc(m, g, l, cache, rows, hs, last, h)
  {
    LayersUnroll(m, g, l, cache, rows, hs, last, h, y, z, hs1, h1);
    LayersFrame(m, g, l + 1, cache[l := y], rows, hs1, l, z);
    assert cache[l := y][l := z] == cache[l := z];
    hide StoreAll, AttendAll, NewKv, NextHidden, RowsOk, Apart, LayersFrom, RowFrom, CacheOk, RowOk;
    RowUnroll(m, g, l, LayersFrom(m, g, l + 1, cache[l := y], rows, hs1).0, last, h, y);
  }

  lemma {:induction false} LayersSnoc(m: Model, g: Shape, l: nat, cache: Cache, rows: seq<Row>, hs: seq<Vec>, last: Row, h: Vec)
    requires m.Valid() && CacheOk(m, g, cache) && RowsOk(g, rows + [last]) && |hs| == |rows| && l <= m.layers
    requires RowsOk(g, rows) && RowOk(g, last) && forall a: nat :: a < |rows| ==> Apart(g, rows[a], last)
    ensures Snoc(m, g, l, cache, rows, hs, last, h)
    decreases m.layers - l
  {
    if l < m.layers {
      var y := StoreAll(m, g, l, cache[l], rows, hs);
      var hs1 := AttendAll(m, g, l, y, rows, hs);
      var z := y[Target(g, last) := NewKv(m, l, last, h)];
      var h1 := NextHidden(m, g, l, z, last, h);
      hide StoreAll, AttendAll, NewKv, NextHidden, RowsOk, Apart, Snoc, RowOk;
      LayersSnoc(m, g, l + 1, cache[l := z], rows, hs1, last, h1);
      SnocStep(m, g, l, cache, rows, hs, last, h, y, z, hs1, h1);
    }
  }

  /** Layer-by-layer evaluation of the batch gives the cache and the hidden states of running the rows
      one at a time, whenever no row touches the slot a later row writes. */
  lemma {:induction false} BatchIsRowByRow(m: Model, g: Shape, cache: Cache, rows: seq<Row>)
    requires m.Valid() && CacheOk(m, g, cache) && RowsOk(g, rows) && NoReadAhead(g, rows)
    ensures ForwardBatch(m, g, cache, rows) == RowByRow(m, g, cache, rows)
    decreases |rows|
  {
    if rows == [] {
      EmptyBatch(m, g, 0, cache);
    } else {
      var n := |rows| - 1;
      assert rows == rows[..n] + [rows[n]];
      RowsSplit(g, rows[..n], rows[n]);
      forall a: nat | a < n ensures Apart(g, rows[..n][a], rows[n]) {
      }
      forall a: nat, b: nat | a < b < n ensures Apart(g, rows[..n][a], rows[..n][b]) {
        assert Apart(g, rows[a], rows[b]);
      }
      hide Apart, RowsOk;
      BatchIsRowByRow(m, g, cache, rows[..n]);
      LayersSnoc(m, g, 0, cache, rows[..n], Embeds(m, rows[..n]), rows[n], m.embed(rows[n].token));
      assert (rows[..n] + [rows[n]])[..n] == rows[..n];
    }
  }

  lemma {:induction false} EmptyBatch(m: Model, g: Shape, l: nat, cache: Cache)
    requires m.Valid() && CacheOk(m, g, cache) && l <= m.layers
    ensures LayersFrom(m, g, l, cache, [], []) == (cache, [])
    decreases m.layers - l
  {
    if l < m.layers {
      assert cache[l := cache[l]] == cache;
      EmptyBatch(m, g, l + 1, cache);
    }
  }

  // ---------------------------------------------------------------- rows compute what they should

  /** Slot `x` holds, in every layer, what the text `tokens` gives for position `pos`. */
  ghost predicate HoldsPos(m: Model, cache: Cache, x: int, tokens: seq<Token>, pos: nat)
    requires m.Valid() && pos < |tokens|
  {
    && |cache| == m.layers
    && forall l: nat :: l < m.layers ==> 0 <= x < |cache[l]| && cache[l][x] == KvAt(m, tokens, l, pos)
  }

  /** The same, for the layers below `n` only. */
  ghost predicate HoldsBelow(m: Model, cache: Cache, x: int, tokens: seq<Token>, pos: nat, n: nat)
    requires m.Valid() && pos < |tokens|
  {
    && |cache| == m.layers && n <= m.layers
    && forall l: nat :: l < n ==> 0 <= x < |cache[l]| && cache[l][x] == KvAt(m, tokens, l, pos)
  }

  /** What a row may rely on: its token is the text's, the earlier positions hold, and none of them is
      where the row will write. */
  ghost predicate RowReady(m: Model, g: Shape, cache: Cache, row: Row, tokens: seq<Token>)
    requires m.Valid()
  {
    && RowOk(g, row)
    && row.pos < |tokens| && row.token == tokens[row.pos]
    && forall q: nat :: q < row.pos ==> HoldsPos(m, cache, SlotOf(g.blockSize, row.table, q), tokens, q) && SlotOf(g.blockSize, row.table, q) != Target(g, row)
  }

  lemma {:induction false} GatherIsContext(m: Model, g: Shape, l: nat, layer: Layer, row: Row, tokens: seq<Token>, n: nat)
    requires m.Valid() && RowOk(g, row) && n <= row.pos + 1 && n <= |tokens| && |layer| == g.slots
    requires forall q: nat :: q < n ==> layer[SlotOf(g.blockSize, row.table, q)] == KvAt(m, tokens, l, q)
    ensures Gather(g, layer, row, n) == Context(m, tokens, l, n)
  {
    hide KvAt;
    if n > 0 {
      GatherIsContext(m, g, l, layer, row, tokens, n - 1);
    }
  }

  lemma RowLayer(m: Model, g: Shape, l: nat, cache: Cache, row: Row, tokens: seq<Token>)
    requires m.Valid() && CacheOk(m, g, cache) && RowReady(m, g, cache, row, tokens) && l < m.layers
    ensures var h := Hidden(m, tokens, l, row.pos);
      var layer := cache[l][Target(g, row) := NewKv(m, l, row, h)];
      && NewKv(m, l, row, h) == KvAt(m, tokens, l, row.pos)
      && NextHidden(m, g, l, layer, row, h) == Hidden(m, tokens, l + 1, row.pos)
  {
    var h := Hidden(m, tokens, l, row.pos);
    var kv := NewKv(m, l, row, h);
    var layer := cache[l][Target(g, row) := kv];
    assert kv == KvAt(m, tokens, l, row.pos);
    forall q: nat | q < row.pos + 1 ensures layer[SlotOf(g.blockSize, row.table, q)] == KvAt(m, tokens, l, q) {
      if q < row.pos {
        assert HoldsPos(m, cache, SlotOf(g.blockSize, row.table, q), tokens, q);
      }
    }
    hide KvAt, RowReady;
    GatherIsContext(m, g, l, layer, row, tokens, row.pos + 1);
  }

  /** Everything a row's run changes is its own slot. */
  ghost predicate OnlySlot(m: Model, a: Cache, b: Cache, x: int) {
    && |a| == |b| == m.layers
    && forall l: nat :: l < m.layers ==> |a[l]| == |b[l]| && forall y: nat :: y < |a[l]| && y != x ==> b[l][y] == a[l][y]
  }

  lemma OnlySlotHolds(m: Model, a: Cache, b: Cache, x: int, y: int, tokens: seq<Token>, pos: nat)
    requires m.Valid() && pos < |tokens| && OnlySlot(m, a, b, x) && x != y && HoldsPos(m, a, y, tokens, pos)
    ensures HoldsPos(m, b, y, tokens, pos)
  {
    hide KvAt;
    forall l: nat | l < m.layers ensures 0 <= y < |b[l]| && b[l][y] == KvAt(m, tokens, l, pos) {
      assert 0 <= y < |a[l]| && a[l][y] == KvAt(m, tokens, l, pos);
    }
  }

  lemma OnlySlotStep(m: Model, g: Shape, a: Cache, l: nat, x: int, kv: KV)
    requires CacheOk(m, g, a) && l < m.layers && 0 <= x < g.slots
    ensures OnlySlot(m, a, a[l := a[l][x := kv]], x)
  {
  }

  lemma OnlySlotTrans(m: Model, a: Cache, b: Cache, d: Cache, x: int)
    requires OnlySlot(m, a, b, x) && OnlySlot(m, b, d, x)
    ensures OnlySlot(m, a, d, x)
  {
    forall l: nat | l < m.layers ensures |a[l]| == |d[l]| && forall y: nat :: y < |a[l]| && y != x ==> d[l][y] == a[l][y] {
      assert |a[l]| == |b[l]| && |b[l]| == |d[l]|;
    }
  }

  lemma ReadyAfter(m: Model, g: Shape, a: Cache, b: Cache, row: Row, tokens: seq<Token>)
    requires m.Valid() && RowReady(m, g, a, row, tokens) && OnlySlot(m, a, b, Target(g, row))
    ensures RowReady(m, g, b, row, tokens)
  {
    hide OnlySlot, HoldsPos;
    forall q: nat | q < row.pos ensures HoldsPos(m, b, SlotOf(g.blockSize, row.table, q), tokens, q) {
      OnlySlotHolds(m, a, b, Target(g, row), SlotOf(g.blockSize, row.table, q), tokens, q);
    }
  }

  lemma AllLayersHold(m: Model, cache: Cache, x: int, tokens: seq<Token>, pos: nat)
    requires m.Valid() && pos < |tokens| && HoldsBelow(m, cache, x, tokens, pos, m.layers)
    ensures HoldsPos(m, cache, x, tokens, pos) && OnlySlot(m, cache, cache, x)
  {
    hide KvAt;
  }

  lemma BelowStep(m: Model, cache: Cache, x: int, tokens: seq<Token>, pos: nat, l: nat, kv: KV)
    requires m.Valid() && pos < |tokens| && HoldsBelow(m, cache, x, tokens, pos, l) && l < m.layers && 0 <= x < |cache[l]|
    requires kv == KvAt(m, tokens, l, pos)
    ensures HoldsBelow(m, cache[l := cache[l][x := kv]], x, tokens, pos, l + 1)
  {
    hide KvAt;
  }

  /** A row whose earlier positions are right computes its own position right, in every layer, and ends
      with the hidden state of the uncached reference. */
  lemma {:induction false} RowCorrect(m: Model, g: Shape, l: nat, cache: Cache, row: Row, tokens: seq<Token>)
    requires m.Valid() && CacheOk(m, g, cache) && RowReady(m, g, cache, row, tokens) && l <= m.layers
    requires HoldsBelow(m, cache, Target(g, row), tokens, row.pos, l)
    ensures var (c1, h) := RowFrom(m, g, l, cache, row, Hidden(m, tokens, l, row.pos));
      && HoldsPos(m, c1, Target(g, row), tokens, row.pos)
      && h == Hidden(m, tokens, m.layers, row.pos)
      && OnlySlot(m, cache, c1, Target(g, row))
    decreases m.layers - l
  {
    hide KvAt, Hidden, NextHidden, HoldsBelow, HoldsPos, OnlySlot;
    var x := Target(g, row);
    if l == m.layers {
      AllLayersHold(m, cache, x, tokens, row.pos);
    } else {
      var h := Hidden(m, tokens, l, row.pos);
      var kv := NewKv(m, l, row, h);
      var cache' := cache[l := cache[l][x := kv]];
      RowLayer(m, g, l, cache, row, tokens);
      OnlySlotStep(m, g, cache, l, x, kv);
      BelowStep(m, cache, x, tokens, row.pos, l, kv);
      ReadyAfter(m, g, cache, cache', row, tokens);
      RowCorrect(m, g, l + 1, cache', row, tokens);
      var c1 := RowFrom(m, g, l + 1, cache', row, Hidden(m, tokens, l + 1, row.pos)).0;
      OnlySlotTrans(m, cache, cache', c1, x);
    }
  }
}
