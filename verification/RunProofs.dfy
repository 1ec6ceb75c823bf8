/** The model run of a step: which slots it writes, and that it computes for every planned position
    exactly what the uncached reference computes for the sequence's own text. */
module RunProofs {
  import opened Common
  import opened Blocks
  import opened Sequences
  import opened BlockPool
  import opened BlockInvariants
  import opened PrefixCache
  import opened AllocationProofs
  import opened SchedulerSpec
  import opened SchedulerProofs
  import opened Attention
  import opened Transformer
  import opened PagedBatch
  import opened EngineSpec

  // ---------------------------------------------------------------- write exclusivity

  /** A block beyond the hashed ones is nobody else's, and not hashed. */
  lemma OwnBlock(c: Config, p: Pool, seqs: seq<SeqState>, i: nat, x: nat)
    requires BlocksIdle(c, p, seqs) && i < |seqs| && seqs[i].cached / c.blockSize <= x < |seqs[i].table|
    ensures seqs[i].table[x] < |p.blocks| && !p.blocks[seqs[i].table[x]].hashValid && p.blocks[seqs[i].table[x]].refCount == 1
    ensures forall j: nat, y: nat :: j < |seqs| && y < |seqs[j].table| && (j != i || y != x) ==> seqs[j].table[y] != seqs[i].table[x]
  {
    hide Occ, FreeOk, IndexOk, OriginsOk;
    assert SeqBlocks(c, p.blocks, seqs[i], Bound(c, seqs, |seqs|, 0, i));
    assert OwnEntry(p.blocks, seqs[i], x);
    assert p.blocks[seqs[i].table[x]].refCount == Occ(seqs, seqs[i].table[x]);
    forall j: nat, y: nat | j < |seqs| && y < |seqs[j].table| && (j != i || y != x) ensures seqs[j].table[y] != seqs[i].table[x] {
      if seqs[j].table[y] == seqs[i].table[x] {
        OccPlaces(seqs, i, x, j, y);
      }
    }
  }

  /** Write exclusivity: an uncached position of a sequence has a slot that no other position of any
      sequence has, and that lies in no hashed block. */
  lemma WriteExclusive(c: Config, p: Pool, seqs: seq<SeqState>, i: nat, pos: nat)
    requires BlocksIdle(c, p, seqs) && i < |seqs| && seqs[i].cached <= pos && pos / c.blockSize < |seqs[i].table|
    ensures var b := seqs[i].table[pos / c.blockSize];
      b < |p.blocks| && p.blocks[b].refCount == 1 && !p.blocks[b].hashValid
    ensures forall j: nat, q: nat :: j < |seqs| && q / c.blockSize < |seqs[j].table| && (j != i || q != pos) ==>
              SlotOf(c.blockSize, seqs[j].table, q) != SlotOf(c.blockSize, seqs[i].table, pos)
    ensures forall b: nat, o: nat :: b < |p.blocks| && p.blocks[b].hashValid && o < c.blockSize ==>
              SlotIn(c.blockSize, b, o) != SlotOf(c.blockSize, seqs[i].table, pos)
  {
    var size := c.blockSize;
    DivMono(seqs[i].cached, pos, size);
    OwnBlock(c, p, seqs, i, pos / size);
    hide BlocksIdle;
    DivBounds(pos, size);
    forall j: nat, q: nat | j < |seqs| && q / size < |seqs[j].table| && (j != i || q != pos)
      ensures SlotOf(size, seqs[j].table, q) != SlotOf(size, seqs[i].table, pos)
    {
      DivBounds(q, size);
      if SlotOf(size, seqs[j].table, q) == SlotOf(size, seqs[i].table, pos) {
        SlotInInjective(size, seqs[j].table[q / size], q % size, seqs[i].table[pos / size], pos % size);
      }
    }
    forall b: nat, o: nat | b < |p.blocks| && p.blocks[b].hashValid && o < size
      ensures SlotIn(size, b, o) != SlotOf(size, seqs[i].table, pos)
    {
      if SlotIn(size, b, o) == SlotOf(size, seqs[i].table, pos) {
        SlotInInjective(size, b, o, seqs[i].table[pos / size], pos % size);
      }
    }
  }

  // ---------------------------------------------------------------- one row

  /** The contents of a cache, as the prefix cache speaks of them. */
  ghost function HoldsOf(m: Model, cache: Cache): Holds
    requires m.Valid()
  {
    (x: int, prefix: seq<Token>) => |prefix| > 0 && HoldsPos(m, cache, x, prefix, |prefix| - 1)
  }

  lemma HoldsPrefix(m: Model, cache: Cache, x: int, tokens: seq<Token>, pos: nat)
    requires m.Valid() && pos < |tokens|
    ensures HoldsOf(m, cache)(x, tokens[..pos + 1]) <==> HoldsPos(m, cache, x, tokens, pos)
  {
    hide KvAt;
    var prefix := tokens[..pos + 1];
    forall l: nat | l < m.layers ensures KvAt(m, prefix, l, pos) == KvAt(m, tokens, l, pos) {
      KvOfPrefix(m, tokens, l, pos);
    }
    assert HoldsPos(m, cache, x, prefix, pos) <==> HoldsPos(m, cache, x, tokens, pos);
  }

  /** A position that the table covers has a slot inside the cache. */
  lemma PositionsInRange(c: Config, p: Pool, s: SeqState, q: nat)
    requires TableInRange(p, s.table) && |p.blocks| == c.numKvBlocks && q / c.blockSize < |s.table|
    ensures 0 <= SlotOf(c.blockSize, s.table, q) < ShapeOf(c).slots
  {
    DivBounds(q, c.blockSize);
    SlotInRange(c.blockSize, s.table[q / c.blockSize], q % c.blockSize, c.numKvBlocks);
  }

  lemma RowInShape(c: Config, p: Pool, s: SeqState, pos: nat)
    requires TableInRange(p, s.table) && |p.blocks| == c.numKvBlocks && pos < |s.tokens| && pos / c.blockSize < |s.table|
    ensures RowOk(ShapeOf(c), RowOf(s, pos))
  {
    forall q: nat | q <= pos ensures q / c.blockSize < |s.table| && 0 <= SlotOf(c.blockSize, s.table, q) < ShapeOf(c).slots {
      DivMono(q, pos, c.blockSize);
      PositionsInRange(c, p, s, q);
    }
  }

  /** The sequences with one more position counted as computed. */
  ghost function Bump(seqs: seq<SeqState>, i: nat, n: nat): seq<SeqState>
    requires i < |seqs|
  {
    seqs[i := seqs[i].(cached := n)]
  }

  /** `d` is `seqs` in the middle of a run: only the cached counts have moved, never past what is scheduled. */
  ghost predicate Midway(seqs: seq<SeqState>, d: seq<SeqState>) {
    && |d| == |seqs|
    && forall j: nat :: j < |seqs| ==> d[j] == seqs[j].(cached := d[j].cached) && seqs[j].cached <= d[j].cached
  }

  /** The contents of the cache, told by the counts of `d`. */
  ghost predicate CacheKv(c: Config, p: Pool, m: Model, cache: Cache, d: seq<SeqState>)
    requires m.Valid()
  {
    KvIdle(c, p, HoldsOf(m, cache), d, false)
  }

  lemma ReadyToRun(c: Config, p: Pool, m: Model, cache: Cache, seqs: seq<SeqState>, d: seq<SeqState>, i: nat)
    requires m.Valid() && BlocksIdle(c, p, seqs) && Midway(seqs, d) && i < |seqs| && |p.blocks| == c.numKvBlocks
    requires TableInRange(p, seqs[i].table) && d[i].cached < |seqs[i].tokens| && d[i].cached / c.blockSize < |seqs[i].table|
    requires SeqKv(c, HoldsOf(m, cache), d[i], d[i].cached)
    ensures RowReady(m, ShapeOf(c), cache, RowOf(seqs[i], d[i].cached), seqs[i].tokens)
  {
    var pos := d[i].cached;
    var s := seqs[i];
    RowInShape(c, p, s, pos);
    WriteExclusive(c, p, seqs, i, pos);
    hide BlocksIdle;
    forall q: nat | q < pos ensures HoldsPos(m, cache, SlotOf(c.blockSize, s.table, q), s.tokens, q) {
      assert HoldsOf(m, cache)(SlotOf(c.blockSize, d[i].table, q), d[i].tokens[..q + 1]);
      HoldsPrefix(m, cache, SlotOf(c.blockSize, s.table, q), s.tokens, q);
    }
    forall q: nat | q < pos ensures q / c.blockSize < |s.table| {
      DivMono(q, pos, c.blockSize);
    }
    hide HoldsPos;
  }

  /** A cache that changed in one slot holds what it held elsewhere. */
  lemma HoldsElsewhere(m: Model, a: Cache, b: Cache, x: int, y: int, prefix: seq<Token>)
    requires m.Valid() && OnlySlot(m, a, b, x) && x != y && HoldsOf(m, a)(y, prefix)
    ensures HoldsOf(m, b)(y, prefix)
  {
    OnlySlotHolds(m, a, b, x, y, prefix, |prefix| - 1);
  }

  lemma SeqKvElsewhere(c: Config, m: Model, a: Cache, b: Cache, x: int, s: SeqState, n: nat)
    requires m.Valid() && OnlySlot(m, a, b, x) && SeqKv(c, HoldsOf(m, a), s, n)
    requires forall q: nat :: q < n && q / c.blockSize < |s.table| ==> SlotOf(c.blockSize, s.table, q) != x
    ensures SeqKv(c, HoldsOf(m, b), s, n)
  {
    hide OnlySlot, HoldsOf;
    forall q: nat | q < n ensures q / c.blockSize < |s.table| && HoldsOf(m, b)(SlotOf(c.blockSize, s.table, q), s.tokens[..q + 1]) {
      assert HoldsOf(m, a)(SlotOf(c.blockSize, s.table, q), s.tokens[..q + 1]);
      HoldsElsewhere(m, a, b, x, SlotOf(c.blockSize, s.table, q), s.tokens[..q + 1]);
    }
  }

  lemma BlockElsewhere(c: Config, m: Model, a: Cache, b: Cache, x: int, id: nat, prefix: seq<Token>)
    requires m.Valid() && OnlySlot(m, a, b, x) && BlockHolds(c, HoldsOf(m, a), id, prefix)
    requires forall o: nat :: o < c.blockSize ==> SlotIn(c.blockSize, id, o) != x
    ensures BlockHolds(c, HoldsOf(m, b), id, prefix)
  {
    hide OnlySlot, HoldsOf;
    forall o: nat | o < c.blockSize ensures HoldsOf(m, b)(SlotIn(c.blockSize, id, o), prefix[..|prefix| - c.blockSize + o + 1]) {
      HoldsElsewhere(m, a, b, x, SlotIn(c.blockSize, id, o), prefix[..|prefix| - c.blockSize + o + 1]);
    }
  }

  lemma OriginElsewhere(c: Config, p: Pool, m: Model, a: Cache, b: Cache, x: int)
    requires m.Valid() && OnlySlot(m, a, b, x) && OriginKv(c, p, HoldsOf(m, a))
    requires forall id: nat, o: nat :: id < |p.blocks| && p.blocks[id].hashValid && o < c.blockSize ==> SlotIn(c.blockSize, id, o) != x
    ensures OriginKv(c, p, HoldsOf(m, b))
  {
    hide OnlySlot, HoldsOf, BlockHolds;
    forall id: nat | id < |p.blocks| && p.blocks[id].hashValid && id in p.origin ensures BlockHolds(c, HoldsOf(m, b), id, p.origin[id]) {
      BlockElsewhere(c, m, a, b, x, id, p.origin[id]);
    }
  }

  lemma SeqKvGrow(c: Config, m: Model, b: Cache, s: SeqState, n: nat)
    requires m.Valid() && SeqKv(c, HoldsOf(m, b), s, n) && n < |s.tokens| && n / c.blockSize < |s.table|
    requires HoldsPos(m, b, SlotOf(c.blockSize, s.table, n), s.tokens, n)
    ensures SeqKv(c, HoldsOf(m, b), s.(cached := n + 1), n + 1)
  {
    HoldsPrefix(m, b, SlotOf(c.blockSize, s.table, n), s.tokens, n);
    hide HoldsOf, HoldsPos;
    var t := s.(cached := n + 1);
    forall q: nat | q < n + 1 ensures q / c.blockSize < |t.table| && HoldsOf(m, b)(SlotOf(c.blockSize, t.table, q), t.tokens[..q + 1]) {
      if q < n {
        assert HoldsOf(m, b)(SlotOf(c.blockSize, s.table, q), s.tokens[..q + 1]);
      }
    }
  }

  /** After a row ran, its own position is right too, and every other one still is. */
  lemma ContentsAfter(c: Config, p: Pool, m: Model, a: Cache, b: Cache, seqs: seq<SeqState>, d: seq<SeqState>, i: nat)
    requires m.Valid() && BlocksIdle(c, p, seqs) && Midway(seqs, d) && i < |seqs|
    requires d[i].cached < |seqs[i].tokens| && d[i].cached / c.blockSize < |seqs[i].table|
    requires CacheKv(c, p, m, a, d) && OnlySlot(m, a, b, SlotOf(c.blockSize, seqs[i].table, d[i].cached))
    requires HoldsPos(m, b, SlotOf(c.blockSize, seqs[i].table, d[i].cached), seqs[i].tokens, d[i].cached)
    ensures CacheKv(c, p, m, b, Bump(d, i, d[i].cached + 1)) && Midway(seqs, Bump(d, i, d[i].cached + 1))
  {
    hide BlocksIdle, OnlySlot, HoldsOf, SeqKv, HoldsPos, OriginKv, SlotOf;
    var pos := d[i].cached;
    var x := SlotOf(c.blockSize, seqs[i].table, pos);
    WriteExclusive(c, p, seqs, i, pos);
    OriginElsewhere(c, p, m, a, b, x);
    var d' := Bump(d, i, pos + 1);
    forall j: nat | j < |d'| ensures SeqKv(c, HoldsOf(m, b), d'[j], d'[j].cached) {
      assert SeqKv(c, HoldsOf(m, a), d[j], ReadyBound(d, |d|, 0, false, j));
      SeqAfter(c, m, a, b, seqs[i], pos, d[j], j == i);
    }
  }

  lemma SeqAfter(c: Config, m: Model, a: Cache, b: Cache, s: SeqState, pos: nat, t: SeqState, same: bool)
    requires m.Valid() && pos < |s.tokens| && pos / c.blockSize < |s.table|
    requires OnlySlot(m, a, b, SlotOf(c.blockSize, s.table, pos))
    requires HoldsPos(m, b, SlotOf(c.blockSize, s.table, pos), s.tokens, pos)
    requires SeqKv(c, HoldsOf(m, a), t, t.cached)
    requires same ==> t.table == s.table && t.tokens == s.tokens && t.cached == pos
    requires forall q: nat :: q / c.blockSize < |t.table| && q < t.cached ==> SlotOf(c.blockSize, t.table, q) != SlotOf(c.blockSize, s.table, pos)
    ensures var t' := if same then t.(cached := pos + 1) else t;
      SeqKv(c, HoldsOf(m, b), t', t'.cached)
  {
    hide OnlySlot, HoldsOf, SeqKv, HoldsPos;
    SeqKvElsewhere(c, m, a, b, SlotOf(c.blockSize, s.table, pos), t, t.cached);
    if same {
      SeqKvGrow(c, m, b, t, pos);
    }
  }

  /** One row of the batch, run after the rows before it. */
  lemma RowStep(c: Config, p: Pool, m: Model, a: Cache, seqs: seq<SeqState>, d: seq<SeqState>, i: nat)
    requires m.Valid() && CacheOk(m, ShapeOf(c), a)
    requires BlocksIdle(c, p, seqs) && Midway(seqs, d) && i < |seqs| && |p.blocks| == c.numKvBlocks && TableInRange(p, seqs[i].table)
    requires d[i].cached < |seqs[i].tokens| && d[i].cached / c.blockSize < |seqs[i].table|
    requires CacheKv(c, p, m, a, d)
    ensures RowOk(ShapeOf(c), RowOf(seqs[i], d[i].cached))
    ensures var row := RowOf(seqs[i], d[i].cached);
      var (b, h) := RowFrom(m, ShapeOf(c), 0, a, row, m.embed(row.token));
      && CacheKv(c, p, m, b, Bump(d, i, d[i].cached + 1)) && Midway(seqs, Bump(d, i, d[i].cached + 1))
      && h == Hidden(m, seqs[i].tokens, m.layers, d[i].cached)
  {
    var row := RowOf(seqs[i], d[i].cached);
    assert SeqKv(c, HoldsOf(m, a), d[i], ReadyBound(d, |d|, 0, false, i));
    ReadyToRun(c, p, m, a, seqs, d, i);
    assert HoldsBelow(m, a, Target(ShapeOf(c), row), seqs[i].tokens, row.pos, 0);
    assert Hidden(m, seqs[i].tokens, 0, row.pos) == m.embed(row.token);
    hide BlocksIdle, CacheKv, RowReady, HoldsBelow, OnlySlot, HoldsPos, Hidden, Midway;
    RowCorrect(m, ShapeOf(c), 0, a, row, seqs[i].tokens);
    var b := RowFrom(m, ShapeOf(c), 0, a, row, m.embed(row.token)).0;
    ContentsAfter(c, p, m, a, b, seqs, d, i);
  }

  // ---------------------------------------------------------------- the whole batch

  /** The counts after the rows at `places` were computed. */
  ghost function Walk(seqs: seq<SeqState>, places: seq<Place>): (d: seq<SeqState>)
    requires PlacesOk(seqs, places)
    ensures |d| == |seqs|
  {
    if places == [] then seqs
    else
      var n := |places| - 1;
      assert PlaceOk(seqs, places[n]);
      assert forall k: nat :: k < n ==> places[..n][k] == places[k];
      Bump(Walk(seqs, places[..n]), places[n].who, places[n].pos + 1)
  }

  /** Every row continues its sequence exactly where the rows before it left off, within what is scheduled. */
  ghost predicate Walkable(seqs: seq<SeqState>, places: seq<Place>)
    requires PlacesOk(seqs, places)
  {
    places == [] ||
    var n := |places| - 1;
    assert PlaceOk(seqs, places[n]);
    assert forall k: nat :: k < n ==> places[..n][k] == places[k];
    var s := seqs[places[n].who];
    && Walkable(seqs, places[..n])
    && Walk(seqs, places[..n])[places[n].who].cached == places[n].pos
    && s.cached <= places[n].pos < s.cached + s.scheduled
  }

  lemma PlacesInit(seqs: seq<SeqState>, places: seq<Place>, last: Place)
    requires PlacesOk(seqs, places + [last])
    ensures PlacesOk(seqs, places) && PlaceOk(seqs, last)
  {
    assert (places + [last])[|places|] == last;
    forall k: nat | k < |places| ensures PlaceOk(seqs, places[k]) {
      assert (places + [last])[k] == places[k];
    }
  }

  lemma PlacesSnoc(seqs: seq<SeqState>, places: seq<Place>, last: Place)
    requires PlacesOk(seqs, places) && PlaceOk(seqs, last)
    ensures PlacesOk(seqs, places + [last])
    ensures BatchRows(seqs, places + [last]) == BatchRows(seqs, places) + [RowOf(seqs[last.who], last.pos)]
    ensures Walk(seqs, places + [last]) == Bump(Walk(seqs, places), last.who, last.pos + 1)
  {
    assert (places + [last])[..|places|] == places;
  }

  lemma {:induction false} WalkAhead(seqs: seq<SeqState>, places: seq<Place>)
    requires PlacesOk(seqs, places) && Walkable(seqs, places)
    ensures Midway(seqs, Walk(seqs, places))
    ensures forall a: nat :: a < |places| ==> places[a].who < |seqs| && places[a].pos < Walk(seqs, places)[places[a].who].cached
    decreases |places|
  {
    if places != [] {
      var n := |places| - 1;
      assert places == places[..n] + [places[n]];
      PlacesInit(seqs, places[..n], places[n]);
      WalkAhead(seqs, places[..n]);
      assert Walk(seqs, places) == Bump(Walk(seqs, places[..n]), places[n].who, places[n].pos + 1);
      forall a: nat | a < |places| ensures places[a].who < |seqs| && places[a].pos < Walk(seqs, places)[places[a].who].cached {
        if a < n {
          assert places[..n][a] == places[a];
        }
      }
    }
  }

  /** The table of a planned sequence covers what is scheduled. */
  ghost predicate Covered(c: Config, seqs: seq<SeqState>) {
    forall i: nat :: i < |seqs| ==> NumBlocks(seqs[i].cached + seqs[i].scheduled, c.blockSize) <= |seqs[i].table|
  }

  lemma CoveredPosition(c: Config, s: SeqState, pos: nat)
    requires pos < s.cached + s.scheduled && NumBlocks(s.cached + s.scheduled, c.blockSize) <= |s.table|
    ensures pos / c.blockSize < |s.table|
  {
    NumBlocksSucc(pos, c.blockSize);
    NumBlocksMono(pos + 1, s.cached + s.scheduled, c.blockSize);
  }

  /** No row of the batch touches the slot a later row writes. */
  lemma ApartFromLast(c: Config, p: Pool, seqs: seq<SeqState>, a: Place, last: Place)
    requires BlocksIdle(c, p, seqs) && PlaceOk(seqs, a) && PlaceOk(seqs, last)
    requires a.pos / c.blockSize < |seqs[a.who].table| && last.pos / c.blockSize < |seqs[last.who].table|
    requires RowOk(ShapeOf(c), RowOf(seqs[a.who], a.pos)) && RowOk(ShapeOf(c), RowOf(seqs[last.who], last.pos))
    requires seqs[last.who].cached <= last.pos && (a.who != last.who || a.pos < last.pos)
    ensures Apart(ShapeOf(c), RowOf(seqs[a.who], a.pos), RowOf(seqs[last.who], last.pos))
  {
    WriteExclusive(c, p, seqs, last.who, last.pos);
    hide BlocksIdle;
    forall q: nat | q <= a.pos
      ensures SlotOf(c.blockSize, seqs[a.who].table, q) != SlotOf(c.blockSize, seqs[last.who].table, last.pos)
    {
      DivMono(q, a.pos, c.blockSize);
    }
  }

  lemma RowsSnoc(g: Shape, rows: seq<Row>, last: Row)
    requires RowsOk(g, rows) && RowOk(g, last) && NoReadAhead(g, rows) && forall a: nat :: a < |rows| ==> Apart(g, rows[a], last)
    ensures RowsOk(g, rows + [last]) && NoReadAhead(g, rows + [last])
  {
    hide RowOk, Apart;
    forall r: nat | r < |rows + [last]| ensures RowOk(g, (rows + [last])[r]) {
    }
    forall a: nat, b: nat | a < b < |rows + [last]| ensures Apart(g, (rows + [last])[a], (rows + [last])[b]) {
    }
  }

  /** The rows of a walkable batch are well-formed and write apart. */
  lemma {:induction false} BatchApart(c: Config, p: Pool, seqs: seq<SeqState>, places: seq<Place>)
    requires BlocksIdle(c, p, seqs) && |p.blocks| == c.numKvBlocks && (forall i: nat :: i < |seqs| ==> TableInRange(p, seqs[i].table))
    requires Covered(c, seqs) && PlacesOk(seqs, places) && Walkable(seqs, places)
    ensures RowsOk(ShapeOf(c), BatchRows(seqs, places)) && NoReadAhead(ShapeOf(c), BatchRows(seqs, places))
    ensures forall a: nat :: a < |places| ==> PlaceOk(seqs, places[a]) && places[a].pos / c.blockSize < |seqs[places[a].who].table|
    decreases |places|
  {
    if places != [] {
      var n := |places| - 1;
      var init, last := places[..n], places[n];
      assert places == init + [last];
      PlacesInit(seqs, init, last);
      BatchApart(c, p, seqs, init);
      WalkAhead(seqs, init);
      PlacesSnoc(seqs, init, last);
      var s := seqs[last.who];
      CoveredPosition(c, s, last.pos);
      RowInShape(c, p, s, last.pos);
      var rows := BatchRows(seqs, init);
      hide BlocksIdle, BatchRows, Apart, NoReadAhead, Walk, Covered, TableInRange, RowsOk, RowOk;
      forall a: nat | a < n ensures RowOk(ShapeOf(c), rows[a]) && Apart(ShapeOf(c), rows[a], RowOf(s, last.pos)) {
        BatchRowAt(seqs, init, a);
        assert init[a] == places[a];
        RowInShape(c, p, seqs[init[a].who], init[a].pos);
        ApartFromLast(c, p, seqs, init[a], last);
      }
      RowsSnoc(ShapeOf(c), rows, RowOf(s, last.pos));
    }
  }

  /** Every row ends with the hidden state of the uncached reference for its own text and position. */
  ghost predicate HiddenRight(m: Model, seqs: seq<SeqState>, places: seq<Place>, hs: seq<Vec>)
    requires m.Valid()
  {
    && |hs| == |places|
    && forall k: nat :: k < |places| ==> PlaceOk(seqs, places[k]) && hs[k] == Hidden(m, seqs[places[k].who].tokens, m.layers, places[k].pos)
  }

  lemma HiddenSnoc(m: Model, seqs: seq<SeqState>, places: seq<Place>, hs: seq<Vec>, last: Place, h: Vec)
    requires m.Valid() && HiddenRight(m, seqs, places, hs) && PlaceOk(seqs, last) && h == Hidden(m, seqs[last.who].tokens, m.layers, last.pos)
    ensures HiddenRight(m, seqs, places + [last], hs + [h])
  {
    hide Hidden;
  }

  /** The batch, run row by row, moves the contents along with the counts. */
  ghost predicate RunRight(c: Config, p: Pool, m: Model, cache: Cache, seqs: seq<SeqState>, places: seq<Place>)
    requires m.Valid() && CacheOk(m, ShapeOf(c), cache) && PlacesOk(seqs, places)
    requires RowsOk(ShapeOf(c), BatchRows(seqs, places))
  {
    var (b, hs) := RowByRow(m, ShapeOf(c), cache, BatchRows(seqs, places));
    CacheKv(c, p, m, b, Walk(seqs, places)) && HiddenRight(m, seqs, places, hs)
  }

  lemma RunRightSnoc(c: Config, p: Pool, m: Model, cache: Cache, seqs: seq<SeqState>, places: seq<Place>, last: Place)
    requires m.Valid() && CacheOk(m, ShapeOf(c), cache) && PlacesOk(seqs, places) && PlaceOk(seqs, last) && PlacesOk(seqs, places + [last])
    requires BlocksIdle(c, p, seqs) && |p.blocks| == c.numKvBlocks && TableInRange(p, seqs[last.who].table)
    requires RowsOk(ShapeOf(c), BatchRows(seqs, places)) && RowsOk(ShapeOf(c), BatchRows(seqs, places + [last]))
    requires Midway(seqs, Walk(seqs, places)) && Walk(seqs, places)[last.who].cached == last.pos
    requires last.pos / c.blockSize < |seqs[last.who].table|
    requires RunRight(c, p, m, cache, seqs, places)
    ensures RunRight(c, p, m, cache, seqs, places + [last])
  {
    var g, s := ShapeOf(c), seqs[last.who];
    PlacesSnoc(seqs, places, last);
    RowInShape(c, p, s, last.pos);
    var rows, row := BatchRows(seqs, places), RowOf(s, last.pos);
    var (a, hs) := RowByRow(m, g, cache, rows);
    var (b, h) := RowFrom(m, g, 0, a, row, m.embed(row.token));
    RowRight(c, p, m, a, seqs, Walk(seqs, places), last);
    hide *;
    RowByRowSnoc(m, g, cache, rows, row);
    HiddenSnoc(m, seqs, places, hs, last, h);
    RunRightIntro(c, p, m, cache, seqs, places + [last], b, hs + [h]);
  }

  lemma RowRight(c: Config, p: Pool, m: Model, a: Cache, seqs: seq<SeqState>, d: seq<SeqState>, last: Place)
    requires m.Valid() && CacheOk(m, ShapeOf(c), a) && PlaceOk(seqs, last)
    requires BlocksIdle(c, p, seqs) && Midway(seqs, d) && |p.blocks| == c.numKvBlocks && TableInRange(p, seqs[last.who].table)
    requires d[last.who].cached == last.pos && last.pos / c.blockSize < |seqs[last.who].table|
    requires CacheKv(c, p, m, a, d)
    ensures var row := RowOf(seqs[last.who], last.pos);
      && RowOk(ShapeOf(c), row)
      && var (b, h) := RowFrom(m, ShapeOf(c), 0, a, row, m.embed(row.token));
      && CacheKv(c, p, m, b, Bump(d, last.who, last.pos + 1))
      && h == Hidden(m, seqs[last.who].tokens, m.layers, last.pos)
  {
    hide BlocksIdle, CacheKv, RowOk, RowFrom, Hidden;
    RowStep(c, p, m, a, seqs, d, last.who);
  }

  lemma RunRightIntro(c: Config, p: Pool, m: Model, cache: Cache, seqs: seq<SeqState>, places: seq<Place>, b: Cache, hs: seq<Vec>)
    requires m.Valid() && CacheOk(m, ShapeOf(c), cache) && PlacesOk(seqs, places)
    requires RowsOk(ShapeOf(c), BatchRows(seqs, places))
    requires RowByRow(m, ShapeOf(c), cache, BatchRows(seqs, places)) == (b, hs)
    requires CacheKv(c, p, m, b, Walk(seqs, places)) && HiddenRight(m, seqs, places, hs)
    ensures RunRight(c, p, m, cache, seqs, places)
  {
    hide CacheKv, HiddenRight, RowsOk, CacheOk, PlacesOk, RowByRow, BatchRows;
  }

  lemma RunRightStart(c: Config, p: Pool, m: Model, cache: Cache, seqs: seq<SeqState>)
    requires m.Valid() && CacheOk(m, ShapeOf(c), cache) && CacheKv(c, p, m, cache, seqs)
    requires RowsOk(ShapeOf(c), BatchRows(seqs, []))
    ensures PlacesOk(seqs, []) && RunRight(c, p, m, cache, seqs, [])
  {
    hide CacheKv, RowsOk;
  }

  /** What the last row of a walkable batch finds. */
  lemma WalkSplit(c: Config, p: Pool, seqs: seq<SeqState>, places: seq<Place>, last: Place)
    requires PlacesOk(seqs, places + [last]) && Walkable(seqs, places + [last]) && Covered(c, seqs)
    requires RowsOk(ShapeOf(c), BatchRows(seqs, places + [last]))
    ensures PlacesOk(seqs, places) && PlaceOk(seqs, last) && Walkable(seqs, places)
    ensures Midway(seqs, Walk(seqs, places)) && Walk(seqs, places)[last.who].cached == last.pos
    ensures last.pos / c.blockSize < |seqs[last.who].table|
    ensures RowsOk(ShapeOf(c), BatchRows(seqs, places))
  {
    PlacesInit(seqs, places, last);
    PlacesSnoc(seqs, places, last);
    assert (places + [last])[..|places|] == places;
    WalkAhead(seqs, places);
    CoveredPosition(c, seqs[last.who], last.pos);
    hide BatchRows, RowsOk;
    RowsSplit(ShapeOf(c), BatchRows(seqs, places), RowOf(seqs[last.who], last.pos));
  }

  lemma {:induction false} RowsRun(c: Config, p: Pool, m: Model, cache: Cache, seqs: seq<SeqState>, places: seq<Place>)
    requires m.Valid() && CacheOk(m, ShapeOf(c), cache)
    requires BlocksIdle(c, p, seqs) && |p.blocks| == c.numKvBlocks && (forall i: nat :: i < |seqs| ==> TableInRange(p, seqs[i].table))
    requires Covered(c, seqs) && PlacesOk(seqs, places) && Walkable(seqs, places) && CacheKv(c, p, m, cache, seqs)
    requires RowsOk(ShapeOf(c), BatchRows(seqs, places))
    ensures RunRight(c, p, m, cache, seqs, places)
    decreases |places|
  {
    if places == [] {
      hide *;
      RunRightStart(c, p, m, cache, seqs);
    } else {
      var n := |places| - 1;
      var init, last := places[..n], places[n];
      assert places == init + [last];
      hide *;
      WalkSplit(c, p, seqs, init, last);
      PlaceInRange(seqs, last);
      RowsRun(c, p, m, cache, seqs, init);
      RunRightSnoc(c, p, m, cache, seqs, init, last);
    }
  }

  lemma PlaceInRange(seqs: seq<SeqState>, place: Place)
    requires PlaceOk(seqs, place)
    ensures place.who < |seqs|
  {
  }

  lemma RowByRowSnoc(m: Model, g: Shape, cache: Cache, rows: seq<Row>, row: Row)
    requires m.Valid() && CacheOk(m, g, cache) && RowsOk(g, rows + [row]) && RowsOk(g, rows) && RowOk(g, row)
    ensures var (a, hs) := RowByRow(m, g, cache, rows);
      var (b, h) := RowFrom(m, g, 0, a, row, m.embed(row.token));
      RowByRow(m, g, cache, rows + [row]) == (b, hs + [h])
  {
    assert (rows + [row])[..|rows|] == rows;
    hide RowsOk, RowOk, RowFrom;
  }
}
