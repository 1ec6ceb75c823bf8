/** The rows of a whole plan. */
module RunPlanProofs {
  import opened Common
  import opened Blocks
  import opened Sequences
  import opened BlockPool
  import opened PrefixCache
  import opened AllocationProofs
  import opened SchedulerSpec
  import opened SchedulerProofs
  import opened PostprocessProofs
  import opened Attention
  import opened Transformer
  import opened PagedBatch
  import opened EngineSpec
  import opened RunProofs

  /** Items as a plan has them: different sequences, their scheduled parts, inside their texts. */
  ghost predicate ItemsOk(seqs: seq<SeqState>, items: seq<Item>) {
    && (forall a: nat, b: nat :: a < b < |items| ==> items[a].who != items[b].who)
    && (forall k: nat :: k < |items| ==> ItemOk(seqs, items[k]) && items[k].start + items[k].count <= |seqs[items[k].who].tokens|)
  }

  /** The counts after the items' rows, and after `n` rows of one more. */
  ghost predicate Counts(seqs: seq<SeqState>, d: seq<SeqState>, items: seq<Item>) {
    |d| == |seqs| && forall j: nat :: j < |seqs| ==>
      d[j].cached == if Planned(items, j) then seqs[j].cached + seqs[j].scheduled else seqs[j].cached
  }

  lemma ItemsInit(seqs: seq<SeqState>, items: seq<Item>, last: Item)
    requires ItemsOk(seqs, items + [last])
    ensures ItemsOk(seqs, items) && ItemOk(seqs, last) && last.start + last.count <= |seqs[last.who].tokens| && !Planned(items, last.who)
    ensures forall j: nat :: Planned(items + [last], j) <==> Planned(items, j) || j == last.who
  {
    var all := items + [last];
    assert all[|items|] == last;
    forall k: nat | k < |items| ensures items[k] == all[k] && items[k].who != last.who {
    }
    forall j: nat ensures Planned(all, j) <==> Planned(items, j) || j == last.who {
      if Planned(items, j) {
        var k: nat :| k < |items| && items[k].who == j;
        assert all[k].who == j;
      }
    }
  }

  /** The places before the last item, and the first `n` of its own. */
  ghost function PlacesTo(items: seq<Item>, last: Item, n: nat): seq<Place> {
    Places(items) + ItemPlaces(last, n)
  }

  lemma WalkableSnoc(seqs: seq<SeqState>, places: seq<Place>, last: Place)
    requires PlacesOk(seqs, places) && Walkable(seqs, places) && PlaceOk(seqs, last)
    requires Walk(seqs, places)[last.who].cached == last.pos
    requires seqs[last.who].cached <= last.pos < seqs[last.who].cached + seqs[last.who].scheduled
    ensures PlacesOk(seqs, places + [last]) && Walkable(seqs, places + [last])
  {
    assert (places + [last])[..|places|] == places;
  }

  lemma {:induction false} ItemWalk(seqs: seq<SeqState>, items: seq<Item>, last: Item, n: nat)
    requires PlacesOk(seqs, Places(items)) && Walkable(seqs, Places(items)) && Counts(seqs, Walk(seqs, Places(items)), items)
    requires ItemOk(seqs, last) && last.start + last.count <= |seqs[last.who].tokens| && !Planned(items, last.who) && n <= last.count
    ensures var places := PlacesTo(items, last, n);
      && PlacesOk(seqs, places) && Walkable(seqs, places)
      && Walk(seqs, places)[last.who].cached == last.start + n
      && forall j: nat :: j < |seqs| && j != last.who ==> Walk(seqs, places)[j] == Walk(seqs, Places(items))[j]
  {
    var places := PlacesTo(items, last, n);
    if n == 0 {
      assert places == Places(items);
    } else {
      ItemWalk(seqs, items, last, n - 1);
      var init, place := PlacesTo(items, last, n - 1), Place(last.who, last.start + n - 1);
      assert places == init + [place];
      hide Walk, Walkable, Counts, Planned, PlacesOk, PlacesTo, Places;
      WalkableSnoc(seqs, init, place);
      PlacesSnoc(seqs, init, place);
    }
  }

  /** The rows of a plan walk through exactly what its sequences have scheduled. */
  lemma {:induction false} PlanWalk(seqs: seq<SeqState>, items: seq<Item>)
    requires ItemsOk(seqs, items)
    ensures PlacesOk(seqs, Places(items)) && Walkable(seqs, Places(items)) && Counts(seqs, Walk(seqs, Places(items)), items)
    decreases |items|
  {
    if items != [] {
      var init, last := items[..|items| - 1], items[|items| - 1];
      assert items == init + [last];
      ItemsInit(seqs, init, last);
      PlanWalk(seqs, init);
      ItemWalk(seqs, init, last, last.count);
      assert Places(items) == PlacesTo(init, last, last.count);
      hide Places, PlacesTo, Walk, Walkable, PlacesOk, ItemsOk, Planned;
    }
  }

  lemma PlanItemsOk(c: Config, st: Sched, items: seq<Item>)
    requires Inv(c, st) && Matches(st.seqs, items)
    ensures ItemsOk(st.seqs, items) && Covered(c, st.seqs)
    ensures forall i: nat :: i < |st.seqs| ==> st.seqs[i].cached + st.seqs[i].scheduled <= |st.seqs[i].tokens|
  {
    hide BlocksIdle, QueuesOk;
    forall i: nat | i < |st.seqs|
      ensures st.seqs[i].cached + st.seqs[i].scheduled <= |st.seqs[i].tokens|
      ensures NumBlocks(st.seqs[i].cached + st.seqs[i].scheduled, c.blockSize) <= |st.seqs[i].table|
    {
      SeqCovered(c, st.seqs[i], RoleOf(st, i));
    }
    forall k: nat | k < |items| ensures ItemOk(st.seqs, items[k]) && items[k].start + items[k].count <= |st.seqs[items[k].who].tokens| {
      assert ItemOk(st.seqs, items[k]);
    }
  }

  lemma SeqCovered(c: Config, s: SeqState, role: Role)
    requires SeqOk(c, s, role)
    ensures s.cached + s.scheduled <= |s.tokens| && NumBlocks(s.cached + s.scheduled, c.blockSize) <= |s.table|
  {
    NumBlocksZero(c.blockSize);
    if s.cached + s.scheduled <= |s.tokens| {
      NumBlocksMono(s.cached + s.scheduled, |s.tokens|, c.blockSize);
    }
  }

  /** Every row of a plan is well-formed for the cache, and no row touches the slot that a later row
      writes. */
  lemma PlanRows(c: Config, st: Sched, items: seq<Item>)
    requires Inv(c, st) && Matches(st.seqs, items)
    ensures PlacesOk(st.seqs, Places(items)) && Walkable(st.seqs, Places(items))
    ensures RowsOk(ShapeOf(c), BatchRows(st.seqs, Places(items))) && NoReadAhead(ShapeOf(c), BatchRows(st.seqs, Places(items)))
    ensures forall a: nat :: a < |Places(items)| ==>
              PlaceOk(st.seqs, Places(items)[a]) && Places(items)[a].pos / c.blockSize < |st.seqs[Places(items)[a].who].table|
  {
    InvWellFormed(c, st);
    PlanItemsOk(c, st, items);
    PlanWalk(st.seqs, items);
    hide QueuesOk, SeqsOk, Matches, ItemsOk, BlocksIdle, Covered, RowsOk, NoReadAhead, Walkable, PlacesOk, Places;
    BatchApart(c, st.pool, st.seqs, Places(items));
  }

  lemma WalkedKv(c: Config, p: Pool, holds: Holds, seqs: seq<SeqState>, d: seq<SeqState>, items: seq<Item>)
    requires KvIdle(c, p, holds, d, false) && Midway(seqs, d) && Counts(seqs, d, items) && Matches(seqs, items)
    ensures KvIdle(c, p, holds, seqs, true)
  {
    hide OriginKv;
    forall j: nat | j < |seqs| ensures SeqKv(c, holds, seqs[j], ReadyBound(seqs, |seqs|, 0, true, j)) {
      assert SeqKv(c, holds, d[j], ReadyBound(d, |d|, 0, false, j));
      CountIsReady(seqs, d, items, j);
      assert d[j].tokens[..|seqs[j].tokens|] == seqs[j].tokens;
      SameTableKv(c, holds, d[j], seqs[j], d[j].cached);
    }
  }

  lemma CountIsReady(seqs: seq<SeqState>, d: seq<SeqState>, items: seq<Item>, j: nat)
    requires Counts(seqs, d, items) && Matches(seqs, items) && j < |seqs|
    ensures d[j].cached == Ready(seqs[j], true)
  {
    hide ItemOk;
  }

  /** Running a plan: if every cached position was right before, every scheduled position is right
      after, and each row's hidden state is the uncached reference's for its text. */
  lemma PlanRun(c: Config, m: Model, st: Sched, cache: Cache, items: seq<Item>)
    requires m.Valid() && CacheOk(m, ShapeOf(c), cache) && Inv(c, st) && Matches(st.seqs, items)
    requires PlacesOk(st.seqs, Places(items)) && RowsOk(ShapeOf(c), BatchRows(st.seqs, Places(items)))
    requires KvIdle(c, st.pool, HoldsOf(m, cache), st.seqs, false)
    ensures var (b, hs) := ForwardBatch(m, ShapeOf(c), cache, BatchRows(st.seqs, Places(items)));
      && KvIdle(c, st.pool, HoldsOf(m, b), st.seqs, true)
      && HiddenRight(m, st.seqs, Places(items), hs)
  {
    var places := Places(items);
    var rows := BatchRows(st.seqs, places);
    InvWellFormed(c, st);
    PlanRows(c, st, items);
    PlanItemsOk(c, st, items);
    PlanWalk(st.seqs, items);
    WalkAhead(st.seqs, places);
    hide QueuesOk, SeqsOk, Matches, ItemsOk, BlocksIdle, Covered, RowsOk, NoReadAhead, Walkable, PlacesOk, Places, ForwardBatch, RowByRow,
      BatchRows, KvIdle, HiddenRight, HoldsOf, Walk, Midway, Counts, CacheOk;
    BatchIsRowByRow(m, ShapeOf(c), cache, rows);
    RowsRun(c, st.pool, m, cache, st.seqs, places);
    var (b, hs) := RowByRow(m, ShapeOf(c), cache, rows);
    WalkedKv(c, st.pool, HoldsOf(m, b), st.seqs, Walk(st.seqs, places), items);
  }
}
