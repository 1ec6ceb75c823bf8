/** The batches of step pass every check of the runner, and their last rows are what gets sampled. */
module BatchProofs {
  import opened Common
  import opened Blocks
  import opened Sequences
  import opened BlockPool
  import opened AllocationProofs
  import opened SchedulerSpec
  import opened SchedulerProofs
  import opened ScheduleProofs
  import opened Attention
  import opened Transformer
  import opened PagedBatch
  import opened Generation
  import opened EngineSpec
  import opened RunProofs
  import opened RunPlanProofs
  import opened RequestProofs

  // ---------------------------------------------------------------- last rows

  lemma {:induction false} TotalGrows(items: seq<Item>, a: nat, b: nat)
    requires a <= b <= |items|
    ensures Total(items[..a]) <= Total(items[..b])
    decreases b - a
  {
    if a < b {
      TotalGrows(items, a, b - 1);
      assert items[..b] == items[..b - 1] + [items[b - 1]];
      TotalAdd(items[..b - 1], items[b - 1]);
    }
  }

  lemma LastRowRange(seqs: seq<SeqState>, items: seq<Item>, a: nat)
    requires ItemsOk(seqs, items) && a < |items|
    ensures items[a].who < |seqs| && 0 <= LastRow(items, a) < Total(items)
    ensures LastRow(items, a) == Total(items[..a]) + items[a].count - 1
  {
    hide Total, ItemsOk;
    ItemBasics(seqs, items, a);
    assert items[..a + 1] == items[..a] + [items[a]];
    TotalAdd(items[..a], items[a]);
    TotalGrows(items, a + 1, |items|);
    assert items[..|items|] == items;
  }

  lemma ItemBasics(seqs: seq<SeqState>, items: seq<Item>, a: nat)
    requires ItemsOk(seqs, items) && a < |items|
    ensures items[a].who < |seqs| && items[a].count > 0
  {
    assert ItemOk(seqs, items[a]);
  }

  lemma CoverOk(seqs: seq<SeqState>, items: seq<Item>)
    requires ItemsOk(seqs, items)
    ensures RowsCover(seqs, items, Total(items))
  {
    hide ItemsOk, LastRow;
    forall a: nat | a < |items| ensures items[a].who < |seqs| && 0 <= LastRow(items, a) < Total(items) {
      LastRowRange(seqs, items, a);
    }
  }

  /** The last row of an item is its last scheduled position. */
  lemma LastPlace(seqs: seq<SeqState>, items: seq<Item>, a: nat)
    requires ItemsOk(seqs, items) && a < |items|
    ensures 0 <= LastRow(items, a) < |Places(items)|
    ensures items[a].count > 0 && Places(items)[LastRow(items, a)] == Place(items[a].who, items[a].start + items[a].count - 1)
  {
    LastRowRange(seqs, items, a);
    assert ItemOk(seqs, items[a]);
    var upto := items[..a + 1];
    assert upto[..a] == items[..a] && upto[a] == items[a];
    assert Places(upto) == Places(items[..a]) + ItemPlaces(items[a], items[a].count);
    PlacesPrefix(items, a + 1);
    ItemPlaceAt(items[a], items[a].count, items[a].count - 1);
    hide ItemsOk, LastRow;
  }

  // ---------------------------------------------------------------- the runner's checks

  /** The limits under which every batch fits the runner. */
  ghost predicate Limits(w: World) {
    w.c.maxNumSeqs <= w.c.maxNumBatchedTokens && w.c.maxModelLen <= w.contextLen
  }

  lemma {:induction false} CheckRowsOk(w: World, rows: seq<Row>)
    requires forall r: nat :: r < |rows| ==> CheckRow(w, rows[r]) == Success
    ensures CheckRows(w, rows) == Success
    decreases |rows|
  {
    hide CheckRow;
    if rows != [] {
      assert forall r: nat :: r < |rows[1..]| ==> rows[1..][r] == rows[r + 1];
      CheckRowsOk(w, rows[1..]);
    }
  }

  lemma SeqTableFits(c: Config, s: SeqState, role: Role)
    requires SeqOk(c, s, role)
    ensures |s.table| <= NumBlocks(|s.tokens|, c.blockSize)
  {
    if role == InRunning && s.scheduled == 0 {
      NumBlocksMono(s.cached, |s.tokens|, c.blockSize);
    }
  }

  /** A row of a text that lies in the context, with blocks for no more than the text. */
  lemma RowInContext(w: World, p: Pool, s: SeqState, pos: nat)
    requires |s.tokens| <= w.contextLen && pos < |s.tokens|
    requires TableInRange(p, s.table) && |p.blocks| == w.c.numKvBlocks && pos / w.c.blockSize < |s.table|
    requires |s.table| <= NumBlocks(|s.tokens|, w.c.blockSize)
    ensures CheckRow(w, RowOf(s, pos)) == Success
  {
    NumBlocksMono(|s.tokens|, w.contextLen, w.c.blockSize);
    hide NumBlocks;
  }

  /** A finished text may be one token longer than max_model_len, but a row never lies beyond it. */
  lemma RowChecked(w: World, p: Pool, s: SeqState, pos: nat)
    requires w.c.maxModelLen <= w.contextLen && RequestOk(w.c, s) && s.status != Finished && pos < |s.tokens|
    requires TableInRange(p, s.table) && |p.blocks| == w.c.numKvBlocks && pos / w.c.blockSize < |s.table|
    requires |s.table| <= NumBlocks(|s.tokens|, w.c.blockSize)
    ensures CheckRow(w, RowOf(s, pos)) == Success
  {
    hide NumBlocks, CheckRow;
    RowInContext(w, p, s, pos);
  }

  lemma PlannedUnfinished(c: Config, st: Sched, i: nat)
    requires Inv(c, st) && i < |st.seqs| && st.seqs[i].table != []
    ensures st.seqs[i].status != Finished && |st.seqs[i].table| <= NumBlocks(|st.seqs[i].tokens|, c.blockSize)
  {
    hide BlocksIdle;
    assert SeqOk(c, st.seqs[i], RoleOf(st, i));
    SeqTableFits(c, st.seqs[i], RoleOf(st, i));
  }

  lemma {:induction false} SampleRowsInRange(seqs: seq<SeqState>, isPrefill: bool, items: seq<Item>)
    requires forall k :: 0 <= k < |items| ==> items[k].who < |seqs| && items[k].count > 0
    ensures forall k :: 0 <= k < |SampleRows(seqs, isPrefill, items)| ==> SampleRows(seqs, isPrefill, items)[k] < Total(items)
    decreases |items|
  {
    if items != [] {
      SampleRowsInRange(seqs, isPrefill, items[..|items| - 1]);
    }
  }

  lemma PlaceChecked(w: World, st: Sched, place: Place)
    requires Inv(w.c, st) && PlaceOk(st.seqs, place) && |st.seqs[place.who].tokens| <= w.contextLen
    requires place.pos / w.c.blockSize < |st.seqs[place.who].table|
    ensures CheckRow(w, RowOf(st.seqs[place.who], place.pos)) == Success
  {
    InvWellFormed(w.c, st);
    PlannedUnfinished(w.c, st, place.who);
    hide Inv, CheckRow;
    RowInContext(w, st.pool, st.seqs[place.who], place.pos);
  }

  /** The texts of the planned sequences lie in the context. */
  ghost predicate InContext(w: World, seqs: seq<SeqState>, places: seq<Place>) {
    forall k: nat :: k < |places| ==> places[k].who < |seqs| && |seqs[places[k].who].tokens| <= w.contextLen
  }

  /** Those of unfinished requests do if max_model_len does. */
  lemma ModelInContext(w: World, st: Sched, items: seq<Item>)
    requires w.c.maxModelLen <= w.contextLen && Inv(w.c, st) && RequestsOk(w.c, st.seqs) && Matches(st.seqs, items)
    ensures InContext(w, st.seqs, Places(items))
  {
    hide Inv, Matches, BatchRows, Places, NoReadAhead, RowsOk, Walkable, RequestsOk, PlacesOk;
    PlanRows(w.c, st, items);
    forall k: nat | k < |Places(items)| ensures Places(items)[k].who < |st.seqs| && |st.seqs[Places(items)[k].who].tokens| <= w.contextLen {
      PlaceInContext(w, st, Places(items)[k]);
    }
  }

  lemma PlaceInContext(w: World, st: Sched, place: Place)
    requires w.c.maxModelLen <= w.contextLen && Inv(w.c, st) && RequestsOk(w.c, st.seqs) && PlaceOk(st.seqs, place)
    requires place.pos / w.c.blockSize < |st.seqs[place.who].table|
    ensures |st.seqs[place.who].tokens| <= w.contextLen
  {
    hide Inv;
    DivBounds(place.pos, w.c.blockSize);
    PlannedUnfinished(w.c, st, place.who);
    assert RequestOk(w.c, st.seqs[place.who]);
  }

  /** The plan's batch is not empty, and within the token budget given the limits. */
  lemma BatchSize(w: World, st: Sched, plan: Plan)
    requires WellFormed(st) && PlanOk(w.c, st, plan) && plan.items != []
    requires forall k :: 0 <= k < |plan.items| ==> plan.items[k].count > 0
    ensures 0 < Total(plan.items) == plan.numTokens && (Limits(w) ==> Total(plan.items) <= w.c.maxNumBatchedTokens)
  {
    NonEmptyTotal(plan.items);
    hide Matches, Total, WellFormed;
  }

  /** Every batch that step builds passes all of the runner's checks. */
  lemma BatchChecked(w: World, st: Sched, plan: Plan)
    requires Limits(w) && Inv(w.c, st) && WellFormed(st) && PlanOk(w.c, st, plan) && plan.items != [] && RequestsOk(w.c, st.seqs)
    requires PlacesOk(st.seqs, Places(plan.items))
    requires forall k :: 0 <= k < |plan.items| ==> plan.items[k].who < |st.seqs| && plan.items[k].count > 0
    ensures CheckBatch(w, BatchRows(st.seqs, Places(plan.items)), SampleRows(st.seqs, plan.isPrefill, plan.items)) == Success
  {
    hide Inv, PlanOk, BatchRows, Places, NoReadAhead, RowsOk, Walkable, Total, SampleRows, RequestsOk, WellFormed, PlacesOk, CheckBatch;
    BatchSize(w, st, plan);
    BatchVerdict(w, st, plan);
  }

  /** Without the first limit the checks of a batch come down to one comparison: a decode plan of more
      sequences than max_num_batched_tokens is refused, and no other. */
  lemma BatchVerdict(w: World, st: Sched, plan: Plan)
    requires w.c.maxModelLen <= w.contextLen && Inv(w.c, st) && WellFormed(st) && PlanOk(w.c, st, plan) && plan.items != [] && RequestsOk(w.c, st.seqs)
    requires PlacesOk(st.seqs, Places(plan.items))
    requires forall k :: 0 <= k < |plan.items| ==> plan.items[k].who < |st.seqs| && plan.items[k].count > 0
    ensures CheckBatch(w, BatchRows(st.seqs, Places(plan.items)), SampleRows(st.seqs, plan.isPrefill, plan.items)) ==
      if plan.numTokens > w.c.maxNumBatchedTokens then Failure(BatchCountInvalid) else Success
  {
    ModelInContext(w, st, plan.items);
    hide Inv, PlanOk, BatchRows, Places, Total, SampleRows, RequestsOk, WellFormed, PlacesOk, CheckBatch, InContext;
    VerdictInContext(w, st, plan);
  }

  lemma VerdictInContext(w: World, st: Sched, plan: Plan)
    requires Inv(w.c, st) && WellFormed(st) && PlanOk(w.c, st, plan) && plan.items != [] && InContext(w, st.seqs, Places(plan.items))
    requires PlacesOk(st.seqs, Places(plan.items))
    requires forall k :: 0 <= k < |plan.items| ==> plan.items[k].who < |st.seqs| && plan.items[k].count > 0
    ensures CheckBatch(w, BatchRows(st.seqs, Places(plan.items)), SampleRows(st.seqs, plan.isPrefill, plan.items)) ==
      if plan.numTokens > w.c.maxNumBatchedTokens then Failure(BatchCountInvalid) else Success
  {
    BatchSize(w, st, plan);
    SampleRowsInRange(st.seqs, plan.isPrefill, plan.items);
    var places := Places(plan.items);
    var rows := BatchRows(st.seqs, places);
    PlanRows(w.c, st, plan.items);
    hide Inv, PlanOk, BatchRows, Places, CheckRow, NoReadAhead, RowsOk, Walkable, Total, SampleRows, Limits, RequestsOk, WellFormed, PlaceOk, PlacesOk;
    forall r: nat | r < |rows| ensures CheckRow(w, rows[r]) == Success {
      BatchRowAt(st.seqs, places, r);
      PlaceIndex(st.seqs, places[r]);
      PlaceChecked(w, st, places[r]);
    }
    CheckRowsOk(w, rows);
  }

  lemma PlaceIndex(seqs: seq<SeqState>, place: Place)
    requires PlaceOk(seqs, place)
    ensures place.who < |seqs| && place.pos < |seqs[place.who].tokens|
  {
  }

  lemma NonEmptyTotal(items: seq<Item>)
    requires items != [] && forall k :: 0 <= k < |items| ==> items[k].count > 0
    ensures Total(items) > 0
  {
  }
}
