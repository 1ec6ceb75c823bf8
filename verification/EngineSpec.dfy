/** One step of LLMEngine as a function on the scheduler's state and the key/value cache:
    schedule, run the model on the plan's rows, sample, postprocess. */
module EngineSpec {
  import opened Common
  import opened Blocks
  import opened Sequences
  import opened BlockPool
  import opened SchedulerSpec
  import opened Attention
  import opened Transformer
  import opened PagedBatch
  import opened Generation
  import opened SchedulerProofs

  /** A row of a batch: a position of a sequence. */
  datatype Place = Place(who: nat, pos: nat)

  function ItemPlaces(item: Item, n: nat): (r: seq<Place>)
    ensures |r| == n
  {
    if n == 0 then [] else ItemPlaces(item, n - 1) + [Place(item.who, item.start + n - 1)]
  }

  /** The rows of a plan, sequence by sequence, positions ascending. */
  ghost function Places(items: seq<Item>): (r: seq<Place>)
    ensures |r| == Total(items)
  {
    if items == [] then []
    else Places(items[..|items| - 1]) + ItemPlaces(items[|items| - 1], items[|items| - 1].count)
  }

  lemma {:induction false} ItemPlaceAt(item: Item, n: nat, k: nat)
    requires k < n
    ensures ItemPlaces(item, n)[k] == Place(item.who, item.start + k)
  {
    if k < n - 1 {
      ItemPlaceAt(item, n - 1, k);
    }
  }

  lemma {:induction false} PlacesPrefix(items: seq<Item>, a: nat)
    requires a <= |items|
    ensures Places(items[..a]) <= Places(items)
    decreases |items|
  {
    if a < |items| {
      var init := items[..|items| - 1];
      assert init[..a] == items[..a];
      PlacesPrefix(init, a);
    } else {
      assert items[..a] == items;
    }
  }

  ghost predicate PlaceOk(seqs: seq<SeqState>, p: Place) {
    p.who < |seqs| && p.pos < |seqs[p.who].tokens|
  }

  ghost predicate PlacesOk(seqs: seq<SeqState>, places: seq<Place>) {
    forall k: nat :: k < |places| ==> PlaceOk(seqs, places[k])
  }

  function RowOf(s: SeqState, pos: nat): Row
    requires pos < |s.tokens|
  {
    Row(s.tokens[pos], pos, s.table)
  }

  /** The model rows that LLMEngine::step builds. */
  ghost function BatchRows(seqs: seq<SeqState>, places: seq<Place>): (r: seq<Row>)
    requires PlacesOk(seqs, places)
    ensures |r| == |places|
  {
    if places == [] then []
    else
      var n := |places| - 1;
      assert PlaceOk(seqs, places[n]);
      assert forall k: nat :: k < n ==> places[..n][k] == places[k];
      BatchRows(seqs, places[..n]) + [RowOf(seqs[places[n].who], places[n].pos)]
  }

  lemma {:induction false} BatchRowAt(seqs: seq<SeqState>, places: seq<Place>, k: nat)
    requires PlacesOk(seqs, places) && k < |places|
    ensures PlaceOk(seqs, places[k])
    ensures BatchRows(seqs, places)[k] == RowOf(seqs[places[k].who], places[k].pos)
  {
    var n := |places| - 1;
    assert PlaceOk(seqs, places[k]);
    if k < n {
      assert forall j: nat :: j < n ==> places[..n][j] == places[j];
      BatchRowAt(seqs, places[..n], k);
    }
  }

  /** Is item `k`'s last row sampled? */
  predicate Sampled(seqs: seq<SeqState>, isPrefill: bool, item: Item)
    requires item.who < |seqs|
  {
    !isPrefill || item.start + item.count == |seqs[item.who].tokens|
  }

  /** The row of item `a` that is sampled if any is: its last. */
  ghost function LastRow(items: seq<Item>, a: nat): int
    requires a < |items|
  {
    Total(items[..a + 1]) - 1
  }

  /** Every item has rows, and the batch has them all. */
  ghost predicate RowsCover(seqs: seq<SeqState>, items: seq<Item>, n: nat) {
    forall a: nat :: a < |items| ==> items[a].who < |seqs| && 0 <= LastRow(items, a) < n
  }

  /** LLMEngine::sample for one item, if its row is sampled at all; the generator moves along. */
  ghost function SampleItem(w: World, s: SeqState, sampled: bool, h: Vec): (Token, SeqState)
    requires w.m.logits(h) != [] && w.sampler.Valid()
  {
    if sampled then
      var (drawn, rng) := Sample(w, w.m.logits(h), s.sampling, s.rng);
      var token: Token := drawn;
      (token, s.(rng := rng))
    else (-1, s)
  }

  /** The sampling loop over the first `k` items: -1 where no row is sampled. */
  ghost function SampleUpTo(w: World, seqs: seq<SeqState>, isPrefill: bool, items: seq<Item>, hs: seq<Vec>, k: nat): (r: (seq<Token>, seq<SeqState>))
    requires w.Valid() && k <= |items| && RowsCover(seqs, items, |hs|)
    ensures |r.0| == k && |r.1| == |seqs|
  {
    if k == 0 then ([], seqs)
    else
      var r := SampleUpTo(w, seqs, isPrefill, items, hs, k - 1);
      assert items[k - 1].who < |seqs| && 0 <= LastRow(items, k - 1) < |hs|;
      var i := items[k - 1].who;
      var (token, s) := SampleItem(w, r.1[i], Sampled(r.1, isPrefill, items[k - 1]), hs[LastRow(items, k - 1)]);
      (r.0 + [token], r.1[i := s])
  }

  function ShapeOf(c: Config): Shape {
    Shape(c.blockSize, c.numKvBlocks * c.blockSize)
  }

  // ---------------------------------------------------------------- requests

  /** SamplingParams::validate. */
  function Validate(s: Sampling): Status {
    if s.maxTokens < 0 || s.temperature < 0.0 || s.topP <= 0.0 || s.topP > 1.0 then Failure(BadSampling) else Success
  }

  /** The checks of LLMEngine::add_request, in order. */
  function CheckRequest(c: Config, prompt: seq<Token>, sampling: Sampling): Status {
    if Validate(sampling).Failure? then Validate(sampling)
    else if sampling.maxTokens == 0 then Failure(ZeroMaxTokens)
    else if prompt == [] then Failure(EmptyPrompt)
    else if |prompt| > c.maxModelLen then Failure(PromptTooLong)
    else if sampling.maxTokens > c.maxModelLen - |prompt| + 1 then Failure(CompletionTooLong)
    else Success
  }

  /** What these checks come to: sane parameters, a prompt, at least one token to generate, and room for
      all of them but the last in the longest text. */
  ghost predicate Acceptable(maxModelLen: int, prompt: seq<Token>, sampling: Sampling) {
    && 0.0 <= sampling.temperature && 0.0 < sampling.topP <= 1.0
    && 1 <= |prompt| && 1 <= sampling.maxTokens && |prompt| + sampling.maxTokens - 1 <= maxModelLen
  }

  lemma CheckRequestMeaning(c: Config, prompt: seq<Token>, sampling: Sampling)
    ensures CheckRequest(c, prompt, sampling) == Success <==> Acceptable(c.maxModelLen, prompt, sampling)
  {
  }

  // ---------------------------------------------------------------- the runner's checks

  /** The checks forward_paged_batch makes on one row. */
  function CheckRow(w: World, row: Row): Status {
    if row.pos >= w.contextLen then Failure(PositionOutOfContext)
    else if row.table == [] || |row.table| > NumBlocks(w.contextLen, w.c.blockSize) || row.pos / w.c.blockSize >= |row.table|
    then Failure(TableDoesNotCover)
    else if exists j :: 0 <= j < |row.table| && row.table[j] >= w.c.numKvBlocks then Failure(InvalidPage)
    else Success
  }

  function CheckRows(w: World, rows: seq<Row>): Status
    decreases |rows|
  {
    if rows == [] then Success
    else if CheckRow(w, rows[0]).Failure? then CheckRow(w, rows[0])
    else CheckRows(w, rows[1..])
  }

  /** The checks forward_paged_batch makes before it computes anything. */
  function CheckBatch(w: World, rows: seq<Row>, sampleRows: seq<nat>): Status {
    if rows == [] || |rows| > w.c.maxNumBatchedTokens then Failure(BatchCountInvalid)
    else if CheckRows(w, rows).Failure? then CheckRows(w, rows)
    else if exists k :: 0 <= k < |sampleRows| && sampleRows[k] >= |rows| then Failure(InvalidSampleRow)
    else Success
  }

  /** A row can be computed: its position is in the context, its table has a block for the position and
      is no longer than the context needs, and all its entries are blocks of the cache. */
  ghost predicate Computable(w: World, row: Row) {
    && row.pos < w.contextLen && row.pos < |row.table| * w.c.blockSize
    && (|row.table| - 1) * w.c.blockSize < w.contextLen
    && forall j: nat :: j < |row.table| ==> row.table[j] < w.c.numKvBlocks
  }

  lemma CheckRowMeaning(w: World, row: Row)
    ensures CheckRow(w, row) == Success <==> Computable(w, row)
  {
    Covers(row.pos, |row.table|, w.c.blockSize);
    if w.contextLen > 0 {
      NoLonger(w.contextLen, |row.table|, w.c.blockSize);
    }
    hide NumBlocks;
  }

  lemma Covers(pos: nat, n: nat, size: int)
    requires size > 0
    ensures pos / size < n <==> pos < n * size
  {
    DivBounds(pos, size);
    var q := pos / size;
    if q < n {
      MulMono(q + 1, n, size);
    } else {
      MulMono(n, q, size);
    }
  }

  lemma NoLonger(length: nat, n: nat, size: int)
    requires size > 0 && length > 0
    ensures n <= NumBlocks(length, size) <==> (n - 1) * size < length
  {
    var m := NumBlocks(length, size);
    NumBlocksBounds(length, size);
    hide NumBlocks;
    if n == 0 {
      assert (n - 1) * size < 0;
    } else if n <= m {
      MulMono(n - 1, m - 1, size);
    } else {
      MulMono(m, n - 1, size);
    }
  }

  lemma {:induction false} CheckRowsMeaning(w: World, rows: seq<Row>)
    ensures CheckRows(w, rows) == Success <==> forall r: nat :: r < |rows| ==> Computable(w, rows[r])
    decreases |rows|
  {
    hide CheckRow, Computable;
    if rows != [] {
      CheckRowMeaning(w, rows[0]);
      CheckRowsMeaning(w, rows[1..]);
      forall r: nat | r < |rows| - 1 ensures Computable(w, rows[r + 1]) <==> Computable(w, rows[1..][r]) {
      }
    }
  }

  /** A batch is accepted exactly if it is not empty, keeps to the token budget, has rows that can all be
      computed, and asks only for logits of its own rows. */
  lemma CheckBatchMeaning(w: World, rows: seq<Row>, sampleRows: seq<nat>)
    ensures CheckBatch(w, rows, sampleRows) == Success <==>
      && 1 <= |rows| <= w.c.maxNumBatchedTokens
      && (forall r: nat :: r < |rows| ==> Computable(w, rows[r]))
      && (forall k: nat :: k < |sampleRows| ==> sampleRows[k] < |rows|)
  {
    CheckRowsMeaning(w, rows);
    hide CheckRows, Computable;
  }

  /** The rows step asks logits of: the last row of every sampled item. */
  ghost function SampleRows(seqs: seq<SeqState>, isPrefill: bool, items: seq<Item>): (r: seq<nat>)
    requires forall k :: 0 <= k < |items| ==> items[k].who < |seqs| && items[k].count > 0
  {
    if items == [] then []
    else
      var n := |items| - 1;
      SampleRows(seqs, isPrefill, items[..n]) + if Sampled(seqs, isPrefill, items[n]) then [Total(items) - 1] else []
  }

  // ---------------------------------------------------------------- results

  datatype Result = Result(id: nat, tokens: seq<Token>)

  function ResultOf(s: SeqState): Result {
    Result(s.id, if 0 <= s.promptSize <= |s.tokens| then s.tokens[s.promptSize..] else [])
  }

  /** The results step collects: the planned sequences that have finished, in plan order. */
  function Collect(seqs: seq<SeqState>, items: seq<Item>): seq<Result>
    requires forall k :: 0 <= k < |items| ==> items[k].who < |seqs|
  {
    if items == [] then []
    else
      var n := |items| - 1;
      Collect(seqs, items[..n]) + if seqs[items[n].who].status == Finished then [ResultOf(seqs[items[n].who])] else []
  }
}
