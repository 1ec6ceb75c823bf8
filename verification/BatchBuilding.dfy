/** The loops of LLMEngine::step: which rows are asked for logits, and which item each of them is for. */
module BatchBuilding {
  import opened Common
  import opened Sequences
  import opened BlockPool
  import opened SchedulerSpec
  import opened SchedulerProofs
  import opened Attention
  import opened Transformer
  import opened PagedBatch
  import opened Generation
  import opened EngineSpec

  ghost predicate WhoOk(seqs: seq<SeqState>, items: seq<Item>) {
    forall k: nat :: k < |items| ==> items[k].who < |seqs|
  }

  /** `picks` are the sampled items among the first `n`, ascending, and `rows` their last rows. */
  ghost predicate Picks(seqs: seq<SeqState>, isPrefill: bool, items: seq<Item>, n: nat, rows: seq<nat>, picks: seq<nat>)
    requires WhoOk(seqs, items)
  {
    && n <= |items| && |rows| == |picks|
    && (forall a: nat, b: nat :: a < b < |picks| ==> picks[a] < picks[b])
    && (forall a: nat :: a < |picks| ==> Picked(seqs, isPrefill, items, n, rows[a], picks[a]))
    && (forall k: nat :: k < n && Sampled(seqs, isPrefill, items[k]) ==> k in picks)
  }

  ghost predicate Picked(seqs: seq<SeqState>, isPrefill: bool, items: seq<Item>, n: nat, row: nat, pick: nat)
    requires WhoOk(seqs, items)
  {
    pick < n && n <= |items| && Sampled(seqs, isPrefill, items[pick]) && row == LastRow(items, pick)
  }

  lemma PicksSnoc(seqs: seq<SeqState>, isPrefill: bool, items: seq<Item>, n: nat, rows: seq<nat>, picks: seq<nat>, row: nat)
    requires WhoOk(seqs, items) && Picks(seqs, isPrefill, items, n, rows, picks) && n < |items| && row == LastRow(items, n)
    ensures Sampled(seqs, isPrefill, items[n]) ==> Picks(seqs, isPrefill, items, n + 1, rows + [row], picks + [n])
    ensures !Sampled(seqs, isPrefill, items[n]) ==> Picks(seqs, isPrefill, items, n + 1, rows, picks)
  {
    hide LastRow, Sampled;
    assert forall a: nat :: a < |picks| ==> Picked(seqs, isPrefill, items, n + 1, rows[a], picks[a]);
    if Sampled(seqs, isPrefill, items[n]) {
      var picks' := picks + [n];
      forall k: nat | k < n + 1 && Sampled(seqs, isPrefill, items[k]) ensures k in picks' {
        if k < n {
          assert k in picks;
        }
        assert picks'[|picks|] == n;
      }
    }
  }

  /** Between one picked item and the next, nothing is sampled. */
  lemma NoneBetween(seqs: seq<SeqState>, isPrefill: bool, items: seq<Item>, rows: seq<nat>, picks: seq<nat>, a: nat, k: nat)
    requires WhoOk(seqs, items) && Picks(seqs, isPrefill, items, |items|, rows, picks) && a <= |picks| && k < |items|
    requires (a == 0 || picks[a - 1] < k) && (a == |picks| || k < picks[a])
    ensures !Sampled(seqs, isPrefill, items[k])
  {
    hide Sampled, Picked;
    if Sampled(seqs, isPrefill, items[k]) {
      var b: nat :| b < |picks| && picks[b] == k;
      assert false;
    }
  }

  lemma NothingBuilt(seqs: seq<SeqState>, isPrefill: bool, items: seq<Item>)
    requires WhoOk(seqs, items)
    ensures items[..0] == [] && Total(items[..0]) == 0 && Places(items[..0]) == [] && PlacesOk(seqs, Places(items[..0]))
    ensures BatchRows(seqs, Places(items[..0])) == [] && SampleRows(seqs, isPrefill, items[..0]) == []
    ensures Picks(seqs, isPrefill, items, 0, [], [])
  {
  }

  lemma SampleRowsSnoc(seqs: seq<SeqState>, isPrefill: bool, items: seq<Item>, n: nat)
    requires forall k :: 0 <= k < |items| ==> items[k].who < |seqs| && items[k].count > 0
    requires n < |items|
    ensures Total(items[..n + 1]) > 0
    ensures SampleRows(seqs, isPrefill, items[..n + 1]) ==
      SampleRows(seqs, isPrefill, items[..n]) + if Sampled(seqs, isPrefill, items[n]) then [Total(items[..n + 1]) - 1] else []
  {
    assert items[..n + 1][..n] == items[..n];
  }

  // ---------------------------------------------------------------- sampling

  lemma {:induction false} SampleKeepsText(w: World, seqs: seq<SeqState>, isPrefill: bool, items: seq<Item>, hs: seq<Vec>, k: nat)
    requires w.Valid() && k <= |items| && RowsCover(seqs, items, |hs|)
    ensures forall i: nat :: i < |seqs| ==> SampleUpTo(w, seqs, isPrefill, items, hs, k).1[i].tokens == seqs[i].tokens
    decreases k
  {
    hide LastRow, Sampled, Sample;
    if k > 0 {
      SampleKeepsText(w, seqs, isPrefill, items, hs, k - 1);
      assert items[k - 1].who < |seqs| && 0 <= LastRow(items, k - 1) < |hs|;
    }
  }

  /** The first `k` items are sampled; the others have no token yet. */
  ghost predicate SampledFirst(w: World, seqs: seq<SeqState>, isPrefill: bool, items: seq<Item>, hs: seq<Vec>, k: nat, sampled: seq<Token>, now: seq<SeqState>)
    requires w.Valid() && RowsCover(seqs, items, |hs|)
  {
    && k <= |items| == |sampled|
    && (sampled[..k], now) == SampleUpTo(w, seqs, isPrefill, items, hs, k)
    && forall j: nat :: k <= j < |items| ==> sampled[j] == -1
  }

  lemma SampledOne(w: World, seqs: seq<SeqState>, isPrefill: bool, items: seq<Item>, hs: seq<Vec>, k: nat, sampled: seq<Token>, now: seq<SeqState>, token: Token, s: SeqState)
    requires w.Valid() && RowsCover(seqs, items, |hs|) && SampledFirst(w, seqs, isPrefill, items, hs, k, sampled, now)
    requires k < |items| && items[k].who < |seqs| && items[k].who < |now| && 0 <= LastRow(items, k) < |hs|
    requires (token, s) == SampleItem(w, now[items[k].who], Sampled(seqs, isPrefill, items[k]), hs[LastRow(items, k)])
    ensures SampledFirst(w, seqs, isPrefill, items, hs, k + 1, sampled[k := token], now[items[k].who := s])
  {
    hide LastRow, SampleItem;
    SampleKeepsText(w, seqs, isPrefill, items, hs, k);
    var sampled' := sampled[k := token];
    assert sampled'[..k + 1] == sampled[..k] + [token];
  }

  lemma {:induction false} SampledSkip(w: World, seqs: seq<SeqState>, isPrefill: bool, items: seq<Item>, hs: seq<Vec>, k: nat, upTo: nat, sampled: seq<Token>, now: seq<SeqState>)
    requires w.Valid() && RowsCover(seqs, items, |hs|) && SampledFirst(w, seqs, isPrefill, items, hs, k, sampled, now)
    requires k <= upTo <= |items|
    requires WhoOk(seqs, items) && forall j: nat :: k <= j < upTo ==> !Sampled(seqs, isPrefill, items[j])
    ensures SampledFirst(w, seqs, isPrefill, items, hs, upTo, sampled, now)
    decreases upTo - k
  {
    hide LastRow, Sampled, SampledFirst;
    if k < upTo {
      SampledSkipOne(w, seqs, isPrefill, items, hs, k, sampled, now);
      SampledSkip(w, seqs, isPrefill, items, hs, k + 1, upTo, sampled, now);
    }
  }

  lemma SampledSkipOne(w: World, seqs: seq<SeqState>, isPrefill: bool, items: seq<Item>, hs: seq<Vec>, k: nat, sampled: seq<Token>, now: seq<SeqState>)
    requires w.Valid() && RowsCover(seqs, items, |hs|) && SampledFirst(w, seqs, isPrefill, items, hs, k, sampled, now)
    requires WhoOk(seqs, items) && k < |items| && !Sampled(seqs, isPrefill, items[k])
    ensures SampledFirst(w, seqs, isPrefill, items, hs, k + 1, sampled, now)
  {
    var i := items[k].who;
    assert 0 <= LastRow(items, k) < |hs| && |now| == |seqs|;
    SampledOne(w, seqs, isPrefill, items, hs, k, sampled, now, -1, now[i]);
    assert sampled[k := -1] == sampled && now[i := now[i]] == now;
  }

  // ---------------------------------------------------------------- rows

  /** The rows of the first `k` items, and of the first `n` positions of the next. */
  ghost function RowsSoFar(seqs: seq<SeqState>, items: seq<Item>, k: nat, n: nat): (r: seq<Place>)
    requires k < |items|
    ensures |r| == Total(items[..k]) + n
  {
    Places(items[..k]) + ItemPlaces(items[k], n)
  }

  lemma RowsNone(seqs: seq<SeqState>, items: seq<Item>, k: nat)
    requires k < |items|
    ensures RowsSoFar(seqs, items, k, 0) == Places(items[..k])
  {
  }

  lemma RowsAll(seqs: seq<SeqState>, items: seq<Item>, k: nat)
    requires k < |items|
    ensures RowsSoFar(seqs, items, k, items[k].count) == Places(items[..k + 1]) && Total(items[..k + 1]) == Total(items[..k]) + items[k].count
  {
    assert items[..k + 1][..k] == items[..k];
  }

  /** One more position of item `k` is one more row. */
  lemma RowNext(seqs: seq<SeqState>, items: seq<Item>, k: nat, n: nat)
    requires PlacesOk(seqs, Places(items)) && k < |items| && n < items[k].count
    ensures PlacesOk(seqs, RowsSoFar(seqs, items, k, n)) && PlacesOk(seqs, RowsSoFar(seqs, items, k, n + 1))
    ensures items[k].who < |seqs| && items[k].start + n < |seqs[items[k].who].tokens|
    ensures BatchRows(seqs, RowsSoFar(seqs, items, k, n + 1)) == BatchRows(seqs, RowsSoFar(seqs, items, k, n)) + [RowOf(seqs[items[k].who], items[k].start + n)]
  {
    hide Places;
    var now, more, all := RowsSoFar(seqs, items, k, n), RowsSoFar(seqs, items, k, n + 1), Places(items);
    var p := Place(items[k].who, items[k].start + n);
    assert more == now + [p];
    PlacesPrefix(items, k + 1);
    RowsAll(seqs, items, k);
    assert more <= all by {
      MorePlaces(items[k], n + 1, items[k].count);
      assert more <= RowsSoFar(seqs, items, k, items[k].count);
    }
    hide RowsSoFar;
    PlacesOkPrefix(seqs, all, more);
    assert more[..|now|] == now;
    PlacesOkPrefix(seqs, more, now);
    assert more[|now|] == p;
    hide PlacesOk;
    BatchRowsSnoc(seqs, now, p);
  }

  lemma PlacesOkPrefix(seqs: seq<SeqState>, places: seq<Place>, prefix: seq<Place>)
    requires PlacesOk(seqs, places) && prefix <= places
    ensures PlacesOk(seqs, prefix)
    ensures prefix != [] ==> PlaceOk(seqs, prefix[|prefix| - 1])
  {
    hide PlaceOk;
    assert forall k: nat :: k < |prefix| ==> prefix[k] == places[k];
  }

  lemma BatchRowsSnoc(seqs: seq<SeqState>, places: seq<Place>, p: Place)
    requires PlacesOk(seqs, places) && PlacesOk(seqs, places + [p]) && PlaceOk(seqs, p)
    ensures BatchRows(seqs, places + [p]) == BatchRows(seqs, places) + [RowOf(seqs[p.who], p.pos)]
  {
    hide PlacesOk;
    assert (places + [p])[..|places|] == places;
  }

  lemma {:induction false} MorePlaces(item: Item, n: nat, m: nat)
    requires n <= m
    ensures ItemPlaces(item, n) <= ItemPlaces(item, m)
    decreases m - n
  {
    if n < m {
      MorePlaces(item, n, m - 1);
    }
  }

  /** The results of the first `n` items. */
  lemma CollectSnoc(seqs: seq<SeqState>, items: seq<Item>, n: nat)
    requires forall k :: 0 <= k < |items| ==> items[k].who < |seqs|
    requires n < |items|
    ensures Collect(seqs, items[..n + 1]) ==
      Collect(seqs, items[..n]) + if seqs[items[n].who].status == Finished then [ResultOf(seqs[items[n].who])] else []
  {
    assert items[..n + 1][..n] == items[..n];
  }
}
