/** Requests across a step: their bounds, and the way their texts follow the reference. */
module RequestProofs {
  import opened Common
  import opened Blocks
  import opened Sequences
  import opened BlockPool
  import opened BlockInvariants
  import opened PrefixCache
  import opened AllocationProofs
  import opened SchedulerSpec
  import opened SchedulerProofs
  import opened PostprocessProofs
  import opened Attention
  import opened Transformer
  import opened PagedBatch
  import opened Generation
  import opened EngineSpec
  import opened RunProofs
  import opened RunPlanProofs

  // ---------------------------------------------------------------- bounds

  /** What add_request admits, as long as it lives: an unfinished request has room for a token. */
  ghost predicate RequestOk(c: Config, s: SeqState) {
    && 1 <= s.promptSize <= |s.tokens|
    && s.sampling.maxTokens > 0
    && s.promptSize + s.sampling.maxTokens <= c.maxModelLen + 1
    && |s.tokens| <= s.promptSize + s.sampling.maxTokens
    && (s.status != Finished ==> |s.tokens| < s.promptSize + s.sampling.maxTokens)
  }

  ghost predicate RequestsOk(c: Config, seqs: seq<SeqState>) {
    forall i: nat :: i < |seqs| ==> RequestOk(c, seqs[i])
  }

  /** The most blocks the request can ever need at once. */
  function Demand(c: Config, s: SeqState): nat
    requires s.promptSize >= 1 && s.sampling.maxTokens > 0
  {
    NumBlocks(s.promptSize + s.sampling.maxTokens - 1, c.blockSize)
  }

  /** An unfinished request never needs more than that. */
  lemma DemandCovers(c: Config, s: SeqState)
    requires RequestOk(c, s) && s.status != Finished
    ensures NumBlocks(|s.tokens|, c.blockSize) <= Demand(c, s)
  {
    NumBlocksMono(|s.tokens|, s.promptSize + s.sampling.maxTokens - 1, c.blockSize);
  }

  lemma SameRequestsOk(c: Config, a: seq<SeqState>, b: seq<SeqState>)
    requires RequestsOk(c, a) && SameText(a, b)
    ensures RequestsOk(c, b)
  {
    forall i: nat | i < |b| ensures RequestOk(c, b[i]) {
      assert SameRequest(a[i], b[i]);
    }
  }

  lemma AdvancedRequestOk(c: Config, s: SeqState, t: SeqState, token: Token, isEos: Token -> bool)
    requires RequestOk(c, s) && s.status != Finished && Advanced(s, t, token, isEos)
    ensures RequestOk(c, t)
  {
  }

  // ---------------------------------------------------------------- following the reference

  /** The whole text the reference gives for a request. */
  ghost function Goal(w: World, s: SeqState): seq<Token>
    requires w.Valid() && 1 <= s.promptSize <= |s.tokens|
  {
    var prompt := s.tokens[..s.promptSize];
    Generation.Complete(w, prompt, s.promptSize, s.sampling, NewSequence(s.id, prompt, s.sampling).rng)
  }

  /** A text with this generator is on its way to the goal, or there when it stops. */
  ghost predicate Leads(w: World, tokens: seq<Token>, promptSize: nat, sampling: Sampling, rng: Rng, done: bool, goal: seq<Token>)
    requires w.Valid() && tokens != []
  {
    if done then tokens == goal else Generation.Complete(w, tokens, promptSize, sampling, rng) == goal
  }

  /** Between steps every request is on its way to the reference's text, or has exactly that. */
  ghost predicate Track(w: World, s: SeqState)
    requires w.Valid()
  {
    && 1 <= s.promptSize <= |s.tokens|
    && Leads(w, s.tokens, s.promptSize, s.sampling, s.rng, s.status == Finished, Goal(w, s))
  }

  /** After sampling, a request is on its way once it is given its token. */
  ghost predicate TrackWith(w: World, s: SeqState, token: Token)
    requires w.Valid()
  {
    && 1 <= s.promptSize <= |s.tokens|
    && Leads(w, s.tokens + [token], s.promptSize, s.sampling, s.rng,
             Stopped(w, s.tokens + [token], s.promptSize, s.sampling), Goal(w, s))
  }

  lemma NewTrack(w: World, id: nat, prompt: seq<Token>, sampling: Sampling)
    requires w.Valid() && prompt != []
    ensures Track(w, NewSequence(id, prompt, sampling))
  {
    hide Generation.Complete;
    assert prompt[..|prompt|] == prompt;
  }

  lemma SameTrack(w: World, s: SeqState, t: SeqState)
    requires w.Valid() && Track(w, s) && SameRequest(s, t)
    ensures Track(w, t)
  {
    hide Generation.Complete;
  }

  /** One token drawn from the reference's distribution, with the request's own generator. */
  lemma SampleTrack(w: World, s: SeqState, token: nat, rng: Rng)
    requires w.Valid() && Track(w, s) && s.status != Finished
    requires (token, rng) == Next(w, s.tokens, s.sampling, s.rng)
    ensures TrackWith(w, s.(rng := rng), token)
  {
    hide Next;
    var tokens' := s.tokens + [token];
    assert Goal(w, s.(rng := rng)) == Goal(w, s) by {
      hide Generation.Complete;
    }
    hide Goal;
    assert Generation.Complete(w, s.tokens, s.promptSize, s.sampling, s.rng) ==
           if Stopped(w, tokens', s.promptSize, s.sampling) then tokens'
           else Generation.Complete(w, tokens', s.promptSize, s.sampling, rng);
  }

  /** Appending the token, and stopping exactly when the reference stops. */
  lemma AppendTrack(w: World, s: SeqState, t: SeqState, token: Token)
    requires w.Valid() && TrackWith(w, s, token) && Computed(s) && Advanced(s, t, token, w.isEos)
    requires s.sampling.maxTokens > 0
    ensures Track(w, t)
  {
    var tokens' := s.tokens + [token];
    assert tokens'[..s.promptSize] == s.tokens[..s.promptSize];
    assert tokens'[|tokens'| - 1] == token;
    assert Stops(s, token, w.isEos) <==> Stopped(w, tokens', s.promptSize, s.sampling);
    hide Generation.Complete;
  }

  lemma HoldTrack(w: World, s: SeqState, t: SeqState, token: Token)
    requires w.Valid() && Track(w, s) && s.status != Finished && !Computed(s) && Advanced(s, t, token, w.isEos)
    ensures Track(w, t)
  {
    hide Generation.Complete;
  }

  // ---------------------------------------------------------------- sampling

  /** What sampling did for one item: the token drawn from its hidden state, or none and no draw. */
  ghost predicate DrawnFrom(w: World, s: SeqState, t: SeqState, token: Token, h: Vec)
    requires w.Valid()
  {
    if Computed(s) then
      var drawn := Sample(w, w.m.logits(h), s.sampling, s.rng);
      token == drawn.0 && t.rng == drawn.1
    else token == -1 && t.rng == s.rng
  }

  ghost predicate OnlyRng(s: SeqState, t: SeqState) {
    t == s.(rng := t.rng)
  }

  /** A decode plan samples every row, a prefill plan the complete ones; either way, the complete. */
  ghost predicate AllOrComplete(seqs: seq<SeqState>, isPrefill: bool, items: seq<Item>) {
    forall k: nat :: k < |items| ==> items[k].who < |seqs| && (!isPrefill ==> Computed(seqs[items[k].who]))
  }

  ghost predicate SampledTo(w: World, seqs: seq<SeqState>, items: seq<Item>, hs: seq<Vec>, k: nat, r: (seq<Token>, seq<SeqState>))
    requires w.Valid() && k <= |items| && RowsCover(seqs, items, |hs|)
  {
    && |r.0| == k && |r.1| == |seqs|
    && (forall j: nat :: j < |seqs| ==> OnlyRng(seqs[j], r.1[j]))
    && (forall j: nat :: j < |seqs| && !Planned(items[..k], j) ==> r.1[j] == seqs[j])
    && (forall a: nat :: a < k ==> ItemDrawn(w, seqs, items, hs, a, r.1, r.0[a]))
  }

  ghost predicate ItemDrawn(w: World, seqs: seq<SeqState>, items: seq<Item>, hs: seq<Vec>, a: nat, seqs': seq<SeqState>, token: Token)
    requires w.Valid() && a < |items| && |seqs'| == |seqs|
  {
    && items[a].who < |seqs| && 0 <= LastRow(items, a) < |hs|
    && DrawnFrom(w, seqs[items[a].who], seqs'[items[a].who], token, hs[LastRow(items, a)])
  }

  lemma PlannedGrows(items: seq<Item>, k: nat, j: nat)
    requires k < |items| && (Planned(items[..k], j) || items[k].who == j)
    ensures Planned(items[..k + 1], j)
  {
    if Planned(items[..k], j) {
      var y: nat :| y < |items[..k]| && items[..k][y].who == j;
      assert items[..k + 1][y].who == j;
    } else {
      assert items[..k + 1][k].who == j;
    }
  }

  lemma FirstTime(items: seq<Item>, k: nat)
    requires k < |items| && forall a: nat, b: nat :: a < b < |items| ==> items[a].who != items[b].who
    ensures !Planned(items[..k], items[k].who)
  {
    assert forall y: nat :: y < k ==> items[..k][y] == items[y];
  }

  lemma SampledStep(w: World, seqs: seq<SeqState>, items: seq<Item>, hs: seq<Vec>, k: nat, r: (seq<Token>, seq<SeqState>), token: Token, s: SeqState)
    requires w.Valid() && k < |items| && RowsCover(seqs, items, |hs|)
    requires SampledTo(w, seqs, items, hs, k, r) && items[k].who < |seqs| && 0 <= LastRow(items, k) < |hs|
    requires forall a: nat, b: nat :: a < b < |items| ==> items[a].who != items[b].who
    requires OnlyRng(seqs[items[k].who], s) && DrawnFrom(w, seqs[items[k].who], s, token, hs[LastRow(items, k)])
    ensures SampledTo(w, seqs, items, hs, k + 1, (r.0 + [token], r.1[items[k].who := s]))
  {
    hide DrawnFrom, LastRow, OnlyRng, RowsCover;
    var i := items[k].who;
    var seqs' := r.1[i := s];
    forall j: nat | j < |seqs| && !Planned(items[..k + 1], j) ensures seqs'[j] == seqs[j] {
      if Planned(items[..k], j) || items[k].who == j {
        PlannedGrows(items, k, j);
      }
    }
    forall a: nat | a < k + 1 ensures ItemDrawn(w, seqs, items, hs, a, seqs', (r.0 + [token])[a]) {
      if a < k {
        assert ItemDrawn(w, seqs, items, hs, a, r.1, r.0[a]);
      }
    }
  }

  lemma SampleItemOk(w: World, s: SeqState, sampled: bool, h: Vec)
    requires w.Valid() && (sampled <==> Computed(s)) && w.m.logits(h) != []
    ensures var (token, t) := SampleItem(w, s, sampled, h);
      OnlyRng(s, t) && DrawnFrom(w, s, t, token, h)
  {
    hide Sample;
  }

  lemma OnlyRngSelf(seqs: seq<SeqState>)
    ensures forall j: nat :: j < |seqs| ==> OnlyRng(seqs[j], seqs[j])
  {
  }

  /** What the sampling loop leaves: the items' tokens, and generators moved only where one was drawn. */
  lemma {:induction false} SampleOk(w: World, seqs: seq<SeqState>, isPrefill: bool, items: seq<Item>, hs: seq<Vec>, k: nat)
    requires w.Valid() && k <= |items| && RowsCover(seqs, items, |hs|) && ItemsOk(seqs, items) && AllOrComplete(seqs, isPrefill, items)
    ensures SampledTo(w, seqs, items, hs, k, SampleUpTo(w, seqs, isPrefill, items, hs, k))
    decreases k
  {
    hide LastRow, Planned, DrawnFrom, SampleItem, OnlyRng;
    if k == 0 {
      OnlyRngSelf(seqs);
    } else {
      var a := k - 1;
      var i := items[a].who;
      SampleOk(w, seqs, isPrefill, items, hs, a);
      var r := SampleUpTo(w, seqs, isPrefill, items, hs, a);
      FirstTime(items, a);
      assert i < |seqs| && 0 <= LastRow(items, a) < |hs| && r.1[i] == seqs[i];
      assert ItemOk(seqs, items[a]);
      var sampled := Sampled(r.1, isPrefill, items[a]);
      assert sampled <==> Computed(seqs[i]);
      SampleItemOk(w, seqs[i], sampled, hs[LastRow(items, a)]);
      var (token, s) := SampleItem(w, seqs[i], sampled, hs[LastRow(items, a)]);
      SampledStep(w, seqs, items, hs, a, r, token, s);
    }
  }
}
