/** Every phase of a step keeps the engine's invariant, and what is right stays right for as long as
    no chain hashes collide. */
module EngineProofs {
  import opened Common
  import opened Blocks
  import opened Sequences
  import opened BlockPool
  import opened BlockInvariants
  import opened PrefixCache
  import opened AllocationProofs
  import opened SchedulerSpec
  import opened SchedulerProofs
  import opened PostprocessProofs
  import opened ScheduleProofs
  import opened Attention
  import opened Transformer
  import opened PagedBatch
  import opened Generation
  import opened EngineSpec
  import opened RunProofs
  import opened SlotLabels
  import opened RunPlanProofs
  import opened RequestProofs
  import opened BatchProofs
  import opened Engine

  // ---------------------------------------------------------------- schedule

  lemma NumberedSame(a: seq<SeqState>, b: seq<SeqState>)
    requires Numbered(a) && SameText(a, b)
    ensures Numbered(b)
  {
    forall i: nat | i < |b| ensures b[i].id == i + 1 {
      assert SameRequest(a[i], b[i]);
    }
  }

  /** schedule hands over a plan that matches the state, or leaves the engine idle with nothing to do. */
  lemma SchedulePhaseOk(w: World, e: State)
    requires EngineInv(w, e) && e.phase.Idle?
    ensures var (status, e') := SchedulePhase(w, e);
      && (status == Success || status == Failure(PromptNeedsTooManyBlocks))
      && SameText(e.sched.seqs, e'.sched.seqs) && e.sched.pool.hashed <= e'.sched.pool.hashed && e'.cache == e.cache
      && (status == Success ==> EngineInv(w, e') && !e'.phase.Ran? && (e'.phase.Idle? ==> IsFinished(e'.sched)))
  {
    hide Inv, WellFormed, RequestsOk, CacheOk, Numbered, Quiet, SameText, Matches, FrontBare;
    ScheduleOk(w.c, e.sched);
    var (status, sched, plan) := Schedule(w.c, e.sched);
    hide Schedule;
    SameRequestsOk(w.c, e.sched.seqs, sched.seqs);
    NumberedSame(e.sched.seqs, sched.seqs);
    if status == Success && plan.items == [] {
      MatchesNothing(sched.seqs);
    }
  }

  lemma ScheduleLabelled(c: Config, st: Sched)
    requires Inv(c, st) && WellFormed(st) && Quiet(st.seqs) && Labelled(c, st.pool, st.seqs, false)
    requires Schedule(c, st).0 == Success && NoCollision(c, Schedule(c, st).1.pool.hashed)
    ensures Labelled(c, Schedule(c, st).1.pool, Schedule(c, st).1.seqs, false)
  {
    hide Inv, WellFormed, Quiet, KvIdle, Schedule, NoCollision, Carries;
    var labels := SomeLabels(c, st.pool, st.seqs, false);
    ScheduleKv(c, st, Carries(labels));
    LabelledBy(c, Schedule(c, st).1.pool, Schedule(c, st).1.seqs, false, labels);
  }

  lemma SchedulePhaseRight(w: World, e: State)
    requires EngineInv(w, e) && e.phase.Idle? && Right(w, e)
    requires SchedulePhase(w, e).0 == Success && NoCollision(w.c, SchedulePhase(w, e).1.sched.pool.hashed)
    ensures Right(w, SchedulePhase(w, e).1)
  {
    var e' := SchedulePhase(w, e).1;
    SchedulePhaseOk(w, e);
    assert Quiet(e.sched.seqs);
    hide Inv, WellFormed, RequestsOk, CacheOk, Numbered, Quiet, SameText, Track, HoldsOf, NoCollision, KvIdle, PlanOk, Labelled;
    ScheduleLabelled(w.c, e.sched);
    ScheduleKv(w.c, e.sched, HoldsOf(w.m, e.cache));
    forall i: nat | i < |e'.sched.seqs| ensures Follows(w, e'.sched.seqs, e'.phase, i) {
      assert Follows(w, e.sched.seqs, e.phase, i);
      SameTextAt(e.sched.seqs, e'.sched.seqs, i);
      SameTrack(w, e.sched.seqs[i], e'.sched.seqs[i]);
    }
  }

  lemma SameTextAt(a: seq<SeqState>, b: seq<SeqState>, i: nat)
    requires SameText(a, b) && i < |b|
    ensures i < |a| && SameRequest(a[i], b[i])
  {
  }

  // ---------------------------------------------------------------- run and sample

  /** Sequences that differ in their generators only. */
  ghost predicate OnlyRngs(a: seq<SeqState>, b: seq<SeqState>) {
    |b| == |a| && forall j: nat :: j < |a| ==> OnlyRng(a[j], b[j])
  }

  lemma {:induction false} OccRngs(a: seq<SeqState>, b: seq<SeqState>, x: nat)
    requires OnlyRngs(a, b)
    ensures Occ(b, x) == Occ(a, x)
    decreases |a|
  {
    if |a| > 0 {
      var n := |a| - 1;
      assert OnlyRng(a[n], b[n]);
      OccRngs(a[..n], b[..n], x);
    }
  }

  lemma RngSeqBlocks(c: Config, blocks: seq<Block>, s: SeqState, t: SeqState, k: nat)
    requires SeqBlocks(c, blocks, s, k) && OnlyRng(s, t)
    ensures SeqBlocks(c, blocks, t, k)
  {
    hide Chain, BlockTokens;
    forall j: nat | j < |t.table| ensures if j < k then HashedEntry(c, blocks, t, j) else OwnEntry(blocks, t, j) {
      assert if j < k then HashedEntry(c, blocks, s, j) else OwnEntry(blocks, s, j);
    }
  }

  lemma RngBlocks(c: Config, p: Pool, a: seq<SeqState>, b: seq<SeqState>)
    requires BlocksIdle(c, p, a) && OnlyRngs(a, b)
    ensures BlocksIdle(c, p, b)
  {
    hide SeqBlocks, Occ, FreeOk, IndexOk, OriginsOk;
    forall x: nat ensures Occ(b, x) == Occ(a, x) {
      OccRngs(a, b, x);
    }
    forall j: nat | j < |b| ensures SeqBlocks(c, p.blocks, b[j], Bound(c, b, |b|, 0, j)) {
      assert SeqBlocks(c, p.blocks, a[j], Bound(c, a, |a|, 0, j));
      RngSeqBlocks(c, p.blocks, a[j], b[j], Bound(c, a, |a|, 0, j));
    }
  }

  lemma RngSeqKv(c: Config, holds: Holds, s: SeqState, t: SeqState, n: nat)
    requires SeqKv(c, holds, s, n) && OnlyRng(s, t)
    ensures SeqKv(c, holds, t, n)
  {
    assert t.tokens[..|s.tokens|] == s.tokens;
    SameTableKv(c, holds, s, t, n);
  }

  lemma RngKv(c: Config, p: Pool, holds: Holds, a: seq<SeqState>, b: seq<SeqState>, ran: bool)
    requires KvIdle(c, p, holds, a, ran) && OnlyRngs(a, b)
    ensures KvIdle(c, p, holds, b, ran)
  {
    hide SeqKv, OriginKv;
    forall j: nat | j < |b| ensures SeqKv(c, holds, b[j], ReadyBound(b, |b|, 0, ran, j)) {
      assert SeqKv(c, holds, a[j], ReadyBound(a, |a|, 0, ran, j));
      RngSeqKv(c, holds, a[j], b[j], ReadyBound(a, |a|, 0, ran, j));
    }
  }

  lemma RngLabelled(c: Config, p: Pool, a: seq<SeqState>, b: seq<SeqState>, ran: bool)
    requires Labelled(c, p, a, ran) && OnlyRngs(a, b)
    ensures Labelled(c, p, b, ran)
  {
    hide KvIdle, OnlyRngs, Carries;
    var labels := SomeLabels(c, p, a, ran);
    RngKv(c, p, Carries(labels), a, b, ran);
    LabelledBy(c, p, b, ran, labels);
  }

  lemma RngInv(c: Config, st: Sched, b: seq<SeqState>)
    requires Inv(c, st) && OnlyRngs(st.seqs, b)
    ensures Inv(c, st.(seqs := b)) && WellFormed(st.(seqs := b))
  {
    var st' := st.(seqs := b);
    hide BlocksIdle, SeqOk;
    RngBlocks(c, st.pool, st.seqs, b);
    forall i: nat | i < |b| ensures SeqOk(c, b[i], RoleOf(st', i)) {
      assert SeqOk(c, st.seqs[i], RoleOf(st, i));
      RngSeqOk(c, st.seqs[i], b[i], RoleOf(st, i));
    }
    InvWellFormed(c, st');
  }

  lemma RngSeqOk(c: Config, s: SeqState, t: SeqState, role: Role)
    requires SeqOk(c, s, role) && OnlyRng(s, t)
    ensures SeqOk(c, t, role)
  {
  }

  lemma RngMatches(a: seq<SeqState>, b: seq<SeqState>, items: seq<Item>)
    requires Matches(a, items) && OnlyRngs(a, b)
    ensures Matches(b, items)
  {
    forall k: nat | k < |items| ensures ItemOk(b, items[k]) {
      assert ItemOk(a, items[k]);
      assert OnlyRng(a[items[k].who], b[items[k].who]);
    }
    forall i: nat | i < |b| && b[i].scheduled > 0 ensures exists k: nat :: k < |items| && items[k].who == i {
      assert OnlyRng(a[i], b[i]);
    }
  }

  lemma RngRequests(c: Config, a: seq<SeqState>, b: seq<SeqState>)
    requires RequestsOk(c, a) && Numbered(a) && OnlyRngs(a, b)
    ensures RequestsOk(c, b) && Numbered(b)
  {
    forall i: nat | i < |b| ensures RequestOk(c, b[i]) && b[i].id == i + 1 {
      assert OnlyRng(a[i], b[i]) && RequestOk(c, a[i]);
    }
  }

  /** A decode plan has only complete sequences: with a bare front, whoever is scheduled is running. */
  lemma PlanComplete(c: Config, st: Sched, plan: Plan)
    requires Inv(c, st) && WellFormed(st) && PlanOk(c, st, plan)
    ensures AllOrComplete(st.seqs, plan.isPrefill, plan.items)
  {
    hide BlocksIdle, Total, QueuesOk, WellFormed;
    forall k: nat | k < |plan.items|
      ensures plan.items[k].who < |st.seqs| && (!plan.isPrefill ==> Computed(st.seqs[plan.items[k].who]))
    {
      var i := plan.items[k].who;
      assert ItemOk(st.seqs, plan.items[k]);
      assert SeqOk(c, st.seqs[i], RoleOf(st, i));
    }
  }

  /** What the sampling loop is given and leaves in the run phase. */
  ghost predicate RunResult(w: World, e: State, e': State)
    requires w.Valid() && e.phase.Scheduled?
  {
    var items := e.phase.plan.items;
    var hs := ForwardBatchHidden(w, e);
    && e'.phase.Ran? && e'.phase.plan == e.phase.plan
    && |hs| == Total(items) && RowsCover(e.sched.seqs, items, |hs|)
    && SampledTo(w, e.sched.seqs, items, hs, |items|, (e'.phase.sampled, e'.sched.seqs))
    && e'.sched == e.sched.(seqs := e'.sched.seqs)
    && e'.cache == ForwardBatchCache(w, e)
  }

  ghost predicate CanRun(w: World, e: State)
    requires w.Valid() && e.phase.Scheduled?
  {
    && CacheOk(w.m, ShapeOf(w.c), e.cache) && PlacesOk(e.sched.seqs, Places(e.phase.plan.items))
    && RowsOk(ShapeOf(w.c), BatchRows(e.sched.seqs, Places(e.phase.plan.items)))
  }

  ghost function ForwardBatchHidden(w: World, e: State): seq<Vec>
    requires w.Valid() && e.phase.Scheduled?
  {
    if CanRun(w, e) then ForwardBatch(w.m, ShapeOf(w.c), e.cache, BatchRows(e.sched.seqs, Places(e.phase.plan.items))).1 else []
  }

  ghost function ForwardBatchCache(w: World, e: State): Cache
    requires w.Valid() && e.phase.Scheduled?
  {
    if CanRun(w, e) then ForwardBatch(w.m, ShapeOf(w.c), e.cache, BatchRows(e.sched.seqs, Places(e.phase.plan.items))).0 else e.cache
  }

  /** The preconditions of the run phase's parts. */
  lemma RunReady(w: World, e: State)
    requires EngineInv(w, e) && e.phase.Scheduled?
    ensures w.Valid() && CanRun(w, e) && |ForwardBatchHidden(w, e)| == Total(e.phase.plan.items)
    ensures RowsCover(e.sched.seqs, e.phase.plan.items, Total(e.phase.plan.items)) && ItemsOk(e.sched.seqs, e.phase.plan.items)
    ensures AllOrComplete(e.sched.seqs, e.phase.plan.isPrefill, e.phase.plan.items)
    ensures forall k :: 0 <= k < |e.phase.plan.items| ==> e.phase.plan.items[k].who < |e.sched.seqs| && e.phase.plan.items[k].count > 0
  {
    var seqs, plan := e.sched.seqs, e.phase.plan;
    assert Inv(w.c, e.sched) && PlanOk(w.c, e.sched, plan) && Matches(seqs, plan.items);
    PlanRows(w.c, e.sched, plan.items);
    PlanItemsOk(w.c, e.sched, plan.items);
    PlanComplete(w.c, e.sched, plan);
    CoverOk(seqs, plan.items);
    forall k | 0 <= k < |plan.items| ensures plan.items[k].who < |seqs| && plan.items[k].count > 0 {
      assert ItemOk(seqs, plan.items[k]);
    }
    hide Inv, PlanOk, Matches, RequestsOk, Numbered, WellFormed, ForwardBatch, BatchRows, Places,
      RowsCover, RowsOk, NoReadAhead, Walkable, PlacesOk, CacheOk, AllOrComplete, ItemsOk, Covered;
  }

  /** The run phase in terms of its parts. */
  lemma RunUnroll(w: World, e: State)
    requires EngineInv(w, e) && e.phase.Scheduled?
    requires CanRun(w, e) && RowsCover(e.sched.seqs, e.phase.plan.items, |ForwardBatchHidden(w, e)|)
    requires forall k :: 0 <= k < |e.phase.plan.items| ==> e.phase.plan.items[k].who < |e.sched.seqs| && e.phase.plan.items[k].count > 0
    ensures var seqs, plan := e.sched.seqs, e.phase.plan;
      var checked := CheckBatch(w, BatchRows(seqs, Places(plan.items)), SampleRows(seqs, plan.isPrefill, plan.items));
      var r := SampleUpTo(w, seqs, plan.isPrefill, plan.items, ForwardBatchHidden(w, e), |plan.items|);
      && CacheOk(w.m, ShapeOf(w.c), ForwardBatchCache(w, e))
      && RunPhase(w, e) == if checked.Failure? then (checked, e)
                           else (Success, State(e.sched.(seqs := r.1), ForwardBatchCache(w, e), Ran(plan, r.0)))
  {
    hide EngineInv, CheckBatch, SampleUpTo, ForwardBatch, BatchRows, Places, SampleRows, RowsCover, RowsOk, PlacesOk, CacheOk;
  }

  /** The run phase fails only in the runner's checks, and changes nothing then. */
  lemma RunPhaseResult(w: World, e: State)
    requires EngineInv(w, e) && e.phase.Scheduled?
    ensures CanRun(w, e)
    ensures var (status, e') := RunPhase(w, e);
      if status == Success then RunResult(w, e, e') && CacheOk(w.m, ShapeOf(w.c), e'.cache) else e' == e
  {
    hide EngineInv, CheckBatch, SampleUpTo, ForwardBatch, BatchRows, Places, SampleRows, RowsCover, RowsOk, PlacesOk, CacheOk,
      CanRun, ForwardBatchHidden, ForwardBatchCache, RunPhase, SampledTo, AllOrComplete, ItemsOk, Total;
    var seqs, plan := e.sched.seqs, e.phase.plan;
    RunReady(w, e);
    RunUnroll(w, e);
    SampleOk(w, seqs, plan.isPrefill, plan.items, ForwardBatchHidden(w, e), |plan.items|);
  }

  /** Under the capacity limits the run phase always succeeds. */
  lemma RunPhaseSucceeds(w: World, e: State)
    requires EngineInv(w, e) && e.phase.Scheduled? && Limits(w)
    ensures RunPhase(w, e).0 == Success
  {
    RunReady(w, e);
    hide Inv, PlanOk, RequestsOk, WellFormed, CheckBatch, SampleUpTo, ForwardBatch, BatchRows, Places, SampleRows,
      RowsCover, RowsOk, PlacesOk, CacheOk, ItemsOk, Limits, AllOrComplete, RunPhase, Total;
    RunUnroll(w, e);
    BatchChecked(w, e.sched, e.phase.plan);
  }

  lemma SampledRngs(w: World, seqs: seq<SeqState>, items: seq<Item>, hs: seq<Vec>, r: (seq<Token>, seq<SeqState>))
    requires w.Valid() && RowsCover(seqs, items, |hs|) && SampledTo(w, seqs, items, hs, |items|, r)
    ensures OnlyRngs(seqs, r.1) && |r.0| == |items|
  {
    hide OnlyRng, DrawnFrom, LastRow, RowsCover;
  }

  lemma SampledFit(w: World, seqs: seq<SeqState>, isPrefill: bool, items: seq<Item>, hs: seq<Vec>, r: (seq<Token>, seq<SeqState>))
    requires w.Valid() && RowsCover(seqs, items, |hs|) && SampledTo(w, seqs, items, hs, |items|, r) && AllOrComplete(seqs, isPrefill, items)
    ensures TokensFit(r.1, isPrefill, items, r.0)
  {
    hide LastRow, RowsCover, Sample;
    forall k: nat | k < |items| ensures items[k].who < |r.1| && TokenFits(r.1[items[k].who], isPrefill, r.0[k]) {
      assert ItemDrawn(w, seqs, items, hs, k, r.1, r.0[k]);
      assert OnlyRng(seqs[items[k].who], r.1[items[k].who]);
    }
  }

  /** The run phase keeps the invariant, with a token for every complete sequence. */
  lemma RunPhaseOk(w: World, e: State)
    requires EngineInv(w, e) && e.phase.Scheduled? && RunPhase(w, e).0 == Success
    ensures EngineInv(w, RunPhase(w, e).1) && RunPhase(w, e).1.phase.Ran?
    ensures RunPhase(w, e).1.sched.pool == e.sched.pool
    ensures OnlyRngs(e.sched.seqs, RunPhase(w, e).1.sched.seqs)
    ensures RunPhase(w, e).1.sched.waiting == e.sched.waiting && RunPhase(w, e).1.phase.plan == e.phase.plan
  {
    hide Inv, Matches, Total, RequestsOk, Numbered, WellFormed, RunPhase, CacheOk, RowsCover, SampledTo, AllOrComplete, ForwardBatchCache, ForwardBatchHidden, TokensFit, OnlyRngs;
    var plan, seqs := e.phase.plan, e.sched.seqs;
    RunPhaseResult(w, e);
    var e' := RunPhase(w, e).1;
    assert Matches(seqs, plan.items);
    PlanComplete(w.c, e.sched, plan);
    var hs, r := ForwardBatchHidden(w, e), (e'.phase.sampled, e'.sched.seqs);
    SampledRngs(w, seqs, plan.items, hs, r);
    SampledFit(w, seqs, plan.isPrefill, plan.items, hs, r);
    RngInv(w.c, e.sched, e'.sched.seqs);
    RngMatches(seqs, e'.sched.seqs, plan.items);
    RngRequests(w.c, seqs, e'.sched.seqs);
  }

  /** The last row of a complete item ends with the hidden state of its whole text. */
  lemma LastHidden(m: Model, seqs: seq<SeqState>, items: seq<Item>, hs: seq<Vec>, k: nat)
    requires m.Valid() && k < |items| && ItemsOk(seqs, items) && HiddenRight(m, seqs, Places(items), hs)
    requires items[k].who < |seqs| && Computed(seqs[items[k].who])
    ensures seqs[items[k].who].tokens != []
    ensures 0 <= LastRow(items, k) < |hs|
    ensures hs[LastRow(items, k)] == Hidden(m, seqs[items[k].who].tokens, m.layers, |seqs[items[k].who].tokens| - 1)
  {
    hide Places, LastRow, Hidden;
    LastPlace(seqs, items, k);
    assert ItemOk(seqs, items[k]);
    var y := LastRow(items, k);
    var place := Places(items)[y];
    assert PlaceOk(seqs, place) && hs[y] == Hidden(m, seqs[place.who].tokens, m.layers, place.pos);
  }

  /** A complete planned sequence draws its token from the reference's own distribution. */
  lemma DrawnNext(w: World, seqs: seq<SeqState>, items: seq<Item>, hs: seq<Vec>, k: nat, seqs': seq<SeqState>, token: Token)
    requires w.Valid() && k < |items| && |seqs'| == |seqs| && ItemsOk(seqs, items) && HiddenRight(w.m, seqs, Places(items), hs)
    requires ItemDrawn(w, seqs, items, hs, k, seqs', token) && items[k].who < |seqs| && Computed(seqs[items[k].who])
    ensures seqs[items[k].who].tokens != []
    ensures var s := seqs[items[k].who];
      token == Next(w, s.tokens, s.sampling, s.rng).0 && seqs'[items[k].who].rng == Next(w, s.tokens, s.sampling, s.rng).1
  {
    hide Places, LastRow, Hidden, Sample, ItemsOk, HiddenRight;
    LastHidden(w.m, seqs, items, hs, k);
  }

  lemma PlannedUnfinishedSeq(c: Config, st: Sched, items: seq<Item>, k: nat)
    requires Inv(c, st) && Matches(st.seqs, items) && k < |items|
    ensures items[k].who < |st.seqs| && st.seqs[items[k].who].status != Finished && st.seqs[items[k].who].scheduled > 0
  {
    hide BlocksIdle;
    assert ItemOk(st.seqs, items[k]);
    var i := items[k].who;
    assert SeqOk(c, st.seqs[i], RoleOf(st, i));
  }

  lemma RunFollows(w: World, e: State, hs: seq<Vec>, sampled: seq<Token>, seqs': seq<SeqState>, i: nat)
    requires w.Valid() && e.phase.Scheduled? && i < |e.sched.seqs| && Inv(w.c, e.sched) && Matches(e.sched.seqs, e.phase.plan.items)
    requires ItemsOk(e.sched.seqs, e.phase.plan.items) && HiddenRight(w.m, e.sched.seqs, Places(e.phase.plan.items), hs)
    requires RowsCover(e.sched.seqs, e.phase.plan.items, |hs|)
    requires SampledTo(w, e.sched.seqs, e.phase.plan.items, hs, |e.phase.plan.items|, (sampled, seqs'))
    requires Track(w, e.sched.seqs[i])
    ensures i < |seqs'| && Follows(w, seqs', Ran(e.phase.plan, sampled), i)
  {
    var seqs, items := e.sched.seqs, e.phase.plan.items;
    assert OnlyRng(seqs[i], seqs'[i]);
    assert items[..|items|] == items;
    if Planned(items, i) && Computed(seqs'[i]) {
      forall k: nat | k < |items| && k < |sampled| && items[k].who == i ensures TrackWith(w, seqs'[i], sampled[k]) {
        assert ItemDrawn(w, seqs, items, hs, k, seqs', sampled[k]);
        PlannedUnfinishedSeq(w.c, e.sched, items, k);
        hide Inv, SampledTo, HiddenRight, ItemsOk, RowsCover, Track, TrackWith, Next, Matches;
        DrawnNext(w, seqs, items, hs, k, seqs', sampled[k]);
        SampleTrack(w, seqs[i], sampled[k], seqs'[i].rng);
      }
    } else {
      if Planned(items, i) {
        var k: nat :| k < |items| && items[k].who == i;
        assert ItemDrawn(w, seqs, items, hs, k, seqs', sampled[k]);
        assert seqs'[i] == seqs[i];
      }
      assert seqs'[i] == seqs[i];
      hide Inv, SampledTo, HiddenRight, ItemsOk, RowsCover, Track, TrackWith, Matches;
    }
  }

  /** Without collisions the run phase computes every scheduled position as the reference does, and
      every token is drawn from the reference's logits for the whole text. */
  lemma RunPhaseRight(w: World, e: State)
    requires EngineInv(w, e) && e.phase.Scheduled? && RunPhase(w, e).0 == Success && Right(w, e)
    ensures Right(w, RunPhase(w, e).1)
  {
    var plan, seqs := e.phase.plan, e.sched.seqs;
    RunPhaseResult(w, e);
    var e' := RunPhase(w, e).1;
    assert Inv(w.c, e.sched) && Matches(seqs, plan.items);
    PlanItemsOk(w.c, e.sched, plan.items);
    var hs := ForwardBatchHidden(w, e);
    PlanRun(w.c, w.m, e.sched, e.cache, plan.items);
    assert HiddenRight(w.m, seqs, Places(plan.items), hs);
    assert KvIdle(w.c, e.sched.pool, HoldsOf(w.m, e'.cache), seqs, true);
    hide Inv, PlanOk, Matches, RequestsOk, Numbered, WellFormed, RunPhase, CacheOk, RowsCover, SampledTo, ForwardBatchCache, ForwardBatchHidden,
      TokensFit, OnlyRngs, KvIdle, HoldsOf, HiddenRight, ItemsOk, ForwardBatch, CanRun, Track, TrackWith, Covered, Labelled;
    RunLabelled(w.c, e.sched);
    SampledRngs(w, seqs, plan.items, hs, (e'.phase.sampled, e'.sched.seqs));
    RngKv(w.c, e.sched.pool, HoldsOf(w.m, e'.cache), seqs, e'.sched.seqs, true);
    RngLabelled(w.c, e.sched.pool, seqs, e'.sched.seqs, true);
    SampledLength(seqs, e'.sched.seqs);
    forall i: nat | i < |e'.sched.seqs| ensures Follows(w, e'.sched.seqs, e'.phase, i) {
      assert Follows(w, seqs, e.phase, i);
      RunFollows(w, e, hs, e'.phase.sampled, e'.sched.seqs, i);
    }
  }

  lemma SampledLength(a: seq<SeqState>, b: seq<SeqState>)
    requires OnlyRngs(a, b)
    ensures |b| == |a|
  {
  }
}
