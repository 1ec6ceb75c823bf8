/** LLMEngine in its phases: requests arrive, schedule plans, the model runs the plan and tokens are
    sampled, postprocess consumes the plan. `step` in engine/src/llm_engine.cpp is the last three in a
    row; arrivals may come between any two. */
module Engine {
  import opened Common
  import opened Blocks
  import opened Sequences
  import opened BlockPool
  import opened BlockInvariants
  import opened PrefixCache
  import opened AllocationProofs
  import opened SchedulerSpec
  import opened SchedulerProofs
  import opened PostprocessProofs
  import opened ScheduleProofs
  import opened Attention
  import opened Transformer
  import opened PagedBatch
  import opened Generation
  import opened EngineSpec
  import opened RunProofs
  import opened SlotLabels
  import opened RunPlanProofs
  import opened RequestProofs
  import opened BatchProofs

  datatype Phase =
    | Idle
    | Scheduled(plan: Plan)
    | Ran(plan: Plan, sampled: seq<Token>)

  datatype State = State(sched: Sched, cache: Cache, phase: Phase)

  /** The structure of a reachable state, in any phase. */
  ghost predicate EngineInv(w: World, e: State) {
    && w.Valid()
    && Inv(w.c, e.sched) && WellFormed(e.sched)
    && RequestsOk(w.c, e.sched.seqs)
    && CacheOk(w.m, ShapeOf(w.c), e.cache)
    && Numbered(e.sched.seqs)
    && match e.phase
       case Idle => Quiet(e.sched.seqs)
       case Scheduled(plan) => plan.items != [] && PlanOk(w.c, e.sched, plan)
       case Ran(plan, sampled) => Matches(e.sched.seqs, plan.items) && TokensFit(e.sched.seqs, plan.isPrefill, plan.items, sampled)
  }

  /** Request ids count up from 1, in order of arrival. */
  ghost predicate Numbered(seqs: seq<SeqState>) {
    forall i: nat :: i < |seqs| ==> seqs[i].id == i + 1
  }

  /** Sequence `i` follows the reference; in the middle of a step, once given its sampled token. */
  ghost predicate Follows(w: World, seqs: seq<SeqState>, phase: Phase, i: nat)
    requires w.Valid() && i < |seqs|
  {
    match phase
    case Ran(plan, sampled) =>
      if Computed(seqs[i]) && Planned(plan.items, i)
      then forall k: nat :: k < |plan.items| && k < |sampled| && plan.items[k].who == i ==> TrackWith(w, seqs[i], sampled[k])
      else Track(w, seqs[i])
    case _ => Track(w, seqs[i])
  }

  /** What is right about a reachable state, if no chain hashes collided: every slot a sequence may read
      holds that sequence's own keys and values, no slot serves two prefixes, and every text follows the
      reference. */
  ghost predicate Right(w: World, e: State)
    requires w.Valid()
  {
    && KvIdle(w.c, e.sched.pool, HoldsOf(w.m, e.cache), e.sched.seqs, e.phase.Ran?)
    && Labelled(w.c, e.sched.pool, e.sched.seqs, e.phase.Ran?)
    && forall i: nat :: i < |e.sched.seqs| ==> Follows(w, e.sched.seqs, e.phase, i)
  }

  ghost predicate RightUnlessCollision(w: World, e: State)
    requires w.Valid()
  {
    NoCollision(w.c, e.sched.pool.hashed) ==> Right(w, e)
  }

  // ---------------------------------------------------------------- the four moves

  /** LLMEngine::add_request: the id, and the state with the request at the end of the waiting queue. */
  function Arrive(w: World, e: State, prompt: seq<Token>, sampling: Sampling): (Status, State) {
    var status := CheckRequest(w.c, prompt, sampling);
    if status.Failure? then (status, e)
    else
      var (added, sched) := Add(w.c, e.sched, NewSequence(|e.sched.seqs| + 1, prompt, sampling), w.c.blockSize);
      (added, e.(sched := sched))
  }

  /** The first phase of step. An empty plan leaves the engine idle. */
  function SchedulePhase(w: World, e: State): (Status, State)
    requires WellFormed(e.sched)
  {
    var (status, sched, plan) := Schedule(w.c, e.sched);
    (status, State(sched, e.cache, if status == Success && plan.items != [] then Scheduled(plan) else Idle))
  }

  /** The second phase: the checked batch runs layer by layer, and the sampled rows give tokens. */
  ghost function RunPhase(w: World, e: State): (Status, State)
    requires EngineInv(w, e) && e.phase.Scheduled?
  {
    var seqs, plan := e.sched.seqs, e.phase.plan;
    PlanRows(w.c, e.sched, plan.items);
    PlanItemsOk(w.c, e.sched, plan.items);
    CoverOk(seqs, plan.items);
    var rows := BatchRows(seqs, Places(plan.items));
    var checked := CheckBatch(w, rows, SampleRows(seqs, plan.isPrefill, plan.items));
    if checked.Failure? then (checked, e)
    else
      var (cache, hs) := ForwardBatch(w.m, ShapeOf(w.c), e.cache, rows);
      var (sampled, seqs') := SampleUpTo(w, seqs, plan.isPrefill, plan.items, hs, |plan.items|);
      (Success, State(e.sched.(seqs := seqs'), cache, Ran(plan, sampled)))
  }

  /** The third phase: postprocess, and the results of the sequences that finished. */
  function FinishPhase(w: World, e: State): (Status, State, seq<Result>)
    requires WellFormed(e.sched) && e.phase.Ran? && forall k :: 0 <= k < |e.phase.plan.items| ==> e.phase.plan.items[k].who < |e.sched.seqs|
  {
    var (status, sched) := Postprocess(w.c, e.sched, e.phase.plan, e.phase.sampled, w.isEos);
    (status, State(sched, e.cache, Idle), if status == Success then Collect(sched.seqs, e.phase.plan.items) else [])
  }

  // ---------------------------------------------------------------- arrival

  lemma OccSnoc(seqs: seq<SeqState>, s: SeqState)
    requires s.table == []
    ensures forall b: nat :: Occ(seqs + [s], b) == Occ(seqs, b)
  {
    assert (seqs + [s])[..|seqs|] == seqs;
  }

  lemma ArriveBlocks(c: Config, p: Pool, seqs: seq<SeqState>, s: SeqState)
    requires BlocksIdle(c, p, seqs) && s.table == [] && s.cached == 0
    ensures BlocksIdle(c, p, seqs + [s])
  {
    OccSnoc(seqs, s);
    DivUnique(0, 0, c.blockSize);
    var seqs' := seqs + [s];
    assert SeqBlocks(c, p.blocks, s, 0);
    hide SeqBlocks, Occ, FreeOk, IndexOk, OriginsOk;
    forall j: nat | j < |seqs'| ensures SeqBlocks(c, p.blocks, seqs'[j], Bound(c, seqs', |seqs'|, 0, j)) {
      if j < |seqs| {
        assert SeqBlocks(c, p.blocks, seqs[j], Bound(c, seqs, |seqs|, 0, j));
      }
    }
  }

  lemma ArriveKv(c: Config, p: Pool, holds: Holds, seqs: seq<SeqState>, s: SeqState, ran: bool)
    requires KvIdle(c, p, holds, seqs, ran) && s.cached == 0 && s.scheduled == 0
    ensures KvIdle(c, p, holds, seqs + [s], ran)
  {
    var seqs' := seqs + [s];
    assert SeqKv(c, holds, s, 0);
    hide SeqKv, OriginKv;
    forall j: nat | j < |seqs'| ensures SeqKv(c, holds, seqs'[j], ReadyBound(seqs', |seqs'|, 0, ran, j)) {
      if j < |seqs| {
        assert SeqKv(c, holds, seqs[j], ReadyBound(seqs, |seqs|, 0, ran, j));
      }
    }
  }

  lemma ArriveQueues(c: Config, st: Sched, s: SeqState)
    requires QueuesOk(st) && SeqsOk(c, st) && SeqOk(c, s, AtFront) && SeqOk(c, s, InBack)
    ensures var st' := st.(seqs := st.seqs + [s], waiting := st.waiting + [|st.seqs|]);
      QueuesOk(st') && SeqsOk(c, st')
  {
    var n := |st.seqs|;
    var st' := st.(seqs := st.seqs + [s], waiting := st.waiting + [n]);
    DistinctSnoc(st.waiting, n);
    hide SeqOk, Distinct;
    forall i: nat | i < |st'.seqs| ensures SeqOk(c, st'.seqs[i], RoleOf(st', i)) {
      if i < n {
        assert SeqOk(c, st.seqs[i], RoleOf(st, i));
        assert RoleOf(st', i) == RoleOf(st, i);
      }
    }
  }

  lemma ArriveMatches(seqs: seq<SeqState>, items: seq<Item>, s: SeqState)
    requires Matches(seqs, items) && s.scheduled == 0
    ensures Matches(seqs + [s], items)
  {
    var seqs' := seqs + [s];
    forall k: nat | k < |items| ensures ItemOk(seqs', items[k]) {
      assert ItemOk(seqs, items[k]);
    }
  }

  lemma ArriveInv(w: World, e: State, prompt: seq<Token>, sampling: Sampling)
    requires EngineInv(w, e) && CheckRequest(w.c, prompt, sampling) == Success
    ensures var (status, e') := Arrive(w, e, prompt, sampling);
      status == Success && Inv(w.c, e'.sched) && WellFormed(e'.sched) && RequestsOk(w.c, e'.sched.seqs) && Numbered(e'.sched.seqs)
  {
    var s := NewSequence(|e.sched.seqs| + 1, prompt, sampling);
    hide SeqsOk, BlocksIdle, PlanOk, TokensFit, QueuesOk, Matches, WellFormed;
    ArriveBlocks(w.c, e.sched.pool, e.sched.seqs, s);
    ArriveQueues(w.c, e.sched, s);
    InvWellFormed(w.c, Arrive(w, e, prompt, sampling).1.sched);
  }

  lemma ArrivePlan(c: Config, st: Sched, s: SeqState, plan: Plan)
    requires WellFormed(st) && PlanOk(c, st, plan) && plan.items != [] && s.scheduled == 0 && s.table == []
    ensures var st' := st.(seqs := st.seqs + [s], waiting := st.waiting + [|st.seqs|]);
      WellFormed(st') ==> PlanOk(c, st', plan)
  {
    hide Total, Matches;
    ArriveMatches(st.seqs, plan.items, s);
  }

  lemma ArriveTokens(seqs: seq<SeqState>, s: SeqState, isPrefill: bool, items: seq<Item>, sampled: seq<Token>)
    requires TokensFit(seqs, isPrefill, items, sampled)
    ensures TokensFit(seqs + [s], isPrefill, items, sampled)
  {
    hide TokenFits;
    forall k: nat | k < |items| ensures items[k].who < |seqs + [s]| && TokenFits((seqs + [s])[items[k].who], isPrefill, sampled[k]) {
      assert items[k].who < |seqs| && TokenFits(seqs[items[k].who], isPrefill, sampled[k]);
    }
  }

  /** A request may arrive at any moment. */
  lemma ArriveOk(w: World, e: State, prompt: seq<Token>, sampling: Sampling)
    requires EngineInv(w, e)
    ensures var (status, e') := Arrive(w, e, prompt, sampling);
      && status == CheckRequest(w.c, prompt, sampling)
      && EngineInv(w, e')
      && (status.Failure? ==> e' == e)
      && (status == Success ==> e'.sched.seqs == e.sched.seqs + [NewSequence(|e.sched.seqs| + 1, prompt, sampling)])
      && (status == Success ==> e'.sched.waiting == e.sched.waiting + [|e.sched.seqs|])
      && e'.sched.running == e.sched.running && e'.sched.pool == e.sched.pool && e'.phase == e.phase
  {
    if CheckRequest(w.c, prompt, sampling) == Success {
      ArriveInv(w, e, prompt, sampling);
      var s := NewSequence(|e.sched.seqs| + 1, prompt, sampling);
      var e' := Arrive(w, e, prompt, sampling).1;
      hide Inv, WellFormed, RequestsOk, CacheOk, Matches, TokensFit, PlanOk, Numbered;
      match e.phase
      case Idle =>
      case Scheduled(plan) =>
        ArrivePlan(w.c, e.sched, s, plan);
      case Ran(plan, sampled) =>
        ArriveMatches(e.sched.seqs, plan.items, s);
        ArriveTokens(e.sched.seqs, s, plan.isPrefill, plan.items, sampled);
    }
  }

  lemma ArriveLabelled(c: Config, p: Pool, seqs: seq<SeqState>, s: SeqState, ran: bool)
    requires Labelled(c, p, seqs, ran) && s.cached == 0 && s.scheduled == 0
    ensures Labelled(c, p, seqs + [s], ran)
  {
    hide KvIdle;
    var labels := SomeLabels(c, p, seqs, ran);
    ArriveKv(c, p, Carries(labels), seqs, s, ran);
    LabelledBy(c, p, seqs + [s], ran, labels);
  }

  /** A new request follows the reference from the start, and disturbs no other. */
  lemma ArriveRight(w: World, e: State, prompt: seq<Token>, sampling: Sampling)
    requires EngineInv(w, e) && Right(w, e)
    ensures Right(w, Arrive(w, e, prompt, sampling).1)
  {
    if CheckRequest(w.c, prompt, sampling) == Success {
      var seqs, s := e.sched.seqs, NewSequence(|e.sched.seqs| + 1, prompt, sampling);
      var e' := Arrive(w, e, prompt, sampling).1;
      assert e'.sched.seqs == seqs + [s] && e'.sched.pool == e.sched.pool && e'.cache == e.cache && e'.phase == e.phase;
      assert e.phase.Ran? ==> Matches(seqs, e.phase.plan.items);
      hide EngineInv, KvIdle, HoldsOf, Labelled;
      ArriveLabelled(w.c, e.sched.pool, seqs, s, e.phase.Ran?);
      ArriveKv(w.c, e.sched.pool, HoldsOf(w.m, e.cache), seqs, s, e.phase.Ran?);
      NewTrack(w, |seqs| + 1, prompt, sampling);
      hide Track, TrackWith, NewSequence;
      if e.phase.Ran? {
        NotPlanned(seqs, e.phase.plan.items, |seqs|);
      }
      forall i: nat | i < |e'.sched.seqs| ensures Follows(w, e'.sched.seqs, e.phase, i) {
        if i < |seqs| {
          assert Follows(w, seqs, e.phase, i);
        }
      }
    }
  }

  lemma NotPlanned(seqs: seq<SeqState>, items: seq<Item>, i: nat)
    requires Matches(seqs, items) && i >= |seqs|
    ensures !Planned(items, i)
  {
    forall k: nat | k < |items| ensures items[k].who < |seqs| {
      assert ItemOk(seqs, items[k]);
    }
  }
}
