/** The last phase, the step as a whole, and whole runs. */
module StepProofs {
  import opened Common
  import opened Blocks
  import opened Sequences
  import opened BlockPool
  import opened BlockInvariants
  import opened PrefixCache
  import opened AllocationProofs
  import opened SchedulerSpec
  import opened SchedulerProofs
  import opened PostprocessProofs
  import opened ScheduleProofs
  import opened Attention
  import opened Transformer
  import opened PagedBatch
  import opened Generation
  import opened EngineSpec
  import opened RunProofs
  import opened SlotLabels
  import opened RunPlanProofs
  import opened RequestProofs
  import opened BatchProofs
  import opened Engine
  import opened EngineProofs

  // ---------------------------------------------------------------- postprocess

  ghost predicate ItemsInRange(seqs: seq<SeqState>, items: seq<Item>) {
    forall k :: 0 <= k < |items| ==> items[k].who < |seqs|
  }

  lemma MatchesInRange(seqs: seq<SeqState>, items: seq<Item>)
    requires Matches(seqs, items)
    ensures ItemsInRange(seqs, items)
  {
    forall k | 0 <= k < |items| ensures items[k].who < |seqs| {
      assert ItemOk(seqs, items[k]);
    }
  }

  lemma AdvancedRequests(w: World, st: Sched, seqs': seq<SeqState>, items: seq<Item>, sampled: seq<Token>)
    requires Inv(w.c, st) && Matches(st.seqs, items) && RequestsOk(w.c, st.seqs) && Numbered(st.seqs)
    requires AllAdvanced(st.seqs, seqs', items, sampled, w.isEos)
    ensures RequestsOk(w.c, seqs') && Numbered(seqs')
  {
    hide Inv, Matches, RequestOk, Advanced;
    forall i: nat | i < |seqs'| ensures RequestOk(w.c, seqs'[i]) && seqs'[i].id == i + 1 {
      if Planned(items, i) {
        var k: nat :| k < |items| && items[k].who == i;
        PlannedUnfinishedSeq(w.c, st, items, k);
        AdvancedRequestOk(w.c, st.seqs[i], seqs'[i], sampled[k], w.isEos);
        AdvancedId(st.seqs[i], seqs'[i], sampled[k], w.isEos);
      }
    }
  }

  lemma AdvancedId(s: SeqState, t: SeqState, token: Token, isEos: Token -> bool)
    requires Advanced(s, t, token, isEos)
    ensures t.id == s.id
  {
  }

  /** The finish phase meets no error: every planned sequence advances by its own token, and the engine
      is idle again. */
  lemma FinishPhaseOk(w: World, e: State)
    requires EngineInv(w, e) && e.phase.Ran?
    ensures ItemsInRange(e.sched.seqs, e.phase.plan.items)
    ensures var (status, e', results) := FinishPhase(w, e);
      && status == Success && EngineInv(w, e') && e'.phase.Idle?
      && AllAdvanced(e.sched.seqs, e'.sched.seqs, e.phase.plan.items, e.phase.sampled, w.isEos)
      && e'.sched.waiting == e.sched.waiting && e.sched.pool.hashed <= e'.sched.pool.hashed && e'.cache == e.cache
      && |e'.sched.seqs| == |e.sched.seqs| && results == Collect(e'.sched.seqs, e.phase.plan.items)
  {
    var plan, sampled := e.phase.plan, e.phase.sampled;
    MatchesInRange(e.sched.seqs, plan.items);
    assert |sampled| == |plan.items|;
    hide Inv, WellFormed, RequestsOk, CacheOk, Numbered, Matches, TokensFit, AllAdvanced, Quiet, Post, Collect;
    PostOk(w.c, e.sched, plan.isPrefill, plan.items, sampled, w.isEos);
    var sched := Post(w.c, e.sched, plan.isPrefill, plan.items, sampled, w.isEos).1;
    AdvancedRequests(w, e.sched, sched.seqs, plan.items, sampled);
    MatchesNothing(sched.seqs);
    InvWellFormed(w.c, sched);
  }

  lemma FinishFollows(w: World, e: State, seqs': seq<SeqState>, i: nat)
    requires w.Valid() && e.phase.Ran? && Inv(w.c, e.sched) && Matches(e.sched.seqs, e.phase.plan.items) && RequestsOk(w.c, e.sched.seqs)
    requires AllAdvanced(e.sched.seqs, seqs', e.phase.plan.items, e.phase.sampled, w.isEos)
    requires i < |seqs'| && Follows(w, e.sched.seqs, e.phase, i)
    ensures Track(w, seqs'[i])
  {
    var seqs, items, sampled := e.sched.seqs, e.phase.plan.items, e.phase.sampled;
    hide Inv, Matches, Advanced, Track, TrackWith;
    if Planned(items, i) {
      var k: nat :| k < |items| && items[k].who == i;
      PlannedUnfinishedSeq(w.c, e.sched, items, k);
      assert RequestOk(w.c, seqs[i]);
      if Computed(seqs[i]) {
        AppendTrack(w, seqs[i], seqs'[i], sampled[k]);
      } else {
        HoldTrack(w, seqs[i], seqs'[i], sampled[k]);
      }
    }
  }

  lemma FinishLabelled(c: Config, st: Sched, isPrefill: bool, items: seq<Item>, sampled: seq<Token>, isEos: Token -> bool)
    requires Inv(c, st) && WellFormed(st) && Matches(st.seqs, items) && TokensFit(st.seqs, isPrefill, items, sampled)
    requires |sampled| == |items| && forall k :: 0 <= k < |items| ==> items[k].who < |st.seqs|
    requires Labelled(c, st.pool, st.seqs, true)
    ensures var st' := Post(c, st, isPrefill, items, sampled, isEos).1;
      (forall i: nat :: i < |st'.seqs| ==> st'.seqs[i].scheduled == 0) ==> Labelled(c, st'.pool, st'.seqs, false)
  {
    hide Inv, WellFormed, Matches, TokensFit, Post, KvIdle, Carries;
    var labels := SomeLabels(c, st.pool, st.seqs, true);
    var st' := Post(c, st, isPrefill, items, sampled, isEos).1;
    PostKv(c, st, Carries(labels), isPrefill, items, sampled, isEos);
    if forall i: nat :: i < |st'.seqs| ==> st'.seqs[i].scheduled == 0 {
      SettledKv(c, st'.pool, Carries(labels), st'.seqs, true, false);
      LabelledBy(c, st'.pool, st'.seqs, false, labels);
    }
  }

  lemma FinishPhaseRight(w: World, e: State)
    requires EngineInv(w, e) && e.phase.Ran? && Right(w, e)
    ensures ItemsInRange(e.sched.seqs, e.phase.plan.items)
    ensures Right(w, FinishPhase(w, e).1)
  {
    var plan, sampled := e.phase.plan, e.phase.sampled;
    FinishPhaseOk(w, e);
    var e' := FinishPhase(w, e).1;
    assert Inv(w.c, e.sched) && WellFormed(e.sched) && Matches(e.sched.seqs, plan.items) && TokensFit(e.sched.seqs, plan.isPrefill, plan.items, sampled) && RequestsOk(w.c, e.sched.seqs);
    assert Quiet(e'.sched.seqs) && |sampled| == |plan.items|;
    hide EngineInv, Inv, WellFormed, RequestsOk, Matches, TokensFit, AllAdvanced, Post, Collect, KvIdle, HoldsOf, Track, Labelled;
    FinishLabelled(w.c, e.sched, plan.isPrefill, plan.items, sampled, w.isEos);
    PostKv(w.c, e.sched, HoldsOf(w.m, e.cache), plan.isPrefill, plan.items, sampled, w.isEos);
    SettledKv(w.c, e'.sched.pool, HoldsOf(w.m, e.cache), e'.sched.seqs, true, false);
    forall i: nat | i < |e'.sched.seqs| ensures Follows(w, e'.sched.seqs, e'.phase, i) {
      assert Follows(w, e.sched.seqs, e.phase, i);
      FinishFollows(w, e, e'.sched.seqs, i);
    }
  }

  // ---------------------------------------------------------------- the step

  /** LLMEngine::step. */
  ghost function Step(w: World, e: State): (Status, State, seq<Result>)
    requires EngineInv(w, e) && e.phase.Idle?
  {
    SchedulePhaseOk(w, e);
    var (s1, e1) := SchedulePhase(w, e);
    if s1.Failure? || e1.phase.Idle? then (s1, e1, [])
    else
      var (s2, e2) := RunPhase(w, e1);
      if s2.Failure? then (s2, e2, [])
      else
        RunPhaseOk(w, e1);
        FinishPhaseOk(w, e2);
        FinishPhase(w, e2)
  }

  /** The step phase by phase. */
  lemma StepUnroll(w: World, e: State)
    requires EngineInv(w, e) && e.phase.Idle?
    ensures WellFormed(e.sched)
    ensures var (s1, e1) := SchedulePhase(w, e);
      if s1.Failure? || e1.phase.Idle? then Step(w, e) == (s1, e1, []) && (s1 == Success ==> EngineInv(w, e1))
      else s1 == Success && EngineInv(w, e1) && e1.phase.Scheduled? && RanNext(w, e, e1)
  {
    assert WellFormed(e.sched);
    hide EngineInv, SchedulePhase, RunPhase, FinishPhase, SameText, OnlyRngs, AllAdvanced, Collect, ItemsInRange, WellFormed;
    SchedulePhaseOk(w, e);
    var (s1, e1) := SchedulePhase(w, e);
    if s1 == Success && e1.phase.Scheduled? && RunPhase(w, e1).0 == Success {
      RunPhaseOk(w, e1);
      FinishPhaseOk(w, RunPhase(w, e1).1);
    }
  }

  ghost predicate RanNext(w: World, e: State, e1: State)
    requires EngineInv(w, e) && e.phase.Idle? && EngineInv(w, e1) && e1.phase.Scheduled?
  {
    var (s2, e2) := RunPhase(w, e1);
    if s2.Failure? then Step(w, e) == (s2, e2, [])
    else
      && EngineInv(w, e2) && WellFormed(e2.sched) && e2.phase.Ran? && e2.phase.plan == e1.phase.plan
      && ItemsInRange(e2.sched.seqs, e2.phase.plan.items)
      && FinishPhase(w, e2).0 == Success && Step(w, e) == FinishPhase(w, e2)
  }

  /** The three states a successful step with a plan goes through. */
  lemma StepStates(w: World, e: State) returns (e1: State, e2: State)
    requires EngineInv(w, e) && e.phase.Idle? && Step(w, e).0 == Success && SchedulePhase(w, e).1.phase.Scheduled?
    ensures (Success, e1) == SchedulePhase(w, e) && EngineInv(w, e1) && e1.phase.Scheduled?
    ensures (Success, e2) == RunPhase(w, e1) && EngineInv(w, e2) && e2.phase.Ran? && e2.phase.plan == e1.phase.plan
    ensures ItemsInRange(e2.sched.seqs, e2.phase.plan.items)
    ensures Step(w, e) == FinishPhase(w, e2) && EngineInv(w, Step(w, e).1) && Step(w, e).1.phase.Idle?
    ensures SameText(e.sched.seqs, e1.sched.seqs) && OnlyRngs(e1.sched.seqs, e2.sched.seqs)
    ensures e2.sched.waiting == e1.sched.waiting && e2.sched.pool == e1.sched.pool
    ensures AllAdvanced(e2.sched.seqs, Step(w, e).1.sched.seqs, e2.phase.plan.items, e2.phase.sampled, w.isEos)
    ensures Step(w, e).1.sched.waiting == e2.sched.waiting && e2.sched.pool.hashed <= Step(w, e).1.sched.pool.hashed
    ensures e.sched.pool.hashed <= e1.sched.pool.hashed && Step(w, e).2 == Collect(Step(w, e).1.sched.seqs, e2.phase.plan.items)
  {
    assert WellFormed(e.sched);
    hide EngineInv, SchedulePhase, RunPhase, FinishPhase, SameText, OnlyRngs, AllAdvanced, Collect, ItemsInRange, WellFormed;
    SchedulePhaseOk(w, e);
    e1 := SchedulePhase(w, e).1;
    RunPhaseOk(w, e1);
    e2 := RunPhase(w, e1).1;
    FinishPhaseOk(w, e2);
  }

  /** A step fails only in the scheduler, given the limits; otherwise it keeps the invariant. */
  lemma StepOk(w: World, e: State)
    requires EngineInv(w, e) && e.phase.Idle?
    ensures Limits(w) ==> Step(w, e).0 == Success || Step(w, e).0 == Failure(PromptNeedsTooManyBlocks)
    ensures Step(w, e).0 == Success ==> EngineInv(w, Step(w, e).1) && Step(w, e).1.phase.Idle?
  {
    assert WellFormed(e.sched);
    hide EngineInv, SchedulePhase, RunPhase, FinishPhase, SameText, OnlyRngs, AllAdvanced, Collect, ItemsInRange, Limits, WellFormed;
    SchedulePhaseOk(w, e);
    var (s1, e1) := SchedulePhase(w, e);
    if s1 == Success && e1.phase.Scheduled? {
      if Limits(w) {
        RunPhaseSucceeds(w, e1);
      }
      if RunPhase(w, e1).0 == Success {
        RunPhaseOk(w, e1);
        FinishPhaseOk(w, RunPhase(w, e1).1);
      }
    }
  }

  /** What is right stays right over a step, unless chain hashes collide. */
  lemma StepRight(w: World, e: State)
    requires EngineInv(w, e) && e.phase.Idle? && Step(w, e).0 == Success && RightUnlessCollision(w, e)
    ensures RightUnlessCollision(w, Step(w, e).1)
  {
    var e' := Step(w, e).1;
    if NoCollision(w.c, e'.sched.pool.hashed) {
      hide EngineInv, SchedulePhase, RunPhase, FinishPhase, SameText, OnlyRngs, AllAdvanced, Collect, Right, NoCollision, ItemsInRange;
      SchedulePhaseOk(w, e);
      if SchedulePhase(w, e).1.phase.Scheduled? {
        var e1, e2 := StepStates(w, e);
        FewerCollide(w.c, e1.sched.pool.hashed, e'.sched.pool.hashed);
        FewerCollide(w.c, e.sched.pool.hashed, e1.sched.pool.hashed);
        SchedulePhaseRight(w, e);
        RunPhaseRight(w, e1);
        FinishPhaseRight(w, e2);
      } else {
        FewerCollide(w.c, e.sched.pool.hashed, e'.sched.pool.hashed);
        SchedulePhaseRight(w, e);
      }
    }
  }

  /** The step phase by phase, and what it keeps. */
  lemma StepFacts(w: World, e: State)
    requires EngineInv(w, e) && e.phase.Idle? && RightUnlessCollision(w, e)
    ensures WellFormed(e.sched)
    ensures var (s1, e1) := SchedulePhase(w, e);
      if s1.Failure? || e1.phase.Idle? then Step(w, e) == (s1, e1, []) && (s1 == Success ==> EngineInv(w, e1))
      else s1 == Success && EngineInv(w, e1) && e1.phase.Scheduled? && RanNext(w, e, e1)
    ensures Step(w, e).0 == Success ==> EngineInv(w, Step(w, e).1) && Step(w, e).1.phase.Idle? && RightUnlessCollision(w, Step(w, e).1)
  {
    hide *;
    StepUnroll(w, e);
    StepOk(w, e);
    if Step(w, e).0 == Success {
      StepRight(w, e);
    }
  }

  // ---------------------------------------------------------------- whole runs

  datatype Event = Arrival(prompt: seq<Token>, sampling: Sampling) | DoSchedule | DoRun | DoFinish

  /** The engine before any request: an empty pool and whatever the cache memory contains. */
  ghost predicate Initial(w: World, e: State) {
    w.Valid() && e.sched == EmptySched(w.c) && e.phase == Idle && CacheOk(w.m, ShapeOf(w.c), e.cache)
  }

  /** One event; an event that does not fit the phase, or whose move fails, leads nowhere. */
  ghost function Move(w: World, e: State, event: Event): Option<State>
    requires EngineInv(w, e)
  {
    match event
    case Arrival(prompt, sampling) => Some(Arrive(w, e, prompt, sampling).1)
    case DoSchedule =>
      if !e.phase.Idle? then None else
        var (status, e') := SchedulePhase(w, e);
        if status == Success then Some(e') else None
    case DoRun =>
      if !e.phase.Scheduled? then None else
        var (status, e') := RunPhase(w, e);
        if status == Success then Some(e') else None
    case DoFinish =>
      if !e.phase.Ran? then None else
        FinishPhaseOk(w, e);
        var (status, e', results) := FinishPhase(w, e);
        if status == Success then Some(e') else None
  }

  lemma MoveOk(w: World, e: State, event: Event)
    requires EngineInv(w, e) && RightUnlessCollision(w, e) && Move(w, e, event).Some?
    ensures EngineInv(w, Move(w, e, event).value) && RightUnlessCollision(w, Move(w, e, event).value)
    ensures e.sched.pool.hashed <= Move(w, e, event).value.sched.pool.hashed
  {
    var e' := Move(w, e, event).value;
    hide EngineInv, SchedulePhase, RunPhase, FinishPhase, SameText, OnlyRngs, AllAdvanced, Collect, Right, NoCollision, Arrive, ItemsInRange, CheckRequest;
    match event
    case Arrival(prompt, sampling) =>
      ArriveOk(w, e, prompt, sampling);
      if NoCollision(w.c, e'.sched.pool.hashed) {
        ArriveRight(w, e, prompt, sampling);
      }
    case DoSchedule =>
      SchedulePhaseOk(w, e);
      if NoCollision(w.c, e'.sched.pool.hashed) {
        FewerCollide(w.c, e.sched.pool.hashed, e'.sched.pool.hashed);
        SchedulePhaseRight(w, e);
      }
    case DoRun =>
      RunPhaseOk(w, e);
      if NoCollision(w.c, e'.sched.pool.hashed) {
        RunPhaseRight(w, e);
      }
    case DoFinish =>
      FinishPhaseOk(w, e);
      if NoCollision(w.c, e'.sched.pool.hashed) {
        FewerCollide(w.c, e.sched.pool.hashed, e'.sched.pool.hashed);
        FinishPhaseRight(w, e);
      }
  }

  lemma InitialOk(w: World, e: State)
    requires Initial(w, e)
    ensures EngineInv(w, e) && RightUnlessCollision(w, e)
  {
    var p := e.sched.pool;
    assert PoolOk(w.c, p, []) by {
      forall b: nat | b < |p.blocks| ensures p.blocks[b].refCount == Occ([], b) {
      }
    }
    LabelledBy(w.c, p, [], false, imap[]);
    hide HoldsOf, PoolOk, Labelled;
    InvWellFormed(w.c, e.sched);
  }

  /** A state some sequence of events leads to. */
  ghost predicate Reaches(w: World, e: State, events: seq<Event>, e': State)
    requires EngineInv(w, e) && RightUnlessCollision(w, e)
    decreases |events|
  {
    if events == [] then e' == e
    else
      Move(w, e, events[0]).Some? &&
      (MoveOk(w, e, events[0]);
       Reaches(w, Move(w, e, events[0]).value, events[1..], e'))
  }

  /** Every reachable state, in any phase and with any arrivals, keeps the block, queue and plan
      invariants; and unless chain hashes collided, every readable slot and every text is right. */
  lemma {:induction false} Reachable(w: World, e: State, events: seq<Event>, e': State)
    requires EngineInv(w, e) && RightUnlessCollision(w, e) && Reaches(w, e, events, e')
    ensures EngineInv(w, e') && RightUnlessCollision(w, e') && e.sched.pool.hashed <= e'.sched.pool.hashed
    decreases |events|
  {
    if events != [] {
      hide EngineInv, RightUnlessCollision, Move;
      MoveOk(w, e, events[0]);
      Reachable(w, Move(w, e, events[0]).value, events[1..], e');
    }
  }

  // ---------------------------------------------------------------- requests keep their identity

  /** A later state of the same request: the text only grows, and not after the end. */
  ghost predicate Later(s: SeqState, t: SeqState) {
    && t.id == s.id && t.promptSize == s.promptSize && t.sampling == s.sampling
    && s.tokens <= t.tokens
    && (s.status == Finished ==> t.status == Finished && t.tokens == s.tokens)
  }

  ghost predicate AllLater(a: seq<SeqState>, b: seq<SeqState>) {
    |a| <= |b| && forall i: nat :: i < |a| ==> Later(a[i], b[i])
  }

  lemma LaterSelf(a: seq<SeqState>)
    ensures AllLater(a, a)
  {
  }

  lemma LaterTrans(a: seq<SeqState>, b: seq<SeqState>, d: seq<SeqState>)
    requires AllLater(a, b) && AllLater(b, d)
    ensures AllLater(a, d)
  {
    forall i: nat | i < |a| ensures Later(a[i], d[i]) {
      assert Later(a[i], b[i]) && Later(b[i], d[i]);
    }
  }

  lemma SameTextLater(a: seq<SeqState>, b: seq<SeqState>)
    requires SameText(a, b)
    ensures AllLater(a, b)
  {
    forall i: nat | i < |a| ensures Later(a[i], b[i]) {
      assert SameRequest(a[i], b[i]);
    }
  }

  lemma OnlyRngsLater(a: seq<SeqState>, b: seq<SeqState>)
    requires OnlyRngs(a, b)
    ensures AllLater(a, b)
  {
    forall i: nat | i < |a| ensures Later(a[i], b[i]) {
      assert OnlyRng(a[i], b[i]);
    }
  }

  lemma AdvancedLater(w: World, st: Sched, seqs': seq<SeqState>, items: seq<Item>, sampled: seq<Token>)
    requires Inv(w.c, st) && Matches(st.seqs, items) && AllAdvanced(st.seqs, seqs', items, sampled, w.isEos)
    ensures AllLater(st.seqs, seqs')
  {
    hide Inv, Matches;
    forall i: nat | i < |seqs'| ensures Later(st.seqs[i], seqs'[i]) {
      if Planned(items, i) {
        var k: nat :| k < |items| && items[k].who == i;
        PlannedUnfinishedSeq(w.c, st, items, k);
        assert Advanced(st.seqs[i], seqs'[i], sampled[k], w.isEos);
      }
    }
  }

  lemma MoveLater(w: World, e: State, event: Event)
    requires EngineInv(w, e) && Move(w, e, event).Some?
    ensures AllLater(e.sched.seqs, Move(w, e, event).value.sched.seqs)
  {
    var e' := Move(w, e, event).value;
    assert e.phase.Ran? ==> Inv(w.c, e.sched) && Matches(e.sched.seqs, e.phase.plan.items);
    hide EngineInv, SchedulePhase, RunPhase, FinishPhase, SameText, OnlyRngs, AllAdvanced, Collect, Arrive, ItemsInRange, CheckRequest, Inv, Matches;
    match event
    case Arrival(prompt, sampling) =>
      ArriveOk(w, e, prompt, sampling);
      LaterSelf(e.sched.seqs);
    case DoSchedule =>
      SchedulePhaseOk(w, e);
      SameTextLater(e.sched.seqs, e'.sched.seqs);
    case DoRun =>
      RunPhaseOk(w, e);
      OnlyRngsLater(e.sched.seqs, e'.sched.seqs);
    case DoFinish =>
      FinishPhaseOk(w, e);
      AdvancedLater(w, e.sched, e'.sched.seqs, e.phase.plan.items, e.phase.sampled);
  }

  lemma {:induction false} ReachesLater(w: World, e: State, events: seq<Event>, e': State)
    requires EngineInv(w, e) && RightUnlessCollision(w, e) && Reaches(w, e, events, e')
    ensures AllLater(e.sched.seqs, e'.sched.seqs)
    decreases |events|
  {
    if events == [] {
      LaterSelf(e.sched.seqs);
    } else {
      hide EngineInv, RightUnlessCollision, Move, Later;
      MoveOk(w, e, events[0]);
      MoveLater(w, e, events[0]);
      var e1 := Move(w, e, events[0]).value;
      ReachesLater(w, e1, events[1..], e');
      LaterTrans(e.sched.seqs, e1.sched.seqs, e'.sched.seqs);
    }
  }

  // ---------------------------------------------------------------- the main theorem

  /** A finished request is answered exactly as the reference answers it. */
  lemma FinishedIsAnswer(w: World, s: SeqState)
    requires w.Valid() && Track(w, s) && s.status == Finished
    ensures ResultOf(s).tokens == Answer(w, s.id, s.tokens[..s.promptSize], s.sampling)
  {
    hide Generation.Complete;
  }

  /** In any phase a finished sequence is past all sampling. */
  lemma FinishedTracks(w: World, e: State, i: nat)
    requires EngineInv(w, e) && Right(w, e) && i < |e.sched.seqs| && e.sched.seqs[i].status == Finished
    ensures Track(w, e.sched.seqs[i])
  {
    hide Inv, RequestsOk, WellFormed, CacheOk, Matches, TokensFit, PlanOk, Track, KvIdle, HoldsOf, Numbered;
    assert Follows(w, e.sched.seqs, e.phase, i);
    if e.phase.Ran? && Planned(e.phase.plan.items, i) {
      var k: nat :| k < |e.phase.plan.items| && e.phase.plan.items[k].who == i;
      PlannedUnfinishedSeq(w.c, e.sched, e.phase.plan.items, k);
    }
  }

  /** The main theorem: whatever the engine was doing when a request arrived, and whatever arrives and
      runs afterwards, with any batching, chunking, preemption and prefix sharing, the request, once
      finished, has exactly the tokens the naive reference generates for it alone, provided no two
      different prefixes that were hashed have the same chain hash. */
  lemma GenerationIsReference(w: World, e: State, prompt: seq<Token>, sampling: Sampling, events: seq<Event>, e': State)
    requires EngineInv(w, e) && RightUnlessCollision(w, e) && CheckRequest(w.c, prompt, sampling) == Success
    requires Reaches(w, e, [Arrival(prompt, sampling)] + events, e') && NoCollision(w.c, e'.sched.pool.hashed)
    ensures var i := |e.sched.seqs|;
      && i < |e'.sched.seqs|
      && (e'.sched.seqs[i].status == Finished ==> ResultOf(e'.sched.seqs[i]) == Result(i + 1, Answer(w, i + 1, prompt, sampling)))
  {
    var i := |e.sched.seqs|;
    hide *;
    var e1 := FirstMove(w, e, prompt, sampling, events, e');
    ReachesLater(w, e1, events, e');
    Reachable(w, e1, events, e');
    LaterArrival(e1.sched.seqs, e'.sched.seqs, i, prompt, sampling);
    if e'.sched.seqs[i].status == Finished {
      Collisionless(w, e');
      FinishedTracks(w, e', i);
      FinishedIsAnswer(w, e'.sched.seqs[i]);
      ResultId(e'.sched.seqs[i]);
    }
  }

  lemma FirstMove(w: World, e: State, prompt: seq<Token>, sampling: Sampling, events: seq<Event>, e': State) returns (e1: State)
    requires EngineInv(w, e) && RightUnlessCollision(w, e) && CheckRequest(w.c, prompt, sampling) == Success
    requires Reaches(w, e, [Arrival(prompt, sampling)] + events, e')
    ensures w.Valid() && EngineInv(w, e1) && RightUnlessCollision(w, e1) && Reaches(w, e1, events, e')
    ensures |e1.sched.seqs| == |e.sched.seqs| + 1 && e1.sched.seqs[|e.sched.seqs|] == NewSequence(|e.sched.seqs| + 1, prompt, sampling)
  {
    var arrival := Arrival(prompt, sampling);
    assert ([arrival] + events)[0] == arrival && ([arrival] + events)[1..] == events;
    ArriveOk(w, e, prompt, sampling);
    MoveOk(w, e, arrival);
    e1 := Move(w, e, arrival).value;
    hide Inv, WellFormed, RequestsOk, CacheOk, Numbered, RightUnlessCollision, CheckRequest, Arrive;
  }

  lemma LaterArrival(a: seq<SeqState>, b: seq<SeqState>, i: nat, prompt: seq<Token>, sampling: Sampling)
    requires AllLater(a, b) && i < |a| && a[i] == NewSequence(i + 1, prompt, sampling)
    ensures i < |b| && b[i].id == i + 1 && b[i].promptSize == |prompt| && b[i].sampling == sampling
    ensures |prompt| <= |b[i].tokens| && b[i].tokens[..|prompt|] == prompt
  {
    assert Later(a[i], b[i]);
  }

  lemma Collisionless(w: World, e: State)
    requires w.Valid() && RightUnlessCollision(w, e) && NoCollision(w.c, e.sched.pool.hashed)
    ensures Right(w, e)
  {
    hide Right, NoCollision;
  }

  lemma ResultId(s: SeqState)
    ensures ResultOf(s).id == s.id
  {
  }

  /** When no request is left, every block is free again. */
  lemma FinishedFreesAll(w: World, e: State)
    requires EngineInv(w, e) && IsFinished(e.sched)
    ensures |e.sched.pool.free| == w.c.numKvBlocks
  {
    hide BlocksIdle, RequestsOk, CacheOk, Matches, TokensFit, PlanOk, Numbered;
    forall i: nat | i < |e.sched.seqs| ensures e.sched.seqs[i].table == [] {
      assert SeqOk(w.c, e.sched.seqs[i], RoleOf(e.sched, i));
    }
    AllFree(w.c, e.sched.pool, e.sched.seqs);
  }
}
