/** Exactly when the pool is large enough. Admission compares a request with max_model_len, never with the
    pool, so an accepted request may fail later. Here is when it does. */
module CapacityProofs {
  import opened Common
  import opened Blocks
  import opened Sequences
  import opened BlockPool
  import opened BlockInvariants
  import opened PrefixCache
  import opened AllocationProofs
  import opened SchedulerSpec
  import opened SchedulerProofs
  import opened PostprocessProofs
  import opened ScheduleProofs
  import opened Attention
  import opened Transformer
  import opened PagedBatch
  import opened Generation
  import opened EngineSpec
  import opened RunProofs
  import opened RunPlanProofs
  import opened RequestProofs
  import opened BatchProofs
  import opened SlotLabels
  import opened Engine
  import opened EngineProofs
  import opened StepProofs
  import opened ProgressProofs
  import opened ResultProofs
  import opened GenerateProofs

  // ---------------------------------------------------------------- what finished had room

  /** Every finished request found room for all its tokens but the last. */
  ghost predicate Fitted(c: Config, seqs: seq<SeqState>, first: nat) {
    forall i: nat :: first <= i < |seqs| && seqs[i].status == Finished && |seqs[i].tokens| > 0 ==>
      NumBlocks(|seqs[i].tokens| - 1, c.blockSize) <= c.numKvBlocks
  }

  /** A planned sequence whose whole text is computed has blocks for all of it, and these are different. */
  lemma PlannedFits(w: World, e: State, k: nat)
    requires EngineInv(w, e) && Right(w, e) && e.phase.Ran? && k < |e.phase.plan.items|
    ensures e.phase.plan.items[k].who < |e.sched.seqs|
    ensures var s := e.sched.seqs[e.phase.plan.items[k].who];
      Computed(s) ==> NumBlocks(|s.tokens|, w.c.blockSize) <= w.c.numKvBlocks
  {
    hide RequestsOk, CacheOk, Numbered, TokensFit, KvIdle, Follows, Labelled, HoldsOf, BlocksIdle, NumBlocks;
    var i := e.phase.plan.items[k].who;
    assert ItemOk(e.sched.seqs, e.phase.plan.items[k]);
    assert SeqOk(w.c, e.sched.seqs[i], RoleOf(e.sched, i));
    if Computed(e.sched.seqs[i]) {
      ComputedFits(w.c, e.sched, i);
    }
  }

  /** A sequence that postprocess finishes has just been computed as a whole. */
  lemma FinishFitted(w: World, e: State, i: nat)
    requires EngineInv(w, e) && Right(w, e) && e.phase.Ran?
    requires ItemsInRange(e.sched.seqs, e.phase.plan.items) && FinishPhase(w, e).0 == Success
    requires i < |FinishPhase(w, e).1.sched.seqs| == |e.sched.seqs|
    requires e.sched.seqs[i].status != Finished && FinishPhase(w, e).1.sched.seqs[i].status == Finished
    ensures |FinishPhase(w, e).1.sched.seqs[i].tokens| > 0
    ensures NumBlocks(|FinishPhase(w, e).1.sched.seqs[i].tokens| - 1, w.c.blockSize) <= w.c.numKvBlocks
  {
    hide EngineInv, Right, FinishPhase, NumBlocks, Planned;
    SchedWellFormed(w, e);
    FinishPhaseOk(w, e);
    var k := FinishedPlanned(e, FinishPhase(w, e).1, i, w.isEos);
    PlannedFits(w, e, k);
  }

  lemma SchedWellFormed(w: World, e: State)
    requires EngineInv(w, e)
    ensures WellFormed(e.sched)
  {
  }

  lemma FinishedPlanned(e: State, e': State, i: nat, isEos: Token -> bool) returns (k: nat)
    requires e.phase.Ran? && i < |e.sched.seqs| && AllAdvanced(e.sched.seqs, e'.sched.seqs, e.phase.plan.items, e.phase.sampled, isEos)
    requires e.sched.seqs[i].status != Finished && e'.sched.seqs[i].status == Finished
    ensures k < |e.phase.plan.items| && e.phase.plan.items[k].who == i && Computed(e.sched.seqs[i])
    ensures |e'.sched.seqs[i].tokens| == |e.sched.seqs[i].tokens| + 1
  {
    hide Stops, Computed;
    assert Planned(e.phase.plan.items, i);
    k :| k < |e.phase.plan.items| && e.phase.plan.items[k].who == i;
    assert Advanced(e.sched.seqs[i], e'.sched.seqs[i], e.phase.sampled[k], isEos);
  }

  /** Every step that succeeds had room for what it finished. */
  lemma StepFitted(w: World, e: State, first: nat)
    requires EngineInv(w, e) && e.phase.Idle? && Step(w, e).0 == Success && RightUnlessCollision(w, e)
    requires NoCollision(w.c, Step(w, e).1.sched.pool.hashed) && Fitted(w.c, e.sched.seqs, first)
    ensures Fitted(w.c, Step(w, e).1.sched.seqs, first)
  {
    hide EngineInv, Step, Right, NoCollision, NumBlocks, Later, RightUnlessCollision;
    StepLater(w, e);
    var seqs, seqs' := e.sched.seqs, Step(w, e).1.sched.seqs;
    forall i: nat | first <= i < |seqs'| && seqs'[i].status == Finished && |seqs'[i].tokens| > 0
      ensures NumBlocks(|seqs'[i].tokens| - 1, w.c.blockSize) <= w.c.numKvBlocks
    {
      if seqs[i].status == Finished {
        LaterResult(seqs[i], seqs'[i]);
        FinishedText(seqs[i], seqs'[i]);
      } else {
        StepFinishes(w, e, i);
      }
    }
  }

  lemma FinishedText(s: SeqState, t: SeqState)
    requires Later(s, t) && s.status == Finished
    ensures t.tokens == s.tokens
  {
  }

  lemma StepFinishes(w: World, e: State, i: nat)
    requires EngineInv(w, e) && e.phase.Idle? && Step(w, e).0 == Success && RightUnlessCollision(w, e)
    requires NoCollision(w.c, Step(w, e).1.sched.pool.hashed)
    requires i < |Step(w, e).1.sched.seqs| == |e.sched.seqs|
    requires e.sched.seqs[i].status != Finished && Step(w, e).1.sched.seqs[i].status == Finished
    ensures |Step(w, e).1.sched.seqs[i].tokens| > 0
    ensures NumBlocks(|Step(w, e).1.sched.seqs[i].tokens| - 1, w.c.blockSize) <= w.c.numKvBlocks
  {
    var e' := Step(w, e).1;
    hide EngineInv, SchedulePhase, RunPhase, FinishPhase, SameText, OnlyRngs, AllAdvanced, Collect, ItemsInRange, Right, NoCollision, NumBlocks;
    SchedulePhaseOk(w, e);
    SameFinished(e.sched.seqs, SchedulePhase(w, e).1.sched.seqs);
    assert SchedulePhase(w, e).1.phase.Scheduled?;
    hide Step;
    var e1, e2 := StepStates(w, e);
    SameFinished(e1.sched.seqs, e2.sched.seqs);
    FewerCollide(w.c, e1.sched.pool.hashed, e'.sched.pool.hashed);
    FewerCollide(w.c, e.sched.pool.hashed, e1.sched.pool.hashed);
    SchedulePhaseRight(w, e);
    RunPhaseRight(w, e1);
    FinishFitted(w, e2, i);
  }

  // ---------------------------------------------------------------- what is unfinished needs room

  /** Every request, by itself, has room for its prompt and all tokens of its answer but the last. */
  ghost predicate AnswersFit(w: World, first: nat, requests: seq<Request>)
    requires w.Valid()
  {
    forall k: nat :: k < |requests| && requests[k].prompt != [] ==> AnswerFits(w, first, requests, k)
  }

  ghost predicate AnswerFits(w: World, first: nat, requests: seq<Request>, k: nat)
    requires w.Valid() && k < |requests| && requests[k].prompt != []
  {
    NumBlocks(|requests[k].prompt| + |Answer(w, first + k + 1, requests[k].prompt, requests[k].sampling)| - 1, w.c.blockSize) <= w.c.numKvBlocks
  }

  /** An unfinished text on its way to the reference's is shorter than that. */
  lemma Shorter(w: World, s: SeqState)
    requires w.Valid() && Track(w, s) && RequestOk(w.c, s) && s.status != Finished
    ensures |s.tokens| < s.promptSize + |Answer(w, s.id, s.tokens[..s.promptSize], s.sampling)|
  {
    hide Generation.Complete;
    CompleteStops(w, s.tokens, s.promptSize, s.sampling, s.rng);
  }

  lemma FinishedLength(w: World, s: SeqState)
    requires w.Valid() && Track(w, s) && s.status == Finished
    ensures |s.tokens| == s.promptSize + |Answer(w, s.id, s.tokens[..s.promptSize], s.sampling)|
  {
    hide Generation.Complete;
  }

  lemma IdleTracks(w: World, e: State, i: nat)
    requires EngineInv(w, e) && e.phase.Idle? && Right(w, e) && i < |e.sched.seqs|
    ensures Track(w, e.sched.seqs[i]) && RequestOk(w.c, e.sched.seqs[i])
  {
    hide Inv, WellFormed, CacheOk, Numbered, Quiet, KvIdle, Labelled, Track, RequestOk, HoldsOf;
    assert Follows(w, e.sched.seqs, e.phase, i);
  }

  lemma GoingFits(w: World, e: State, first: nat, requests: seq<Request>, results: seq<Result>)
    requires Going(w, e, first, requests, results) && Right(w, e) && AnswersFit(w, first, requests)
    ensures Fits(w.c, e.sched.seqs)
  {
    hide EngineInv, Served, NumBlocks, Right, Track, RequestOk, Answer;
    ValidWorld(w, e);
    forall i: nat | i < |e.sched.seqs| && e.sched.seqs[i].status != Finished
      ensures NumBlocks(|e.sched.seqs[i].tokens|, w.c.blockSize) <= w.c.numKvBlocks
    {
      var k: nat, s := i - first, e.sched.seqs[i];
      IdleTracks(w, e, i);
      Shorter(w, s);
      assert Later(Start(first, requests, k), e.sched.seqs[first + k]);
      LaterStart(first, requests, k, s);
      NotEmpty(w.c, s);
      assert AnswerFits(w, first, requests, k);
      NumBlocksMono(|s.tokens|, |requests[k].prompt| + |Answer(w, first + k + 1, requests[k].prompt, requests[k].sampling)| - 1, w.c.blockSize);
    }
  }

  lemma NotEmpty(c: Config, s: SeqState)
    requires RequestOk(c, s)
    ensures 1 <= s.promptSize <= |s.tokens|
  {
  }

  // ---------------------------------------------------------------- exactly when

  /** What the loop of generate keeps about room. */
  ghost predicate Roomy(w: World, e: State, first: nat) {
    NoCollision(w.c, e.sched.pool.hashed) ==> Fitted(w.c, e.sched.seqs, first)
  }

  lemma RoomyStep(w: World, e: State, first: nat)
    requires EngineInv(w, e) && e.phase.Idle? && Step(w, e).0 == Success && RightUnlessCollision(w, e) && Roomy(w, e, first)
    ensures Roomy(w, Step(w, e).1, first)
  {
    hide EngineInv, Step, Fitted, NoCollision, RightUnlessCollision;
    if NoCollision(w.c, Step(w, e).1.sched.pool.hashed) {
      StepLater(w, e);
      FewerCollide(w.c, e.sched.pool.hashed, Step(w, e).1.sched.pool.hashed);
      StepFitted(w, e, first);
    }
  }

  /** Whether it succeeds or not, a step only adds to the prefixes that were hashed. */
  lemma StepHashes(w: World, e: State)
    requires EngineInv(w, e) && e.phase.Idle?
    ensures e.sched.pool.hashed <= Step(w, e).1.sched.pool.hashed
  {
    assert WellFormed(e.sched);
    hide EngineInv, SchedulePhase, RunPhase, FinishPhase, SameText, OnlyRngs, AllAdvanced, Collect, ItemsInRange, WellFormed, RunResult, CanRun;
    SchedulePhaseOk(w, e);
    var (s1, e1) := SchedulePhase(w, e);
    if s1 == Success && e1.phase.Scheduled? {
      RunPhaseResult(w, e1);
      if RunPhase(w, e1).0 == Success {
        RunPhaseOk(w, e1);
        FinishPhaseOk(w, RunPhase(w, e1).1);
      }
    }
  }

  /** A step of generate that fails, although no chain hashes collided, does so for want of room. */
  lemma FailureNeedsRoom(w: World, e: State, first: nat, requests: seq<Request>, results: seq<Result>)
    requires Going(w, e, first, requests, results) && Limits(w) && RightUnlessCollision(w, e)
    requires Step(w, e).0.Failure? && NoCollision(w.c, Step(w, e).1.sched.pool.hashed)
    ensures Step(w, e).0 == Failure(PromptNeedsTooManyBlocks) && w.Valid() && !AnswersFit(w, first, requests)
  {
    hide EngineInv, Served, Pending, AnswersFit, Limits, Step, NoCollision, Right, Fits;
    ValidWorld(w, e);
    StepOk(w, e);
    StepHashes(w, e);
    FewerCollide(w.c, e.sched.pool.hashed, Step(w, e).1.sched.pool.hashed);
    if AnswersFit(w, first, requests) {
      GoingFits(w, e, first, requests, results);
      StepFits(w, e);
    }
  }

  /** And when generate ends well, every answer had room. */
  lemma DoneFitted(w: World, e: State, first: nat, requests: seq<Request>, results: seq<Result>)
    requires Going(w, e, first, requests, results) && IsFinished(e.sched) && RightUnlessCollision(w, e) && Roomy(w, e, first)
    requires NoCollision(w.c, e.sched.pool.hashed)
    ensures w.Valid() && AnswersFit(w, first, requests)
  {
    hide EngineInv, Served, NumBlocks, Right, Track, RequestOk, Answer, NoCollision, SchedulerSpec.IsFinished;
    ValidWorld(w, e);
    AllFinished(w, e);
    forall k: nat | k < |requests| && requests[k].prompt != [] ensures AnswerFits(w, first, requests, k) {
      var s := e.sched.seqs[first + k];
      IdleTracks(w, e, first + k);
      FinishedLength(w, s);
      assert Later(Start(first, requests, k), e.sched.seqs[first + k]);
      LaterStart(first, requests, k, s);
    }
  }

  /** When end tokens are ignored the answer has max_tokens tokens, so whether it fits can be told before
      the call. */
  lemma FitsIgnoringEos(w: World, first: nat, requests: seq<Request>)
    requires w.Valid() && CheckAll(w.c, requests) == Success
    requires forall k: nat :: k < |requests| ==> requests[k].sampling.ignoreEos
    ensures AnswersFit(w, first, requests) <==> AllFit(w.c, requests)
  {
    hide NumBlocks, CheckAll, AnswerFits;
    forall k: nat | k < |requests|
      ensures requests[k].prompt != [] && requests[k].sampling.maxTokens > 0
      ensures AnswerFits(w, first, requests, k) <==>
                NumBlocks(|requests[k].prompt| + requests[k].sampling.maxTokens - 1, w.c.blockSize) <= w.c.numKvBlocks
    {
      CheckAllAt(w.c, requests, k);
      FitsWhole(w, first, requests, k);
    }
    if AnswersFit(w, first, requests) {
      forall k | 0 <= k < |requests| && |requests[k].prompt| > 0 && requests[k].sampling.maxTokens > 0
        ensures NumBlocks(|requests[k].prompt| + requests[k].sampling.maxTokens - 1, w.c.blockSize) <= w.c.numKvBlocks
      {
        assert AnswerFits(w, first, requests, k);
      }
    }
  }

  lemma FitsWhole(w: World, first: nat, requests: seq<Request>, k: nat)
    requires w.Valid() && k < |requests| && requests[k].sampling.ignoreEos
    requires CheckRequest(w.c, requests[k].prompt, requests[k].sampling) == Success
    ensures requests[k].prompt != [] && requests[k].sampling.maxTokens > 0
    ensures AnswerFits(w, first, requests, k) <==>
              NumBlocks(|requests[k].prompt| + requests[k].sampling.maxTokens - 1, w.c.blockSize) <= w.c.numKvBlocks
  {
    hide NumBlocks, Answer;
    WholeAnswer(w, first + k + 1, requests[k].prompt, requests[k].sampling);
  }

  lemma WholeAnswer(w: World, id: nat, prompt: seq<Token>, sampling: Sampling)
    requires w.Valid() && prompt != [] && sampling.ignoreEos && sampling.maxTokens > 0
    ensures |Answer(w, id, prompt, sampling)| == sampling.maxTokens
  {
    CompleteStops(w, prompt, |prompt|, sampling, NewSequence(id, prompt, sampling).rng);
    hide Generation.Complete;
  }

  // ---------------------------------------------------------------- a request that fails

  /** Alone in the engine, an accepted request whose prompt is larger than the pool makes the next step
      fail. */
  lemma TooLargeFails(w: World, e: State, prompt: seq<Token>, sampling: Sampling)
    requires EngineInv(w, e) && e.phase.Idle? && IsFinished(e.sched) && CheckRequest(w.c, prompt, sampling) == Success
    requires NumBlocks(|prompt|, w.c.blockSize) > w.c.numKvBlocks
    ensures Arrive(w, e, prompt, sampling).0 == Success && EngineInv(w, Arrive(w, e, prompt, sampling).1)
    ensures Step(w, Arrive(w, e, prompt, sampling).1).0 == Failure(PromptNeedsTooManyBlocks)
  {
    var e' := Arrive(w, e, prompt, sampling).1;
    ArriveOk(w, e, prompt, sampling);
    FinishedFreesAll(w, e);
    var i := |e.sched.seqs|;
    assert e'.sched.waiting == [i] && e'.sched.pool == e.sched.pool;
    assert WellFormed(e'.sched);
    NobodyHolds(w, e);
    hide EngineInv, CheckRequest, NumBlocks, Arrive, WellFormed;
    LonePrompt(w.c, e'.sched, i);
    FailedSchedule(w, e');
  }

  lemma NobodyHolds(w: World, e: State)
    requires EngineInv(w, e) && IsFinished(e.sched)
    ensures |e.sched.pool.blocks| == w.c.numKvBlocks && forall b: nat :: b < |e.sched.pool.blocks| ==> e.sched.pool.blocks[b].refCount == 0
  {
    hide TablesOk, RequestsOk, CacheOk, Matches, TokensFit, PlanOk, Numbered, FreeOk, IndexOk, OriginsOk;
    forall i: nat | i < |e.sched.seqs| ensures e.sched.seqs[i].table == [] {
      assert SeqOk(w.c, e.sched.seqs[i], RoleOf(e.sched, i));
    }
    forall b: nat | b < |e.sched.pool.blocks| ensures e.sched.pool.blocks[b].refCount == 0 {
      OccEmpty(e.sched.seqs, b);
    }
  }

  lemma FailedSchedule(w: World, e: State)
    requires EngineInv(w, e) && e.phase.Idle? && WellFormed(e.sched) && Schedule(w.c, e.sched).0.Failure?
    ensures Step(w, e).0 == Schedule(w.c, e.sched).0
  {
    hide EngineInv, Schedule, WellFormed;
  }

  /** schedule meets a lone waiting sequence that needs more than all blocks. */
  lemma LonePrompt(c: Config, st: Sched, i: nat)
    requires WellFormed(st) && st.waiting == [i] && i < |st.seqs| && st.seqs[i].table == []
    requires |st.pool.free| <= |st.pool.blocks| < NumBlocks(|st.seqs[i].tokens|, c.blockSize)
    requires forall b: nat :: b < |st.pool.blocks| ==> st.pool.blocks[b].refCount == 0
    ensures Schedule(c, st).0 == Failure(PromptNeedsTooManyBlocks)
  {
    var tokens := st.seqs[i].tokens;
    var run := CanAllocate(c, st.pool, tokens).1;
    CanAllocateMeaning(c, st.pool, tokens);
    NoneInUse(c, st.pool, tokens, run);
    hide NumBlocks, CanAllocate, Allocate, InUse, Hit, WellFormed;
    assert Admit(c, st, i) == (Some(Failure(PromptNeedsTooManyBlocks)), st);
    assert Prefill(c, st, [], 0).0 == Failure(PromptNeedsTooManyBlocks);
  }

  lemma {:induction false} NoneInUse(c: Config, p: Pool, tokens: seq<Token>, n: nat)
    requires InRange(p) && forall i: nat :: i < n ==> Hit(c, p, tokens, i)
    requires forall b: nat :: b < |p.blocks| ==> p.blocks[b].refCount == 0
    ensures InUse(c, p, tokens, n) == 0
  {
    if n > 0 {
      NoneInUse(c, p, tokens, n - 1);
      assert Hit(c, p, tokens, n - 1);
    }
  }

  /** In every configuration whose context is longer than its pool some request is accepted and then fails:
      a prompt of one token more than the pool holds, and a single token to generate. */
  lemma AcceptedThenFails(w: World, e: State)
    requires Initial(w, e) && w.c.numKvBlocks * w.c.blockSize < w.c.maxModelLen
    ensures EngineInv(w, e) && 0 <= w.c.numKvBlocks * w.c.blockSize
    ensures var prompt := seq(w.c.numKvBlocks * w.c.blockSize + 1, j => 0);
      var sampling := Sampling(1, 0.0, 1.0, true, 0);
      && CheckRequest(w.c, prompt, sampling) == Success
      && EngineInv(w, Arrive(w, e, prompt, sampling).1)
      && Step(w, Arrive(w, e, prompt, sampling).1).0 == Failure(PromptNeedsTooManyBlocks)
  {
    InitialOk(w, e);
    MulMono(0, w.c.numKvBlocks, w.c.blockSize);
    var n := w.c.numKvBlocks * w.c.blockSize;
    var prompt := seq(n + 1, j => 0);
    DivUnique(n, w.c.numKvBlocks, w.c.blockSize);
    NumBlocksSucc(n, w.c.blockSize);
    var sampling := Sampling(1, 0.0, 1.0, true, 0);
    assert CheckRequest(w.c, prompt, sampling) == Success;
    hide EngineInv, CheckRequest, Arrive, Step;
    TooLargeFails(w, e, prompt, sampling);
  }
}
