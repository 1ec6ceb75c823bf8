/** Why generate ends: every step with work to do lowers a measure, and with enough capacity no step
    fails. */
module ProgressProofs {
  import opened Common
  import opened Blocks
  import opened Sequences
  import opened BlockPool
  import opened AllocationProofs
  import opened SchedulerSpec
  import opened SchedulerProofs
  import opened PostprocessProofs
  import opened ScheduleProofs
  import opened Generation
  import opened EngineSpec
  import opened RunPlanProofs
  import opened RequestProofs
  import opened BatchProofs
  import opened Engine
  import opened EngineProofs
  import opened StepProofs

  // ---------------------------------------------------------------- tokens still allowed

  /** How many tokens a request may still be given. */
  ghost function Left(s: SeqState): nat {
    if s.status == Finished then 0
    else if s.promptSize + s.sampling.maxTokens > |s.tokens| then s.promptSize + s.sampling.maxTokens - |s.tokens|
    else 0
  }

  ghost function TotalLeft(seqs: seq<SeqState>): nat {
    if seqs == [] then 0 else TotalLeft(seqs[..|seqs| - 1]) + Left(seqs[|seqs| - 1])
  }

  lemma {:induction false} TotalLeftMono(a: seq<SeqState>, b: seq<SeqState>)
    requires |a| == |b| && forall i: nat :: i < |a| ==> Left(b[i]) <= Left(a[i])
    ensures TotalLeft(b) <= TotalLeft(a)
    ensures (exists i: nat :: i < |a| && Left(b[i]) < Left(a[i])) ==> TotalLeft(b) < TotalLeft(a)
    decreases |a|
  {
    hide Left;
    if a != [] {
      var n := |a| - 1;
      assert forall i: nat :: i < n ==> a[..n][i] == a[i] && b[..n][i] == b[i];
      TotalLeftMono(a[..n], b[..n]);
      if i: nat :| i < |a| && Left(b[i]) < Left(a[i]) {
        if i < n {
          assert Left(b[..n][i]) < Left(a[..n][i]);
        }
      }
    }
  }

  lemma LeftSame(a: seq<SeqState>, b: seq<SeqState>)
    requires SameText(a, b) || OnlyRngs(a, b)
    ensures TotalLeft(b) <= TotalLeft(a)
  {
    forall i: nat | i < |a| ensures Left(b[i]) <= Left(a[i]) {
      assert SameText(a, b) ==> SameRequest(a[i], b[i]);
      assert OnlyRngs(a, b) ==> OnlyRng(a[i], b[i]);
    }
    TotalLeftMono(a, b);
  }

  lemma AdvancedLeft(s: SeqState, t: SeqState, token: Token, isEos: Token -> bool)
    requires Advanced(s, t, token, isEos) && s.status != Finished
    ensures Left(t) <= Left(s)
    ensures Computed(s) && Left(s) > 0 ==> Left(t) < Left(s)
  {
  }

  lemma UnfinishedLeft(c: Config, s: SeqState)
    requires RequestOk(c, s) && s.status != Finished
    ensures Left(s) > 0
  {
  }

  /** A step that completes some sequence uses up a token. */
  lemma AllAdvancedLeft(w: World, e: State, seqs': seq<SeqState>)
    requires EngineInv(w, e) && e.phase.Ran?
    requires AllAdvanced(e.sched.seqs, seqs', e.phase.plan.items, e.phase.sampled, w.isEos)
    ensures TotalLeft(seqs') <= TotalLeft(e.sched.seqs)
    ensures forall k: nat :: k < |e.phase.plan.items| ==> e.phase.plan.items[k].who < |e.sched.seqs|
    ensures (exists k: nat :: k < |e.phase.plan.items| && Computed(e.sched.seqs[e.phase.plan.items[k].who])) ==>
              TotalLeft(seqs') < TotalLeft(e.sched.seqs)
  {
    var seqs, items, sampled := e.sched.seqs, e.phase.plan.items, e.phase.sampled;
    assert Inv(w.c, e.sched) && Matches(seqs, items) && RequestsOk(w.c, seqs);
    hide EngineInv, Inv, Matches, Left, Advanced, Computed, RequestOk;
    forall i: nat | i < |seqs| ensures Left(seqs'[i]) <= Left(seqs[i]) {
      if Planned(items, i) {
        var k: nat :| k < |items| && items[k].who == i;
        PlannedUnfinishedSeq(w.c, e.sched, items, k);
        AdvancedLeft(seqs[i], seqs'[i], sampled[k], w.isEos);
      }
    }
    if k: nat :| k < |items| && items[k].who < |seqs| && Computed(seqs[items[k].who]) {
      var i := items[k].who;
      PlannedUnfinishedSeq(w.c, e.sched, items, k);
      UnfinishedLeft(w.c, seqs[i]);
      AdvancedLeft(seqs[i], seqs'[i], sampled[k], w.isEos);
      assert Left(seqs'[i]) < Left(seqs[i]);
    }
    TotalLeftMono(seqs, seqs');
  }

  // ---------------------------------------------------------------- the measure

  /** First the tokens still allowed, then whether the waiting front holds blocks, then what it still
      has to compute. */
  ghost predicate Lower(a: State, b: State)
    requires WellFormed(a.sched) && WellFormed(b.sched)
  {
    || TotalLeft(b.sched.seqs) < TotalLeft(a.sched.seqs)
    || (TotalLeft(b.sched.seqs) <= TotalLeft(a.sched.seqs) &&
        (|| FrontCost(b.sched).0 < FrontCost(a.sched).0
         || (FrontCost(b.sched).0 == FrontCost(a.sched).0 && FrontCost(b.sched).1 < FrontCost(a.sched).1)))
  }

  /** An incomplete planned sequence is the waiting front. */
  lemma IncompleteIsFront(c: Config, st: Sched, items: seq<Item>, k: nat)
    requires Inv(c, st) && Matches(st.seqs, items) && k < |items|
    requires items[k].who < |st.seqs| && !Computed(st.seqs[items[k].who])
    ensures st.waiting != [] && st.waiting[0] == items[k].who && st.seqs[items[k].who].table != []
    ensures st.seqs[items[k].who].scheduled > 0 && items[k].start == st.seqs[items[k].who].cached
  {
    hide BlocksIdle, QueuesOk;
    var i := items[k].who;
    assert ItemOk(st.seqs, items[k]);
    assert SeqOk(c, st.seqs[i], RoleOf(st, i));
  }

  /** The front of the run state before and after postprocess, when it was only part of a prompt. */
  lemma FrontMoves(w: World, e2: State, e': State)
    requires EngineInv(w, e2) && e2.phase.Ran? && e2.phase.plan.items != [] && e2.phase.plan.items[0].who < |e2.sched.seqs|
    requires !Computed(e2.sched.seqs[e2.phase.plan.items[0].who]) && WellFormed(e'.sched) && e'.sched.waiting == e2.sched.waiting
    requires AllAdvanced(e2.sched.seqs, e'.sched.seqs, e2.phase.plan.items, e2.phase.sampled, w.isEos)
    ensures e'.sched.waiting != [] && e'.sched.waiting[0] == e2.phase.plan.items[0].who && FrontHolds(e'.sched)
    ensures var i := e2.phase.plan.items[0].who;
      FrontCost(e'.sched) == (0, |e2.sched.seqs[i].tokens| - e2.sched.seqs[i].cached - e2.sched.seqs[i].scheduled)
      && e2.sched.seqs[i].scheduled > 0 && e2.phase.plan.items[0].start == e2.sched.seqs[i].cached
  {
    var items := e2.phase.plan.items;
    var i := items[0].who;
    assert Inv(w.c, e2.sched) && Matches(e2.sched.seqs, items);
    hide EngineInv, Inv, Matches, WellFormed;
    IncompleteIsFront(w.c, e2.sched, items, 0);
    assert Advanced(e2.sched.seqs[i], e'.sched.seqs[i], e2.phase.sampled[0], w.isEos);
  }

  /** A front that held blocks before the step is the sequence that moved. */
  lemma FrontBefore(w: World, e: State, e1: State)
    requires EngineInv(w, e) && e.phase.Idle? && (Success, e1) == SchedulePhase(w, e) && e1.phase.Scheduled?
    requires SameText(e.sched.seqs, e1.sched.seqs) && FrontHolds(e.sched)
    ensures var i := e.sched.waiting[0];
      && e1.phase.plan.items != [] && e1.phase.plan.items[0].who == i && e1.phase.plan.items[0].start == e.sched.seqs[i].cached
      && i < |e1.sched.seqs| && e1.sched.seqs[i].tokens == e.sched.seqs[i].tokens
  {
    assert Inv(w.c, e.sched) && WellFormed(e.sched) && Quiet(e.sched.seqs);
    var i := e.sched.waiting[0];
    hide EngineInv, Inv, Quiet, Schedule;
    FrontFirst(w.c, e.sched);
    assert SameRequest(e.sched.seqs[i], e1.sched.seqs[i]);
  }

  lemma FirstItem(w: World, e2: State)
    requires EngineInv(w, e2) && e2.phase.Ran? && e2.phase.plan.items != []
    ensures e2.phase.plan.items[0].who < |e2.sched.seqs|
  {
    assert ItemOk(e2.sched.seqs, e2.phase.plan.items[0]);
  }

  /** Every successful step with work left makes progress: it uses up a token, or computes more of a
      prompt that keeps its blocks. Preemption, which discards cached positions, cannot undo this. */
  lemma StepProgress(w: World, e: State)
    requires EngineInv(w, e) && e.phase.Idle? && WellFormed(e.sched) && Step(w, e).0 == Success && !IsFinished(e.sched)
    ensures WellFormed(Step(w, e).1.sched) && Lower(e, Step(w, e).1)
  {
    var e' := Step(w, e).1;
    StepOk(w, e);
    assert WellFormed(e'.sched);
    PlansWork(w, e);
    var e1, e2 := StepStates(w, e);
    hide EngineInv, SchedulePhase, RunPhase, FinishPhase, Step, AllAdvanced, Collect, ItemsInRange, TotalLeft, FrontCost, FrontHolds, WellFormed, Computed;
    LeftSame(e.sched.seqs, e1.sched.seqs);
    LeftSame(e1.sched.seqs, e2.sched.seqs);
    AllAdvancedLeft(w, e2, e'.sched.seqs);
    RanPlan(w, e1, e2);
    FirstItem(w, e2);
    var items := e2.phase.plan.items;
    if !Computed(e2.sched.seqs[items[0].who]) {
      FrontMoves(w, e2, e');
      if FrontHolds(e.sched) {
        FrontBefore(w, e, e1);
        SameTokens(e1, e2, items[0].who);
      }
      CostOf(e.sched);
    } else {
      var k: nat := 0;
      assert k < |items| && Computed(e2.sched.seqs[items[k].who]);
    }
  }

  lemma CostOf(st: Sched)
    requires WellFormed(st)
    ensures FrontHolds(st) ==> st.waiting != [] && st.waiting[0] < |st.seqs|
    ensures FrontHolds(st) ==> FrontCost(st) == (0, |st.seqs[st.waiting[0]].tokens| - st.seqs[st.waiting[0]].cached)
    ensures !FrontHolds(st) ==> FrontCost(st) == (1, 0)
  {
  }

  lemma SameTokens(e1: State, e2: State, i: nat)
    requires OnlyRngs(e1.sched.seqs, e2.sched.seqs) && i < |e2.sched.seqs|
    ensures i < |e1.sched.seqs| && e2.sched.seqs[i].tokens == e1.sched.seqs[i].tokens
  {
    assert OnlyRng(e1.sched.seqs[i], e2.sched.seqs[i]);
  }

  lemma RanPlan(w: World, e1: State, e2: State)
    requires EngineInv(w, e1) && e1.phase.Scheduled? && e2.phase.Ran? && e2.phase.plan == e1.phase.plan
    ensures e2.phase.plan.items != []
  {
  }

  /** With work left, a successful schedule has a plan. */
  lemma PlansWork(w: World, e: State)
    requires EngineInv(w, e) && e.phase.Idle? && Step(w, e).0 == Success && !IsFinished(e.sched)
    ensures SchedulePhase(w, e).1.phase.Scheduled?
  {
    SchedulePhaseOk(w, e);
    assert WellFormed(e.sched) && Inv(w.c, e.sched);
    var e1 := SchedulePhase(w, e).1;
    if SchedulePhase(w, e).0 == Success && e1.phase.Idle? {
      assert Inv(w.c, e1.sched);
      hide EngineInv, SchedulePhase, RunPhase, FinishPhase, Inv, SameText;
      StillUnfinished(w.c, e.sched, e1.sched);
    }
    hide EngineInv, SchedulePhase, RunPhase, FinishPhase, Inv, SameText;
  }

  // ---------------------------------------------------------------- capacity

  /** Every unfinished request fits the pool when it has the pool to itself: its prompt and all tokens but the last
      take no more blocks than there are. */
  ghost predicate Capacity(c: Config, seqs: seq<SeqState>) {
    forall i: nat :: i < |seqs| && seqs[i].status != Finished && 1 <= seqs[i].promptSize && seqs[i].sampling.maxTokens > 0 ==> Demand(c, seqs[i]) <= c.numKvBlocks
  }

  lemma CapacityFits(c: Config, seqs: seq<SeqState>)
    requires Capacity(c, seqs) && RequestsOk(c, seqs)
    ensures Fits(c, seqs)
  {
    hide Demand, NumBlocks;
    forall i: nat | i < |seqs| && seqs[i].status != Finished ensures NumBlocks(|seqs[i].tokens|, c.blockSize) <= c.numKvBlocks {
      assert RequestOk(c, seqs[i]);
      DemandCovers(c, seqs[i]);
    }
  }

  /** A step fails only when some unfinished request has outgrown the pool. */
  lemma StepFits(w: World, e: State)
    requires EngineInv(w, e) && e.phase.Idle? && Limits(w) && Fits(w.c, e.sched.seqs)
    ensures Step(w, e).0 == Success
  {
    assert WellFormed(e.sched) && Inv(w.c, e.sched) && Quiet(e.sched.seqs);
    hide Inv, Quiet, Fits, RequestsOk, Schedule, PlanOk, Numbered, WellFormed, Limits, RunPhase, FinishPhase, SameText;
    NoDeadlock(w.c, e.sched);
    SchedulePhaseOk(w, e);
    var (s1, e1) := SchedulePhase(w, e);
    if e1.phase.Scheduled? {
      hide EngineInv, SchedulePhase;
      RunPhaseSucceeds(w, e1);
      RunPhaseOk(w, e1);
      FinishPhaseOk(w, RunPhase(w, e1).1);
    }
  }

  /** With the limits and the capacity, no step fails. */
  lemma StepSucceeds(w: World, e: State)
    requires EngineInv(w, e) && e.phase.Idle? && Limits(w) && Capacity(w.c, e.sched.seqs)
    ensures Step(w, e).0 == Success
  {
    assert RequestsOk(w.c, e.sched.seqs);
    hide EngineInv, Step, Fits, Capacity, RequestsOk;
    CapacityFits(w.c, e.sched.seqs);
    StepFits(w, e);
  }

  lemma StepLater(w: World, e: State)
    requires EngineInv(w, e) && e.phase.Idle? && Step(w, e).0 == Success
    ensures AllLater(e.sched.seqs, Step(w, e).1.sched.seqs) && |Step(w, e).1.sched.seqs| == |e.sched.seqs|
    ensures e.sched.pool.hashed <= Step(w, e).1.sched.pool.hashed
  {
    var e' := Step(w, e).1;
    assert WellFormed(e.sched);
    hide EngineInv, SchedulePhase, RunPhase, FinishPhase, SameText, OnlyRngs, AllAdvanced, Collect, ItemsInRange, AllLater, WellFormed;
    SchedulePhaseOk(w, e);
    SameLength(e.sched.seqs, SchedulePhase(w, e).1.sched.seqs);
    SameTextLater(e.sched.seqs, SchedulePhase(w, e).1.sched.seqs);
    if SchedulePhase(w, e).1.phase.Scheduled? {
      var e1, e2 := StepStates(w, e);
      SampledLength(e1.sched.seqs, e2.sched.seqs);
      OnlyRngsLater(e1.sched.seqs, e2.sched.seqs);
      RanLater(w, e2, e'.sched.seqs);
      LaterTrans(e.sched.seqs, e1.sched.seqs, e2.sched.seqs);
      LaterTrans(e.sched.seqs, e2.sched.seqs, e'.sched.seqs);
    }
  }

  lemma SameLength(a: seq<SeqState>, b: seq<SeqState>)
    requires SameText(a, b)
    ensures |a| == |b|
  {
  }

  lemma RanLater(w: World, e: State, seqs': seq<SeqState>)
    requires EngineInv(w, e) && e.phase.Ran?
    requires AllAdvanced(e.sched.seqs, seqs', e.phase.plan.items, e.phase.sampled, w.isEos)
    ensures AllLater(e.sched.seqs, seqs') && |seqs'| == |e.sched.seqs|
  {
    assert Inv(w.c, e.sched) && Matches(e.sched.seqs, e.phase.plan.items);
    hide EngineInv, Inv, Matches, AllLater;
    AdvancedLater(w, e.sched, seqs', e.phase.plan.items, e.phase.sampled);
  }
}
