/** The class of engine/src/llm_engine.cpp: it drives the scheduler and the runner. Every call is proved
    to move the engine as the phases of Engine do. */
module LLMEngines {
  import opened Common
  import opened Blocks
  import opened Sequences
  import opened BlockPool
  import opened PrefixCache
  import opened BlockManagers
  import opened SchedulerSpec
  import opened Schedulers
  import opened SchedulerProofs
  import opened PostprocessProofs
  import opened ScheduleProofs
  import opened Attention
  import opened Transformer
  import opened PagedBatch
  import opened PagedRunners
  import opened TokenSampling
  import opened Generation
  import opened EngineSpec
  import opened RunPlanProofs
  import opened RequestProofs
  import opened BatchProofs
  import opened BatchBuilding
  import opened Engine
  import opened EngineProofs
  import opened StepProofs
  import opened ProgressProofs
  import opened ResultProofs
  import opened GenerateProofs
  import opened CapacityProofs

  /** An engine whose capacities are not positive is never initialised, so what its scheduler is built
      with does not matter. */
  function Usable(config: RawConfig): Config {
    if config.Positive() then config else Config(1, 1, 1, 1, 1, config.computeHash)
  }

  /** A length limit as the program compares it: converted to an unsigned 64-bit number. */
  function AsSize(n: int): int {
    if n < 0 then n + 0x1_0000_0000_0000_0000 else n
  }

  class LLMEngine {
    const config: RawConfig
    const runner: PagedRunner
    const scheduler: Scheduler
    const sampler: Sampler
    var initialized: bool
    var nextRequestId: nat

    ghost function W(): World {
      World(Usable(config), runner.m, runner.contextLen, runner.isEos, sampler)
    }

    ghost function In(phase: Phase): State
      reads this, scheduler, scheduler.manager, scheduler.all, runner, runner.keys, runner.values
    {
      State(scheduler.Abs(), runner.Cached(), phase)
    }

    /** The parts fit together. */
    ghost predicate Joined()
      reads this, scheduler, scheduler.manager, scheduler.all, runner
    {
      && W().Valid() && runner.Valid() && scheduler.Valid() && scheduler.c == Usable(config)
      && nextRequestId == |scheduler.all| + 1
    }

    /** And the engine is ready for the next call, with everything right unless chain hashes collided. */
    ghost predicate Valid()
      reads this, scheduler, scheduler.manager, scheduler.all, runner, runner.keys, runner.values
    {
      && Joined()
      && if initialized then config.Positive() && runner.For(W()) && EngineInv(W(), In(Idle)) && RightUnlessCollision(W(), In(Idle))
         else scheduler.Abs() == EmptySched(Usable(config))
    }

    constructor (runner: PagedRunner, config: RawConfig, sampler: Sampler)
      requires runner.Valid() && sampler.Valid() && forall h: Vec :: runner.m.logits(h) != []
      ensures Valid() && !initialized && this.runner == runner && this.config == config && this.sampler == sampler
      ensures fresh(scheduler) && fresh(scheduler.manager) && scheduler.all == []
    {
      this.runner, this.config, this.sampler := runner, config, sampler;
      scheduler := new Scheduler(Usable(config));
      initialized, nextRequestId := false, 1;
      new;
      runner.MValid();
    }

    /** Nothing can be done before this succeeds; it succeeds at most once. */
    method Init() returns (status: Status)
      requires Valid()
      modifies this`initialized, runner
      ensures Valid()
      ensures status ==
        if !config.Positive() then Failure(NonPositiveCapacity)
        else if config.blockSize > runner.contextLen then Failure(BadCacheShape)
        else if old(runner.g.numBlocks) > 0 then Failure(AlreadyConfigured) else Success
      ensures initialized == (old(initialized) || status == Success)
      ensures status == Success ==> fresh(runner.keys) && fresh(runner.values)
      ensures status.Failure? ==> unchanged(runner)
    {
      if config.maxModelLen <= 0 || config.maxNumSeqs <= 0 || config.maxNumBatchedTokens <= 0 || config.blockSize <= 0 || config.numKvBlocks <= 0 {
        return Failure(NonPositiveCapacity);
      }
      hide EngineInv, RightUnlessCollision, Scheduler.Valid, Scheduler.Abs;
      status := runner.Configure(config.numKvBlocks, config.blockSize, config.maxNumBatchedTokens);
      if status.Failure? {
        return;
      }
      initialized := true;
      runner.ViewOk(W());
      InitialOk(W(), In(Idle));
    }

    method IsFinished() returns (finished: bool)
      requires Joined()
      ensures finished == SchedulerSpec.IsFinished(scheduler.Abs())
    {
      finished := scheduler.IsFinished();
    }

    method AddRequest(prompt: seq<Token>, sampling: Sampling) returns (status: Status, id: nat)
      requires Valid()
      modifies this`nextRequestId, scheduler
      ensures Valid() && initialized == old(initialized)
      ensures status == if !initialized then Failure(NotInitialized) else CheckRequest(W().c, prompt, sampling)
      ensures initialized ==> (status == Success <==> Acceptable(config.maxModelLen, prompt, sampling))
      ensures status == Success ==> In(Idle) == Arrive(W(), old(In(Idle)), prompt, sampling).1 && id == old(nextRequestId)
      ensures status == Success ==> |scheduler.all| == |old(scheduler.all)| + 1 && old(scheduler.all) <= scheduler.all
      ensures status == Success ==> fresh(scheduler.all[|old(scheduler.all)|])
      ensures status.Failure? ==> In(Idle) == old(In(Idle)) && scheduler.all == old(scheduler.all)
    {
      hide EngineInv, RightUnlessCollision, Scheduler.Valid, Scheduler.Abs, PagedRunner.Cached;
      id := 0;
      if !initialized {
        return Failure(NotInitialized), id;
      }
      status := Validate(sampling);
      if status.Failure? {
        return;
      }
      if sampling.maxTokens == 0 {
        return Failure(ZeroMaxTokens), id;
      }
      if prompt == [] {
        return Failure(EmptyPrompt), id;
      }
      if |prompt| > config.maxModelLen {
        return Failure(PromptTooLong), id;
      }
      var maxCompletion := config.maxModelLen - |prompt| + 1;
      if sampling.maxTokens > maxCompletion {
        return Failure(CompletionTooLong), id;
      }
      id := nextRequestId;
      ghost var e := In(Idle);
      assert |e.sched.seqs| == |scheduler.all| by {
        scheduler.Sizes();
      }
      ArriveOk(W(), e, prompt, sampling);
      MoveOk(W(), e, Arrival(prompt, sampling));
      nextRequestId := nextRequestId + 1;
      CheckRequestMeaning(W().c, prompt, sampling);
      var s := new Sequence(id, prompt, sampling, config.blockSize);
      status := scheduler.Add(s);
      assert In(Idle) == Arrive(W(), e, prompt, sampling).1;
    }

    // -------------------------------------------------------------- the batch

    /** The rows of one planned sequence join the batch. */
    method AddRows(item: ScheduledSequence, rows: seq<Row>, ghost seqs: seq<SeqState>, ghost items: seq<Item>, ghost k: nat)
      returns (rows': seq<Row>)
      requires scheduler.Valid() && item.sequence in scheduler.names && seqs == scheduler.Abs().seqs
      requires PlacesOk(seqs, Places(items)) && k < |items|
      requires items[k] == Item(scheduler.names[item.sequence], item.start, item.count)
      requires PlacesOk(seqs, Places(items[..k])) && rows == BatchRows(seqs, Places(items[..k]))
      ensures PlacesOk(seqs, Places(items[..k + 1])) && rows' == BatchRows(seqs, Places(items[..k + 1]))
      ensures |rows'| == Total(items[..k + 1])
    {
      hide *;
      var s := item.sequence;
      scheduler.At(s);
      scheduler.AtTable(s);
      RowsNone(seqs, items, k);
      RowsAll(seqs, items, k);
      rows' := rows;
      var n := 0;
      while n < item.count
        invariant 0 <= n <= item.count
        invariant PlacesOk(seqs, RowsSoFar(seqs, items, k, n)) && rows' == BatchRows(seqs, RowsSoFar(seqs, items, k, n))
      {
        RowNext(seqs, items, k, n);
        rows' := rows' + [Row(s.tokens[item.start + n], item.start + n, s.table)];
        RowIs(seqs[items[k].who], item.start + n);
        n := n + 1;
      }
    }

    lemma RowIs(s: SeqState, pos: nat)
      requires pos < |s.tokens|
      ensures RowOf(s, pos) == Row(s.tokens[pos], pos, s.table)
    {
    }

    /** The batch of a plan: its rows, which of them are sampled, and for which items. */
    method BuildBatch(plan: BatchPlan, ghost seqs: seq<SeqState>, ghost items: seq<Item>)
      returns (rows: seq<Row>, sampleRows: seq<nat>, picks: seq<nat>)
      requires scheduler.Valid() && ItemsNamed(scheduler.names, plan.items)
      requires seqs == scheduler.Abs().seqs && items == ItemsOf(scheduler.names, plan.items)
      requires PlacesOk(seqs, Places(items)) && forall k :: 0 <= k < |items| ==> items[k].who < |seqs| && items[k].count > 0
      ensures rows == BatchRows(seqs, Places(items)) && sampleRows == SampleRows(seqs, plan.isPrefill, items)
      ensures WhoOk(seqs, items) && Picks(seqs, plan.isPrefill, items, |items|, sampleRows, picks)
    {
      hide Scheduler.Valid, Scheduler.Abs, PlacesOk, Places, ItemsOf, Picks, BatchRows, SampleRows, Total;
      rows, sampleRows, picks := [], [], [];
      NothingBuilt(seqs, plan.isPrefill, items);
      var k := 0;
      while k < |plan.items|
        invariant 0 <= k <= |items| && |rows| == Total(items[..k])
        invariant PlacesOk(seqs, Places(items[..k])) && rows == BatchRows(seqs, Places(items[..k]))
        invariant Picks(seqs, plan.isPrefill, items, k, sampleRows, picks)
        invariant sampleRows == SampleRows(seqs, plan.isPrefill, items[..k])
      {
        var item := plan.items[k];
        scheduler.AtTable(item.sequence);
        var end := item.start + item.count;
        rows := AddRows(item, rows, seqs, items, k);
        SampleRowsSnoc(seqs, plan.isPrefill, items, k);
        PicksSnoc(seqs, plan.isPrefill, items, k, sampleRows, picks, |rows| - 1);
        if !plan.isPrefill || end == |item.sequence.tokens| {
          sampleRows := sampleRows + [|rows| - 1];
          picks := picks + [k];
        }
        k := k + 1;
      }
      assert items[..k] == items;
    }

    // -------------------------------------------------------------- sampling

    /** LLMEngine::sample. */
    method SampleOne(s: Sequence, logits: Vec, ghost h: Vec) returns (status: Status, token: Token)
      requires sampler.Valid() && logits == W().m.logits(h)
      modifies s`rng
      ensures status == if logits == [] then Failure(EmptyLogits) else Success
      ensures status == Success ==> (token, s.V()) == SampleItem(W(), old(s.V()), true, h)
      ensures status == Success && s.sampling.temperature <= 0.000001 ==>
                && s.rng == old(s.rng) && 0 <= token < |logits|
                && forall j: nat :: j < |logits| ==> logits[j] <= logits[token] && (j < token ==> logits[j] < logits[token])
      ensures status == Success && s.sampling.temperature > 0.000001 ==>
                exists weights: seq<real> ::
                  && DrawnWeights(sampler, logits, s.sampling.temperature, s.sampling.topP, weights)
                  && token == sampler.pick(weights, old(s.rng)).0 && s.rng == sampler.pick(weights, old(s.rng)).1
    {
      hide DrawnWeights;
      if logits == [] {
        return Failure(EmptyLogits), -1;
      }
      status := Success;
      if s.sampling.temperature <= 0.000001 {
        token := ArgMax(logits);
      } else {
        var weights := CutWeights(sampler, logits, s.sampling.temperature, s.sampling.topP);
        var (drawn, rng) := sampler.pick(weights, s.rng);
        token := drawn;
        s.rng := rng;
      }
    }

    /** The sampling loop of step: a token for every picked item, -1 for the others. */
    method SampleAll(plan: BatchPlan, sampleRows: seq<nat>, picks: seq<nat>, logits: seq<Vec>, ghost seqs: seq<SeqState>, ghost items: seq<Item>, ghost hs: seq<Vec>)
      returns (status: Status, sampled: seq<Token>)
      requires W().Valid() && scheduler.Valid() && ItemsNamed(scheduler.names, plan.items)
      requires seqs == scheduler.Abs().seqs && items == ItemsOf(scheduler.names, plan.items)
      requires WhoOk(seqs, items) && Picks(seqs, plan.isPrefill, items, |items|, sampleRows, picks)
      requires RowsCover(seqs, items, |hs|) && logits == LogitsAt(W().m, hs, sampleRows)
      modifies scheduler.all
      ensures status == Success && scheduler.Valid()
      ensures (sampled, scheduler.Abs().seqs) == SampleUpTo(W(), seqs, plan.isPrefill, items, hs, |items|)
      ensures scheduler.Abs() == old(scheduler.Abs()).(seqs := scheduler.Abs().seqs)
    {
      hide Scheduler.Valid, Scheduler.Abs, LastRow, Sampled, SampleItem, SampleUpTo, SampledFirst, ItemsOf, SchedulerSpec.Put, Sequence.V;
      sampled := seq(|plan.items|, i => -1);
      NoneSampled(W(), seqs, plan.isPrefill, items, hs, sampled);
      ghost var done := 0;
      var a := 0;
      while a < |logits|
        invariant 0 <= a <= |logits| && done == if a == 0 then 0 else picks[a - 1] + 1
        invariant scheduler.Valid() && scheduler.Abs() == old(scheduler.Abs()).(seqs := scheduler.Abs().seqs)
        invariant SampledFirst(W(), seqs, plan.isPrefill, items, hs, done, sampled, scheduler.Abs().seqs)
      {
        var pick := picks[a];
        assert Picked(seqs, plan.isPrefill, items, |items|, sampleRows[a], picks[a]);
        SkipTo(seqs, plan.isPrefill, items, hs, sampleRows, picks, a, done, pick, sampled, scheduler.Abs().seqs);
        ghost var now := scheduler.Abs();
        sampled := SampleInto(plan, pick, logits[a], seqs, items, hs, sampled);
        done := pick + 1;
        a := a + 1;
      }
      SkipTo(seqs, plan.isPrefill, items, hs, sampleRows, picks, a, done, |items|, sampled, scheduler.Abs().seqs);
      AllSampled(W(), seqs, plan.isPrefill, items, hs, sampled, scheduler.Abs().seqs);
      return Success, sampled;
    }

    /** One picked item. */
    method SampleInto(plan: BatchPlan, pick: nat, logits: Vec, ghost seqs: seq<SeqState>, ghost items: seq<Item>, ghost hs: seq<Vec>, before: seq<Token>)
      returns (sampled: seq<Token>)
      requires W().Valid() && scheduler.Valid() && ItemsNamed(scheduler.names, plan.items) && items == ItemsOf(scheduler.names, plan.items)
      requires RowsCover(seqs, items, |hs|) && WhoOk(seqs, items) && pick < |items| && Sampled(seqs, plan.isPrefill, items[pick])
      requires 0 <= LastRow(items, pick) < |hs| && logits == W().m.logits(hs[LastRow(items, pick)])
      requires SampledFirst(W(), seqs, plan.isPrefill, items, hs, pick, before, scheduler.Abs().seqs)
      modifies scheduler.all
      ensures scheduler.Valid() && scheduler.Abs() == old(scheduler.Abs()).(seqs := scheduler.Abs().seqs)
      ensures SampledFirst(W(), seqs, plan.isPrefill, items, hs, pick + 1, sampled, scheduler.Abs().seqs)
    {
      hide Scheduler.Valid, Scheduler.Abs, LastRow, Sampled, SampleItem, SampleUpTo, ItemsOf, Sequence.V;
      var s := plan.items[pick].sequence;
      ghost var h := hs[LastRow(items, pick)];
      ghost var now := scheduler.Abs();
      scheduler.At(s);
      scheduler.AtTable(s);
      var status, token := SampleOne(s, logits, h);
      scheduler.Only(s);
      sampled := before[pick := token];
      SampledOne(W(), seqs, plan.isPrefill, items, hs, pick, before, now.seqs, token, s.V());
    }

    lemma NoneSampled(w: World, seqs: seq<SeqState>, isPrefill: bool, items: seq<Item>, hs: seq<Vec>, sampled: seq<Token>)
      requires w.Valid() && RowsCover(seqs, items, |hs|) && |sampled| == |items| && forall j :: 0 <= j < |items| ==> sampled[j] == -1
      ensures SampledFirst(w, seqs, isPrefill, items, hs, 0, sampled, seqs)
    {
    }

    lemma AllSampled(w: World, seqs: seq<SeqState>, isPrefill: bool, items: seq<Item>, hs: seq<Vec>, sampled: seq<Token>, now: seq<SeqState>)
      requires w.Valid() && RowsCover(seqs, items, |hs|) && SampledFirst(w, seqs, isPrefill, items, hs, |items|, sampled, now)
      ensures (sampled, now) == SampleUpTo(w, seqs, isPrefill, items, hs, |items|)
    {
      assert sampled[..|items|] == sampled;
    }

    lemma SkipTo(seqs: seq<SeqState>, isPrefill: bool, items: seq<Item>, hs: seq<Vec>, sampleRows: seq<nat>, picks: seq<nat>, a: nat, done: nat, upTo: nat, sampled: seq<Token>, now: seq<SeqState>)
      requires W().Valid() && RowsCover(seqs, items, |hs|) && WhoOk(seqs, items) && Picks(seqs, isPrefill, items, |items|, sampleRows, picks)
      requires a <= |picks| && done == (if a == 0 then 0 else picks[a - 1] + 1) && upTo == (if a == |picks| then |items| else picks[a])
      requires SampledFirst(W(), seqs, isPrefill, items, hs, done, sampled, now)
      ensures SampledFirst(W(), seqs, isPrefill, items, hs, upTo, sampled, now)
    {
      hide LastRow, Sampled, SampledFirst;
      assert a > 0 ==> Picked(seqs, isPrefill, items, |items|, sampleRows[a - 1], picks[a - 1]);
      assert a < |picks| ==> Picked(seqs, isPrefill, items, |items|, sampleRows[a], picks[a]);
      assert done <= upTo <= |items|;
      forall j: nat | done <= j < upTo ensures !Sampled(seqs, isPrefill, items[j]) {
        NoneBetween(seqs, isPrefill, items, sampleRows, picks, a, j);
      }
      SampledSkip(W(), seqs, isPrefill, items, hs, done, upTo, sampled, now);
    }

    // -------------------------------------------------------------- the step

    /** The results of the planned sequences that have finished. */
    method CollectResults(plan: BatchPlan) returns (completed: seq<Result>)
      requires scheduler.Valid() && ItemsNamed(scheduler.names, plan.items)
      ensures forall k :: 0 <= k < |plan.items| ==> ItemsOf(scheduler.names, plan.items)[k].who < |scheduler.Abs().seqs|
      ensures completed == Collect(scheduler.Abs().seqs, ItemsOf(scheduler.names, plan.items))
    {
      hide Scheduler.Valid, Scheduler.Abs, ItemsOf, ResultOf, Sequence.V;
      ghost var seqs, items := scheduler.Abs().seqs, ItemsOf(scheduler.names, plan.items);
      forall k | 0 <= k < |items| ensures items[k].who < |seqs| {
        scheduler.AtTable(plan.items[k].sequence);
      }
      completed := [];
      var k := 0;
      while k < |plan.items|
        invariant 0 <= k <= |plan.items| && completed == Collect(seqs, items[..k])
      {
        var s := plan.items[k].sequence;
        scheduler.At(s);
        scheduler.AtTable(s);
        CollectSnoc(seqs, items, k);
        if s.status == Finished {
          var tokens := if s.promptSize <= |s.tokens| then s.tokens[s.promptSize..] else [];
          completed := completed + [Result(s.id, tokens)];
          ResultIs(s);
        }
        k := k + 1;
      }
      assert items[..k] == items;
    }

    lemma ResultIs(s: Sequence)
      ensures ResultOf(s.V()) == Result(s.id, if s.promptSize <= |s.tokens| then s.tokens[s.promptSize..] else [])
    {
    }

    /** The middle of step: the model runs the plan's rows, and the sampled items get their tokens. */
    method RunPlan(plan: BatchPlan, ghost e: State) returns (status: Status, sampled: seq<Token>)
      requires Joined() && runner.For(W()) && ItemsNamed(scheduler.names, plan.items)
      requires e == In(Scheduled(PlanOf(scheduler.names, plan))) && EngineInv(W(), e)
      modifies scheduler.all, runner.keys, runner.values
      ensures Joined() && runner.For(W()) && status == RunPhase(W(), e).0
      ensures status == Success ==> In(Ran(PlanOf(scheduler.names, plan), sampled)) == RunPhase(W(), e).1
      ensures status.Failure? ==> In(e.phase) == RunPhase(W(), e).1
    {
      hide EngineInv, RunPhase, CheckBatch, SampleUpTo, ForwardBatch, BatchRows, Places, SampleRows, RowsCover, RowsOk, PlacesOk, CacheOk,
        ItemsOk, AllOrComplete, Picks, LogitsAt, Scheduler.Valid, Scheduler.Abs, PagedRunner.Cached, PagedRunner.Valid, PagedRunner.For, ItemsOf, Total;
      RunReady(W(), e);
      RunUnroll(W(), e);
      ghost var seqs, items := e.sched.seqs, ItemsOf(scheduler.names, plan.items);
      runner.ForConfigured(W());
      var rows, sampleRows, picks := BuildBatch(plan, seqs, items);
      var logits;
      ghost var hs;
      status, logits, hs := runner.ForwardPagedBatch(W(), rows, sampleRows);
      sampled := [];
      if status.Failure? {
        return;
      }
      if |logits| != |sampleRows| {
        assert false;
      }
      assert hs == ForwardBatchHidden(W(), e);
      status, sampled := SampleAll(plan, sampleRows, picks, logits, seqs, items, hs);
    }

    /** LLMEngine::step. */
    method Step() returns (status: Status, completed: seq<Result>)
      requires Valid()
      modifies scheduler, scheduler.manager, scheduler.all, runner.keys, runner.values
      ensures Joined() && scheduler.all == old(scheduler.all)
      ensures !initialized ==> status == Failure(NotInitialized) && In(Idle) == old(In(Idle)) && completed == []
      ensures initialized ==> (status, In(StepProofs.Step(W(), old(In(Idle))).1.phase), completed) == StepProofs.Step(W(), old(In(Idle)))
      ensures initialized && status == Success ==> Valid() && (Success, In(Idle), completed) == StepProofs.Step(W(), old(In(Idle)))
    {
      hide EngineInv, RightUnlessCollision, SchedulePhase, RunPhase, FinishPhase, Collect, StepProofs.Step, SchedulerSpec.Schedule, SchedulerSpec.Postprocess,
        Scheduler.Valid, Scheduler.Abs, PagedRunner.Cached, PagedRunner.Valid, PagedRunner.For, World.Valid, WellFormed, ItemsOf, ItemsNamed;
      completed := [];
      if !initialized {
        return Failure(NotInitialized), completed;
      }
      ghost var e := In(Idle);
      StepFacts(W(), e);
      var plan;
      status, plan := scheduler.Schedule();
      ScheduleIs(W(), e, status, scheduler.Abs(), PlanOf(scheduler.names, plan));
      if status.Failure? || plan.items == [] {
        return;
      }
      ghost var e1 := In(Scheduled(PlanOf(scheduler.names, plan)));
      var sampled;
      status, sampled := RunPlan(plan, e1);
      if status.Failure? {
        return;
      }
      ghost var e2 := In(Ran(PlanOf(scheduler.names, plan), sampled));
      status := scheduler.Postprocess(plan, sampled, runner.isEos);
      completed := CollectResults(plan);
      FinishIs(W(), e2, status, scheduler.Abs());
    }

    lemma ScheduleIs(w: World, e: State, status: Status, sched: Sched, plan: Plan)
      requires WellFormed(e.sched) && (status, sched, plan) == SchedulerSpec.Schedule(w.c, e.sched)
      ensures SchedulePhase(w, e) == (status, State(sched, e.cache, if status == Success && plan.items != [] then Scheduled(plan) else Idle))
    {
      hide WellFormed, SchedulerSpec.Schedule;
    }

    lemma FinishIs(w: World, e: State, status: Status, sched: Sched)
      requires WellFormed(e.sched) && e.phase.Ran? && ItemsInRange(e.sched.seqs, e.phase.plan.items)
      requires (status, sched) == SchedulerSpec.Postprocess(w.c, e.sched, e.phase.plan, e.phase.sampled, w.isEos)
      ensures ItemsInRange(sched.seqs, e.phase.plan.items)
      ensures FinishPhase(w, e) == (status, State(sched, e.cache, Idle), if status == Success then Collect(sched.seqs, e.phase.plan.items) else [])
    {
      hide WellFormed, SchedulerSpec.Postprocess, Collect;
    }

    // -------------------------------------------------------------- generate

    /** std::sort by request id, on results whose ids differ. */
    method SortById(results: seq<Result>) returns (sorted: seq<Result>)
      requires DistinctIds(results)
      ensures SortedById(sorted) && multiset(sorted) == multiset(results)
    {
      sorted := [];
      var k := 0;
      while k < |results|
        invariant 0 <= k <= |results| && SortedById(sorted) && multiset(sorted) == multiset(results[..k])
      {
        assert results[..k + 1] == results[..k] + [results[k]];
        forall a: nat | a < |sorted| ensures sorted[a].id != results[k].id {
          assert sorted[a] in multiset(results[..k]);
          var b: nat :| b < k && results[b] == sorted[a];
        }
        sorted := Insert(sorted, results[k]);
        k := k + 1;
      }
      assert results[..k] == results;
    }

    method Insert(sorted: seq<Result>, r: Result) returns (more: seq<Result>)
      requires SortedById(sorted) && forall a: nat :: a < |sorted| ==> sorted[a].id != r.id
      ensures SortedById(more) && multiset(more) == multiset(sorted) + multiset{r}
    {
      var i := |sorted|;
      while i > 0 && sorted[i - 1].id > r.id
        invariant 0 <= i <= |sorted| && forall a: nat :: i <= a < |sorted| ==> sorted[a].id > r.id
      {
        i := i - 1;
      }
      more := sorted[..i] + [r] + sorted[i..];
      InsertAt(sorted, r, i);
    }

    lemma InsertAt(sorted: seq<Result>, r: Result, i: nat)
      requires SortedById(sorted) && i <= |sorted|
      requires forall a: nat :: i <= a < |sorted| ==> sorted[a].id > r.id
      requires i > 0 ==> sorted[i - 1].id < r.id
      ensures SortedById(sorted[..i] + [r] + sorted[i..])
      ensures multiset(sorted[..i] + [r] + sorted[i..]) == multiset(sorted) + multiset{r}
    {
      InsertCounts(sorted, r, i);
      var more := sorted[..i] + [r] + sorted[i..];
      forall k: nat | k + 1 < |more| ensures more[k].id < more[k + 1].id {
        if k + 1 < i {
          assert more[k] == sorted[k] && more[k + 1] == sorted[k + 1];
        } else if k > i {
          assert more[k] == sorted[k - 1] && more[k + 1] == sorted[k];
        }
      }
      AscendingIsSorted(more);
    }

    lemma AscendingIsSorted(results: seq<Result>)
      requires forall k: nat :: k + 1 < |results| ==> results[k].id < results[k + 1].id
      ensures SortedById(results)
    {
      forall a: nat, b: nat | a < b < |results| ensures results[a].id < results[b].id {
        AscendingPair(results, a, b);
      }
    }

    lemma {:induction false} AscendingPair(results: seq<Result>, a: nat, b: nat)
      requires forall k: nat :: k + 1 < |results| ==> results[k].id < results[k + 1].id
      requires a < b < |results|
      ensures results[a].id < results[b].id
      decreases b
    {
      assert results[b - 1].id < results[b - 1 + 1].id;
      if a < b - 1 {
        AscendingPair(results, a, b - 1);
      }
    }

    lemma InsertCounts(sorted: seq<Result>, r: Result, i: nat)
      requires i <= |sorted|
      ensures multiset(sorted[..i] + [r] + sorted[i..]) == multiset(sorted) + multiset{r}
    {
      assert sorted == sorted[..i] + sorted[i..];
    }

    /** The parameters of prompt `k`: one set may serve all. */
    function ParamsOf(sampling: seq<Sampling>, k: nat): Sampling
      requires |sampling| == 1 || k < |sampling|
    {
      if |sampling| == 1 then sampling[0] else sampling[k]
    }

    function RequestsOf(tokenize: string -> seq<Token>, prompts: seq<string>, sampling: seq<Sampling>): (r: seq<Request>)
      requires |sampling| == 1 || |sampling| == |prompts|
      ensures |r| == |prompts|
    {
      seq(|prompts|, k requires 0 <= k < |prompts| => Request(tokenize(prompts[k]), ParamsOf(sampling, k)))
    }

    /** The checks of generate, up front, on every prompt. */
    method CheckPrompts(tokenize: string -> seq<Token>, prompts: seq<string>, sampling: seq<Sampling>) returns (status: Status, encoded: seq<Request>)
      requires |sampling| == 1 || |sampling| == |prompts|
      ensures config.Positive() ==> status == CheckAll(config, RequestsOf(tokenize, prompts, sampling))
      ensures status == Success ==> encoded == RequestsOf(tokenize, prompts, sampling)
    {
      hide CheckRequest, Validate;
      ghost var requests := RequestsOf(tokenize, prompts, sampling);
      encoded := [];
      var k := 0;
      while k < |prompts|
        invariant 0 <= k <= |prompts| && encoded == requests[..k]
        invariant config.Positive() ==> CheckAll(config, encoded) == Success
      {
        var params := ParamsOf(sampling, k);
        var tokens := tokenize(prompts[k]);
        status := CheckPrompt(tokens, params);
        if config.Positive() {
          CheckAllSnoc(config, encoded, requests[k]);
        }
        encoded := encoded + [Request(tokens, params)];
        assert requests[..k + 1] == requests[..k] + [requests[k]];
        if status.Failure? {
          if config.Positive() {
            CheckAllPrefix(config, requests, k + 1);
          }
          return;
        }
        k := k + 1;
      }
      assert requests[..k] == requests;
      return Success, encoded;
    }

    method CheckPrompt(tokens: seq<Token>, params: Sampling) returns (status: Status)
      ensures config.Positive() ==> status == CheckRequest(config, tokens, params)
    {
      status := Validate(params);
      if status.Failure? {
        return;
      }
      if params.maxTokens <= 0 {
        return Failure(ZeroMaxTokens);
      }
      if tokens == [] {
        return Failure(EmptyPrompt);
      }
      if |tokens| > AsSize(config.maxModelLen) {
        return Failure(PromptTooLong);
      }
      var maxCompletion := AsSize(config.maxModelLen) - |tokens| + 1;
      if params.maxTokens > maxCompletion {
        return Failure(CompletionTooLong);
      }
      return Success;
    }

    /** Every request is added, in order. */
    method AddAll(requests: seq<Request>) returns (status: Status)
      requires Valid() && (initialized ==> CheckAll(config, requests) == Success) && SchedulerSpec.IsFinished(scheduler.Abs())
      modifies this`nextRequestId, scheduler
      ensures Valid() && initialized == old(initialized)
      ensures !initialized && requests != [] ==> status == Failure(NotInitialized)
      ensures initialized ==> status == Success && Going(W(), In(Idle), |old(scheduler.all)|, requests, []) && Fresh(In(Idle).sched.seqs, |old(scheduler.all)|)
      ensures old(scheduler.all) <= scheduler.all && forall i :: |old(scheduler.all)| <= i < |scheduler.all| ==> fresh(scheduler.all[i])
    {
      hide EngineInv, RightUnlessCollision, Scheduler.Valid, Scheduler.Abs, PagedRunner.Cached, CheckRequest, Later, Served, SchedulerSpec.IsFinished;
      if !initialized {
        status := Success;
        if requests != [] {
          var id;
          status, id := AddRequest(requests[0].prompt, requests[0].sampling);
        }
        return;
      }
      ghost var first := |scheduler.all|;
      scheduler.Sizes();
      AllFinished(W(), In(Idle));
      PendingNone(In(Idle).sched.seqs);
      var k := 0;
      while k < |requests|
        invariant 0 <= k <= |requests| && Valid() && initialized
        invariant Pending(In(Idle).sched.seqs, first, requests[..k])
        invariant Fresh(In(Idle).sched.seqs, first)
        invariant old(scheduler.all) <= scheduler.all && forall i :: |old(scheduler.all)| <= i < |scheduler.all| ==> fresh(scheduler.all[i])
      {
        ghost var e := In(Idle);
        CheckAllAt(config, requests, k);
        assert requests[..k + 1] == requests[..k] + [requests[k]];
        PendingSnoc(e.sched.seqs, first, requests[..k], requests[k]);
        ArriveOk(W(), e, requests[k].prompt, requests[k].sampling);
        var id;
        status, id := AddRequest(requests[k].prompt, requests[k].sampling);
        if status.Failure? {
          return;
        }
        k := k + 1;
      }
      assert requests[..k] == requests;
      ServedNone(In(Idle).sched.seqs, first);
      return Success;
    }

    /** The loop of generate stopped at a step that failed, from a state the loop could reach. */
    ghost predicate StoppedAt(first: nat, requests: seq<Request>, results: seq<Result>, status: Status)
      reads this, scheduler, scheduler.manager, scheduler.all, runner, runner.keys, runner.values
    {
      exists e: State ::
        && Going(W(), e, first, requests, results) && RightUnlessCollision(W(), e)
        && StepProofs.Step(W(), e).0 == status && StepProofs.Step(W(), e).1 == In(StepProofs.Step(W(), e).1.phase)
    }

    /** The loop of generate: it always ends, each step lowering the measure. */
    method RunAll(ghost first: nat, ghost requests: seq<Request>) returns (status: Status, results: seq<Result>)
      requires Valid() && initialized && Going(W(), In(Idle), first, requests, []) && Fresh(In(Idle).sched.seqs, first)
      modifies scheduler, scheduler.manager, scheduler.all, runner.keys, runner.values
      ensures Joined() && scheduler.all == old(scheduler.all)
      ensures Limits(W()) && AllFit(W().c, requests) ==> status == Success
      ensures Limits(W()) && NoCollision(W().c, scheduler.manager.hashed) ==> (status == Success <==> AnswersFit(W(), first, requests))
      ensures Limits(W()) && status.Failure? ==> status == Failure(PromptNeedsTooManyBlocks)
      ensures status == Success ==> Valid() && Going(W(), In(Idle), first, requests, results) && SchedulerSpec.IsFinished(scheduler.Abs())
      ensures status.Failure? ==> StoppedAt(first, requests, results, status)
    {
      hide EngineInv, RightUnlessCollision, Scheduler.Valid, Scheduler.Abs, PagedRunner.Cached, Served, Pending, StepProofs.Step, Limits, AllFit,
        SchedulerSpec.IsFinished, Measure, Roomy, AnswersFit, NoCollision;
      results := [];
      NothingFitted(W(), In(Idle), first);
      var finished := IsFinished();
      while !finished
        invariant Valid() && initialized && scheduler.all == old(scheduler.all)
        invariant Going(W(), In(Idle), first, requests, results) && finished == SchedulerSpec.IsFinished(scheduler.Abs())
        invariant Roomy(W(), In(Idle), first)
        decreases Measure(In(Idle)).0, Measure(In(Idle)).1, Measure(In(Idle)).2, !finished
      {
        ghost var e := In(Idle);
        if Limits(W()) && AllFit(W().c, requests) {
          GoingSucceeds(W(), e, first, requests, results);
        }
        var completed;
        status, completed := Step();
        if status.Failure? {
          ScheduledPool();
          StoppedFor(W(), e, first, requests, results);
          return;
        }
        RoomyStep(W(), e, first);
        GoingStep(W(), e, first, requests, results);
        MeasureFalls(W(), e);
        results := results + completed;
        finished := IsFinished();
      }
      ScheduledPool();
      if NoCollision(W().c, scheduler.manager.hashed) {
        DoneFitted(W(), In(Idle), first, requests, results);
      }
      return Success, results;
    }

    lemma ScheduledPool()
      requires scheduler.Valid()
      ensures scheduler.Abs().pool.hashed == scheduler.manager.hashed
    {
    }

    /** Why a step of the loop failed. */
    lemma StoppedFor(w: World, e: State, first: nat, requests: seq<Request>, results: seq<Result>)
      requires Going(w, e, first, requests, results) && RightUnlessCollision(w, e) && StepProofs.Step(w, e).0.Failure?
      ensures Limits(w) ==> StepProofs.Step(w, e).0 == Failure(PromptNeedsTooManyBlocks)
      ensures w.Valid()
      ensures Limits(w) && NoCollision(w.c, StepProofs.Step(w, e).1.sched.pool.hashed) ==> !AnswersFit(w, first, requests)
    {
      hide EngineInv, Served, Pending, StepProofs.Step, Limits, AnswersFit, NoCollision, RightUnlessCollision;
      ValidWorld(w, e);
      StepOk(w, e);
      if Limits(w) && NoCollision(w.c, StepProofs.Step(w, e).1.sched.pool.hashed) {
        FailureNeedsRoom(w, e, first, requests, results);
      }
    }

    lemma NothingFitted(w: World, e: State, first: nat)
      requires Fresh(e.sched.seqs, first)
      ensures Roomy(w, e, first)
    {
      hide NoCollision;
    }

    /** LLMEngine::generate. With an idle engine and acceptable prompts it answers every prompt, in order;
        within the limits it fails exactly if some answer has no room in the pool. After a success the
        engine is as good as before, with the cached blocks of this call for the next one to hit. */
    method Generate(tokenize: string -> seq<Token>, prompts: seq<string>, sampling: seq<Sampling>) returns (status: Status, results: seq<Result>)
      requires Valid()
      modifies this`nextRequestId, scheduler, scheduler.manager, scheduler.all, runner.keys, runner.values
      ensures Joined() && initialized == old(initialized) && (status == Success ==> Valid())
      ensures old(scheduler.all) <= scheduler.all && forall i :: |old(scheduler.all)| <= i < |scheduler.all| ==> fresh(scheduler.all[i])
      ensures prompts == [] ==> status == Success && results == [] && In(Idle) == old(In(Idle))
      ensures prompts != [] && !SchedulerSpec.IsFinished(old(scheduler.Abs())) ==> status == Failure(NotFinished) && In(Idle) == old(In(Idle))
      ensures prompts != [] && SchedulerSpec.IsFinished(old(scheduler.Abs())) && |sampling| != 1 && |sampling| != |prompts| ==>
                status == Failure(SamplingCountMismatch) && In(Idle) == old(In(Idle))
      ensures prompts != [] && !initialized ==> status.Failure?
      ensures initialized && prompts != [] && SchedulerSpec.IsFinished(old(scheduler.Abs())) && (|sampling| == 1 || |sampling| == |prompts|) ==>
                Generated(RequestsOf(tokenize, prompts, sampling), status, results, |old(scheduler.all)|, old(In(Idle)))
      ensures initialized && prompts != [] && SchedulerSpec.IsFinished(old(scheduler.Abs())) && (|sampling| == 1 || |sampling| == |prompts|) ==>
                AnsweredEach(tokenize, prompts, sampling, status, results, |old(scheduler.all)|)
    {
      hide EngineInv, RightUnlessCollision, Scheduler.Valid, Scheduler.Abs, PagedRunner.Cached, SchedulerSpec.IsFinished, Limits, AllFit, CheckAll, NoCollision, Answered, Served,
        AnsweredEach, RequestsOf, StoppedAt;
      results := [];
      if prompts == [] {
        return Success, results;
      }
      var idle := IsFinished();
      if !idle {
        return Failure(NotFinished), results;
      }
      if |sampling| != 1 && |sampling| != |prompts| {
        return Failure(SamplingCountMismatch), results;
      }
      ghost var e, first := In(Idle), |scheduler.all|;
      var encoded;
      status, encoded := CheckPrompts(tokenize, prompts, sampling);
      if status.Failure? {
        if initialized {
          EachOfAll(tokenize, prompts, sampling, status, results, first, e);
        }
        return;
      }
      status := AddAll(encoded);
      if status.Failure? {
        return;
      }
      assert forall i :: 0 <= i < first ==> scheduler.all[i] == old(scheduler.all)[i];
      status, results := RunAll(first, encoded);
      if status.Failure? {
        EachOfAll(tokenize, prompts, sampling, status, results, first, e);
        return;
      }
      ghost var collected := results;
      ServedDistinct(In(Idle).sched.seqs, first, results);
      results := SortById(results);
      ServedAnyOrder(In(Idle).sched.seqs, first, collected, results);
      PendingAnswered(W(), In(Idle), first, encoded, results);
      FinishedFreesAll(W(), In(Idle));
      ScheduledPool();
      EachOfAll(tokenize, prompts, sampling, status, results, first, e);
    }

    /** What a call of generate that got past its first checks has done. */
    ghost predicate Generated(requests: seq<Request>, status: Status, results: seq<Result>, first: nat, before: State)
      reads this, scheduler, scheduler.manager, scheduler.all, runner, runner.keys, runner.values
      requires W().Valid()
    {
      && (CheckAll(W().c, requests).Failure? ==> status == CheckAll(W().c, requests) && In(Idle) == before)
      && (CheckAll(W().c, requests) == Success && Limits(W()) && AllFit(W().c, requests) ==> status == Success)
      && (CheckAll(W().c, requests) == Success && Limits(W()) && NoCollision(W().c, scheduler.manager.hashed) ==>
            (status == Success <==> AnswersFit(W(), first, requests)))
      && (CheckAll(W().c, requests) == Success && status.Failure? ==>
            && (Limits(W()) ==> status == Failure(PromptNeedsTooManyBlocks))
            && StoppedAt(first, requests, results, status))
      && (status == Success ==>
            && SchedulerSpec.IsFinished(scheduler.Abs()) && |scheduler.manager.free| == config.numKvBlocks
            && Answered(W(), first, requests, results, NoCollision(W().c, scheduler.manager.hashed)))
    }

    /** The same prompt by prompt: each is encoded and takes its own parameters, or the only ones there are. */
    ghost predicate AnsweredEach(tokenize: string -> seq<Token>, prompts: seq<string>, sampling: seq<Sampling>, status: Status, results: seq<Result>, first: nat)
      reads this, scheduler, scheduler.manager, runner
      requires W().Valid() && (|sampling| == 1 || |sampling| == |prompts|)
    {
      && (status == Success ==> |results| == |prompts|)
      && (status == Success ==> forall k: nat :: k < |prompts| ==>
            var own := sampling[if |sampling| == 1 then 0 else k];
            && Acceptable(config.maxModelLen, tokenize(prompts[k]), own)
            && results[k].id == first + k + 1
            && (NoCollision(W().c, scheduler.manager.hashed) ==> results[k].tokens == Answer(W(), first + k + 1, tokenize(prompts[k]), own)))
      && (Limits(W()) && NoCollision(W().c, scheduler.manager.hashed) ==>
            (status == Success <==> forall k: nat :: k < |prompts| ==>
               var own := sampling[if |sampling| == 1 then 0 else k];
               && Acceptable(config.maxModelLen, tokenize(prompts[k]), own)
               && NumBlocks(|tokenize(prompts[k])| + |Answer(W(), first + k + 1, tokenize(prompts[k]), own)| - 1, W().c.blockSize) <= config.numKvBlocks))
    }

    lemma EachOfAll(tokenize: string -> seq<Token>, prompts: seq<string>, sampling: seq<Sampling>, status: Status, results: seq<Result>, first: nat, before: State)
      requires W().Valid() && config.Positive() && (|sampling| == 1 || |sampling| == |prompts|)
      requires Generated(RequestsOf(tokenize, prompts, sampling), status, results, first, before)
      ensures AnsweredEach(tokenize, prompts, sampling, status, results, first)
    {
      hide Limits, AllFit, NoCollision, Answer, NumBlocks, CheckAll, Acceptable, StoppedAt, SchedulerSpec.IsFinished;
      var requests := RequestsOf(tokenize, prompts, sampling);
      CheckAllMeaning(W().c, requests);
      forall k: nat | k < |prompts|
        ensures requests[k] == Request(tokenize(prompts[k]), sampling[if |sampling| == 1 then 0 else k])
        ensures Acceptable(config.maxModelLen, requests[k].prompt, requests[k].sampling) ==> requests[k].prompt != []
      {
        AcceptablePrompt(config.maxModelLen, requests[k].prompt, requests[k].sampling);
      }
      hide RequestsOf, ParamsOf;
      if CheckAll(W().c, requests) == Success {
        assert AnswersFit(W(), first, requests) <==> forall k: nat :: k < |prompts| ==> AnswerFits(W(), first, requests, k);
      }
    }

    lemma AcceptablePrompt(maxModelLen: int, prompt: seq<Token>, sampling: Sampling)
      ensures Acceptable(maxModelLen, prompt, sampling) ==> prompt != []
    {
    }

    lemma ServedDistinct(seqs: seq<SeqState>, first: nat, results: seq<Result>)
      requires Served(seqs, first, results)
      ensures DistinctIds(results)
    {
    }
  }
}
