/** LLMEngine::generate as a whole: its checks, and what its results are once every request is done. */
module GenerateProofs {
  import opened Common
  import opened Blocks
  import opened Sequences
  import opened BlockPool
  import opened PrefixCache
  import opened AllocationProofs
  import opened SchedulerSpec
  import opened SchedulerProofs
  import opened PostprocessProofs
  import opened ScheduleProofs
  import opened Attention
  import opened Transformer
  import opened PagedBatch
  import opened Generation
  import opened EngineSpec
  import opened RequestProofs
  import opened BatchProofs
  import opened Engine
  import opened EngineProofs
  import opened StepProofs
  import opened ProgressProofs
  import opened ResultProofs

  /** A prompt as tokens, with its parameters. */
  datatype Request = Request(prompt: seq<Token>, sampling: Sampling)

  /** The first request that add_request would refuse, if any, decides. */
  function CheckAll(c: Config, requests: seq<Request>): Status
    decreases |requests|
  {
    if requests == [] then Success
    else
      var first := CheckRequest(c, requests[0].prompt, requests[0].sampling);
      if first.Failure? then first else CheckAll(c, requests[1..])
  }

  lemma {:induction false} CheckAllSnoc(c: Config, requests: seq<Request>, r: Request)
    ensures CheckAll(c, requests + [r]) ==
      if CheckAll(c, requests).Failure? then CheckAll(c, requests) else CheckRequest(c, r.prompt, r.sampling)
    decreases |requests|
  {
    hide CheckRequest;
    if requests != [] {
      CheckAllSnoc(c, requests[1..], r);
      assert (requests + [r])[1..] == requests[1..] + [r];
    }
  }

  lemma {:induction false} CheckAllPrefix(c: Config, requests: seq<Request>, n: nat)
    requires n <= |requests| && CheckAll(c, requests[..n]).Failure?
    ensures CheckAll(c, requests) == CheckAll(c, requests[..n])
    decreases |requests|
  {
    hide CheckRequest;
    if n > 0 {
      assert requests[..n][1..] == requests[1..][..n - 1];
      if CheckAll(c, requests[1..][..n - 1]).Failure? {
        CheckAllPrefix(c, requests[1..], n - 1);
      }
    }
  }

  lemma {:induction false} CheckAllAt(c: Config, requests: seq<Request>, k: nat)
    requires CheckAll(c, requests) == Success && k < |requests|
    ensures CheckRequest(c, requests[k].prompt, requests[k].sampling) == Success
    decreases |requests|
  {
    hide CheckRequest;
    if k > 0 {
      CheckAllAt(c, requests[1..], k - 1);
    }
  }

  /** All requests pass exactly if each would. */
  lemma {:induction false} CheckAllMeaning(c: Config, requests: seq<Request>)
    ensures CheckAll(c, requests) == Success <==>
      forall k: nat :: k < |requests| ==> Acceptable(c.maxModelLen, requests[k].prompt, requests[k].sampling)
    decreases |requests|
  {
    hide CheckRequest, Acceptable;
    if requests != [] {
      CheckRequestMeaning(c, requests[0].prompt, requests[0].sampling);
      CheckAllMeaning(c, requests[1..]);
      assert forall k: nat :: k < |requests[1..]| ==> requests[1..][k] == requests[k + 1];
      assert forall k: nat :: 0 < k < |requests| ==> requests[k] == requests[1..][k - 1];
    }
  }

  /** The state request `k` starts in, after `first` earlier ones. */
  function Start(first: nat, requests: seq<Request>, k: nat): SeqState
    requires k < |requests|
  {
    NewSequence(first + k + 1, requests[k].prompt, requests[k].sampling)
  }

  /** After `first` finished requests, the engine holds those requested, at whatever stage. */
  ghost predicate Pending(seqs: seq<SeqState>, first: nat, requests: seq<Request>) {
    && |seqs| == first + |requests|
    && (forall i: nat :: i < first ==> seqs[i].status == Finished)
    && (forall k: nat :: k < |requests| ==> Later(Start(first, requests, k), seqs[first + k]))
  }

  lemma PendingNone(seqs: seq<SeqState>)
    requires forall i: nat :: i < |seqs| ==> seqs[i].status == Finished
    ensures Pending(seqs, |seqs|, [])
  {
  }

  lemma PendingSnoc(seqs: seq<SeqState>, first: nat, requests: seq<Request>, r: Request)
    requires Pending(seqs, first, requests)
    ensures Pending(seqs + [NewSequence(|seqs| + 1, r.prompt, r.sampling)], first, requests + [r])
  {
    hide NewSequence, Later;
    var s := NewSequence(|seqs| + 1, r.prompt, r.sampling);
    var all, more := requests + [r], seqs + [s];
    LaterRefl(s);
    forall k: nat | k < |all| ensures Later(Start(first, all, k), more[first + k]) {
      if k < |requests| {
        assert Later(Start(first, requests, k), seqs[first + k]);
      }
    }
  }

  lemma LaterRefl(s: SeqState)
    ensures Later(s, s)
  {
  }

  lemma PendingLater(a: seq<SeqState>, b: seq<SeqState>, first: nat, requests: seq<Request>)
    requires Pending(a, first, requests) && AllLater(a, b) && |b| == |a|
    ensures Pending(b, first, requests)
  {
    hide NewSequence, Start;
    forall k: nat | k < |requests| ensures Later(Start(first, requests, k), b[first + k]) {
      assert Later(Start(first, requests, k), a[first + k]) && Later(a[first + k], b[first + k]);
    }
    forall i: nat | i < first ensures b[i].status == Finished {
      assert Later(a[i], b[i]);
    }
  }

  /** Each request alone fits the pool: its prompt and all tokens but the last take no more blocks than
      there are. */
  predicate AllFit(c: Config, requests: seq<Request>) {
    forall k :: 0 <= k < |requests| && |requests[k].prompt| > 0 && requests[k].sampling.maxTokens > 0 ==>
      NumBlocks(|requests[k].prompt| + requests[k].sampling.maxTokens - 1, c.blockSize) <= c.numKvBlocks
  }

  lemma PendingCapacity(c: Config, seqs: seq<SeqState>, first: nat, requests: seq<Request>)
    requires Pending(seqs, first, requests) && AllFit(c, requests)
    ensures Capacity(c, seqs)
  {
    hide NumBlocks;
    forall i: nat | i < |seqs| && seqs[i].status != Finished && 1 <= seqs[i].promptSize && seqs[i].sampling.maxTokens > 0
      ensures Demand(c, seqs[i]) <= c.numKvBlocks
    {
      var k: nat := i - first;
      assert Later(Start(first, requests, k), seqs[first + k]);
    }
  }

  /** With no request queued, every request has finished. */
  lemma AllFinished(w: World, e: State)
    requires EngineInv(w, e) && IsFinished(e.sched)
    ensures forall i: nat :: i < |e.sched.seqs| ==> e.sched.seqs[i].status == Finished
  {
    hide BlocksIdle, RequestsOk, Matches, TokensFit, PlanOk, Numbered;
    forall i: nat | i < |e.sched.seqs| ensures e.sched.seqs[i].status == Finished {
      assert SeqOk(w.c, e.sched.seqs[i], RoleOf(e.sched, i));
    }
  }

  /** One request that has finished is answered as the reference answers it. */
  lemma PendingOne(w: World, e: State, first: nat, requests: seq<Request>, k: nat)
    requires EngineInv(w, e) && Pending(e.sched.seqs, first, requests) && k < |requests| && first + k < |e.sched.seqs|
    requires e.sched.seqs[first + k].status == Finished && w.Valid()
    ensures |ResultOf(e.sched.seqs[first + k]).tokens| <= requests[k].sampling.maxTokens
    ensures RightUnlessCollision(w, e) && NoCollision(w.c, e.sched.pool.hashed) && requests[k].prompt != [] ==>
              ResultOf(e.sched.seqs[first + k]).tokens == Answer(w, first + k + 1, requests[k].prompt, requests[k].sampling)
  {
    hide EngineInv, RightUnlessCollision, NoCollision, ResultOf, Answer, Right;
    var s := e.sched.seqs[first + k];
    assert Later(Start(first, requests, k), s);
    ResultShort(w, e, first + k);
    LaterStart(first, requests, k, s);
    if RightUnlessCollision(w, e) && NoCollision(w.c, e.sched.pool.hashed) {
      Collisionless(w, e);
      FinishedTracks(w, e, first + k);
      FinishedIsAnswer(w, s);
    }
  }

  /** What generate is to return: a result for each request, in the order of the prompts, with at most
      max_tokens tokens; and, unless chain hashes collided, exactly the tokens of the reference. */
  ghost predicate Answered(w: World, first: nat, requests: seq<Request>, results: seq<Result>, right: bool)
    requires w.Valid()
  {
    && |results| == |requests|
    && (forall k: nat :: k < |results| ==> results[k].id == first + k + 1 && |results[k].tokens| <= requests[k].sampling.maxTokens)
    && (right ==> forall k: nat :: k < |results| && requests[k].prompt != [] ==>
          results[k].tokens == Answer(w, first + k + 1, requests[k].prompt, requests[k].sampling))
  }

  lemma ResultShort(w: World, e: State, i: nat)
    requires EngineInv(w, e) && i < |e.sched.seqs|
    ensures |ResultOf(e.sched.seqs[i]).tokens| <= e.sched.seqs[i].sampling.maxTokens
  {
    assert RequestOk(w.c, e.sched.seqs[i]);
  }

  lemma PendingAnswered(w: World, e: State, first: nat, requests: seq<Request>, results: seq<Result>)
    requires EngineInv(w, e) && IsFinished(e.sched) && Pending(e.sched.seqs, first, requests)
    requires Served(e.sched.seqs, first, results) && SortedById(results)
    ensures Answered(w, first, requests, results, RightUnlessCollision(w, e) && NoCollision(w.c, e.sched.pool.hashed))
  {
    hide EngineInv, RightUnlessCollision, NoCollision, Served, SortedById, ResultOf, Answer, Right, Later, Start;
    var seqs := e.sched.seqs;
    AllFinished(w, e);
    ServedInOrder(seqs, first, results);
    ValidWorld(w, e);
    forall k: nat | k < |results|
      ensures |results[k].tokens| <= requests[k].sampling.maxTokens
      ensures RightUnlessCollision(w, e) && NoCollision(w.c, e.sched.pool.hashed) && requests[k].prompt != [] ==>
                results[k].tokens == Answer(w, first + k + 1, requests[k].prompt, requests[k].sampling)
    {
      PendingOne(w, e, first, requests, k);
    }
  }

  lemma LaterStart(first: nat, requests: seq<Request>, k: nat, s: SeqState)
    requires k < |requests| && Later(Start(first, requests, k), s)
    ensures s.id == first + k + 1 && s.promptSize == |requests[k].prompt| && s.sampling == requests[k].sampling
    ensures s.promptSize <= |s.tokens| && s.tokens[..s.promptSize] == requests[k].prompt
  {
  }

  lemma ValidWorld(w: World, e: State)
    requires EngineInv(w, e)
    ensures w.Valid() && WellFormed(e.sched)
  {
  }

  lemma ServedNone(seqs: seq<SeqState>, first: nat)
    requires |seqs| >= first && forall i: nat :: first <= i < |seqs| ==> seqs[i].status != Finished
    ensures Served(seqs, first, [])
  {
  }

  /** Nothing has finished yet among requests that have only just arrived. */
  ghost predicate Fresh(seqs: seq<SeqState>, first: nat) {
    forall i: nat :: first <= i < |seqs| ==> seqs[i].status != Finished
  }

  /** Any order of the same results serves as well. */
  lemma ServedAnyOrder(seqs: seq<SeqState>, first: nat, results: seq<Result>, sorted: seq<Result>)
    requires Served(seqs, first, results) && SortedById(sorted) && multiset(sorted) == multiset(results)
    ensures Served(seqs, first, sorted)
  {
    hide ResultIn;
    assert DistinctIds(sorted) by {
      forall a: nat, b: nat | a < b < |sorted| ensures sorted[a].id != sorted[b].id {
      }
    }
    forall k: nat | k < |sorted| ensures ResultIn(seqs, first, sorted[k]) {
      assert sorted[k] in multiset(sorted);
      assert sorted[k] in results;
    }
    forall j: nat | first <= j < |seqs| && seqs[j].status == Finished ensures Delivers(sorted, j + 1) {
      assert Delivers(results, j + 1);
      var k: nat :| k < |results| && results[k].id == j + 1;
      assert results[k] in multiset(results);
      assert results[k] in sorted;
    }
  }

  // ---------------------------------------------------------------- one step of the loop

  /** What the generate loop keeps. */
  ghost predicate Going(w: World, e: State, first: nat, requests: seq<Request>, results: seq<Result>) {
    && EngineInv(w, e) && e.phase.Idle?
    && Pending(e.sched.seqs, first, requests)
    && Served(e.sched.seqs, first, results)
  }

  lemma GoingStep(w: World, e: State, first: nat, requests: seq<Request>, results: seq<Result>)
    requires Going(w, e, first, requests, results) && Step(w, e).0 == Success
    ensures Going(w, Step(w, e).1, first, requests, results + Step(w, e).2)
    ensures RightUnlessCollision(w, e) ==> RightUnlessCollision(w, Step(w, e).1)
  {
    hide EngineInv, Served, DeliversNew, AllLater, Step, RightUnlessCollision;
    ValidWorld(w, e);
    StepOk(w, e);
    StepLater(w, e);
    StepDelivers(w, e);
    var e' := Step(w, e).1;
    PendingLater(e.sched.seqs, e'.sched.seqs, first, requests);
    ServedStep(e.sched.seqs, e'.sched.seqs, first, results, Step(w, e).2);
    if RightUnlessCollision(w, e) {
      StepRight(w, e);
    }
  }

  lemma GoingSucceeds(w: World, e: State, first: nat, requests: seq<Request>, results: seq<Result>)
    requires Going(w, e, first, requests, results) && Limits(w) && AllFit(w.c, requests)
    ensures Step(w, e).0 == Success
  {
    hide EngineInv, Served, Pending, AllFit, Limits, Step, Capacity;
    PendingCapacity(w.c, e.sched.seqs, first, requests);
    StepSucceeds(w, e);
  }

  // ---------------------------------------------------------------- the measure as numbers

  lemma FrontCostNat(w: World, e: State)
    requires EngineInv(w, e)
    ensures WellFormed(e.sched) && FrontCost(e.sched).0 >= 0 && FrontCost(e.sched).1 >= 0
  {
    hide BlocksIdle, RequestsOk, Matches, TokensFit, PlanOk, Numbered;
    if FrontHolds(e.sched) {
      var i := e.sched.waiting[0];
      assert i in e.sched.waiting;
      assert SeqOk(w.c, e.sched.seqs[i], RoleOf(e.sched, i));
    }
  }

  /** The measure of a run, as three numbers that descend lexicographically. */
  ghost function Measure(e: State): (r: (nat, nat, nat)) {
    if WellFormed(e.sched) && FrontCost(e.sched).0 >= 0 && FrontCost(e.sched).1 >= 0
    then (TotalLeft(e.sched.seqs), FrontCost(e.sched).0, FrontCost(e.sched).1)
    else (TotalLeft(e.sched.seqs), 0, 0)
  }

  ghost predicate LowerMeasure(a: (nat, nat, nat), b: (nat, nat, nat)) {
    || b.0 < a.0
    || (b.0 == a.0 && (b.1 < a.1 || (b.1 == a.1 && b.2 < a.2)))
  }

  lemma MeasureFalls(w: World, e: State)
    requires EngineInv(w, e) && e.phase.Idle? && Step(w, e).0 == Success && !IsFinished(e.sched)
    ensures LowerMeasure(Measure(e), Measure(Step(w, e).1))
  {
    hide EngineInv, Step, WellFormed, FrontCost;
    ValidWorld(w, e);
    StepOk(w, e);
    StepProgress(w, e);
    FrontCostNat(w, e);
    FrontCostNat(w, Step(w, e).1);
  }
}
