/** Results: every request yields exactly one, in the step that finishes it. */
module ResultProofs {
  import opened Common
  import opened Blocks
  import opened Sequences
  import opened BlockPool
  import opened AllocationProofs
  import opened SchedulerSpec
  import opened SchedulerProofs
  import opened PostprocessProofs
  import opened ScheduleProofs
  import opened Generation
  import opened EngineSpec
  import opened RequestProofs
  import opened RunPlanProofs
  import opened Engine
  import opened EngineProofs
  import opened StepProofs
  import opened ProgressProofs

  ghost predicate Delivers(results: seq<Result>, id: nat) {
    exists k: nat :: k < |results| && results[k].id == id
  }

  ghost predicate DistinctIds(results: seq<Result>) {
    forall a: nat, b: nat :: a < b < |results| ==> results[a].id != results[b].id
  }

  /** A result of a finished request after the first `first` ones: its whole completion. */
  ghost predicate ResultIn(seqs: seq<SeqState>, first: nat, r: Result) {
    && first < r.id <= |seqs| && seqs[r.id - 1].status == Finished && r == ResultOf(seqs[r.id - 1])
  }

  /** The results are those of the finished sequences among `items`, each once. */
  ghost predicate Collected(seqs: seq<SeqState>, items: seq<Item>, results: seq<Result>) {
    && DistinctIds(results)
    && (forall k: nat :: k < |results| ==> ResultIn(seqs, 0, results[k]) && Planned(items, results[k].id - 1))
    && (forall j: nat :: j < |seqs| && Planned(items, j) && seqs[j].status == Finished ==> Delivers(results, j + 1))
  }

  lemma PlannedSnoc(items: seq<Item>, last: Item)
    ensures forall j: nat :: Planned(items + [last], j) <==> (Planned(items, j) || j == last.who)
  {
    var all := items + [last];
    forall j: nat ensures Planned(all, j) <==> (Planned(items, j) || j == last.who) {
      if Planned(items, j) {
        var k: nat :| k < |items| && items[k].who == j;
        assert all[k].who == j;
      }
      if j == last.who {
        assert all[|items|].who == j;
      }
    }
  }

  lemma DistinctSnocId(results: seq<Result>, r: Result)
    requires DistinctIds(results) && forall k: nat :: k < |results| ==> results[k].id != r.id
    ensures DistinctIds(results + [r])
  {
  }

  lemma DeliversMore(results: seq<Result>, more: seq<Result>, id: nat)
    ensures Delivers(results, id) ==> Delivers(results + more, id)
    ensures Delivers(more, id) ==> Delivers(results + more, id)
  {
    var all := results + more;
    if Delivers(results, id) {
      var k: nat :| k < |results| && results[k].id == id;
      assert all[k].id == id;
    }
    if Delivers(more, id) {
      var k: nat :| k < |more| && more[k].id == id;
      assert all[|results| + k].id == id;
    }
  }

  lemma CollectedSnoc(seqs: seq<SeqState>, items: seq<Item>, last: Item, results: seq<Result>)
    requires Numbered(seqs) && Collected(seqs, items, results) && last.who < |seqs| && !Planned(items, last.who)
    ensures Collected(seqs, items + [last], results + if seqs[last.who].status == Finished then [ResultOf(seqs[last.who])] else [])
  {
    var all := items + [last];
    var r := ResultOf(seqs[last.who]);
    var more := if seqs[last.who].status == Finished then [r] else [];
    PlannedSnoc(items, last);
    ResultId(seqs[last.who]);
    assert ResultIn(seqs, 0, r) || seqs[last.who].status != Finished;
    forall k: nat | k < |results| ensures results[k].id != r.id {
      assert ResultIn(seqs, 0, results[k]) && Planned(items, results[k].id - 1);
    }
    assert DistinctIds(results + more) by {
      hide Planned, ResultOf, Delivers, Numbered, ResultIn;
      DistinctSnocId(results, r);
      assert results + [] == results;
    }
    hide Planned, ResultOf, ResultIn, Delivers, DistinctIds, Numbered;
    forall j: nat | j < |seqs| && Planned(all, j) && seqs[j].status == Finished ensures Delivers(results + more, j + 1) {
      DeliversMore(results, more, j + 1);
      if j == last.who {
        DeliversOne(r);
      }
    }
  }

  lemma DeliversOne(r: Result)
    ensures Delivers([r], r.id)
  {
    assert [r][0].id == r.id;
  }

  lemma {:induction false} CollectOk(seqs: seq<SeqState>, items: seq<Item>)
    requires Numbered(seqs) && ItemsInRange(seqs, items) && forall a: nat, b: nat :: a < b < |items| ==> items[a].who != items[b].who
    ensures Collected(seqs, items, Collect(seqs, items))
    decreases |items|
  {
    if items != [] {
      var init, last := items[..|items| - 1], items[|items| - 1];
      CollectOk(seqs, init);
      assert items == init + [last];
      FirstTime(items, |items| - 1);
      hide Collected, Planned, ResultOf;
      CollectedSnoc(seqs, init, last, Collect(seqs, init));
    }
  }

  /** A step delivers exactly the requests that it finishes, each once, with their whole completions. */
  ghost predicate DeliversNew(seqs: seq<SeqState>, seqs': seq<SeqState>, results: seq<Result>) {
    && |seqs'| == |seqs| && DistinctIds(results)
    && (forall k: nat :: k < |results| ==> ResultIn(seqs', 0, results[k]) && seqs[results[k].id - 1].status != Finished)
    && (forall j: nat :: j < |seqs| && seqs[j].status != Finished && seqs'[j].status == Finished ==> Delivers(results, j + 1))
  }

  lemma SameFinished(a: seq<SeqState>, b: seq<SeqState>)
    requires SameText(a, b) || OnlyRngs(a, b)
    ensures |a| == |b| && forall i: nat :: i < |a| ==> (a[i].status == Finished <==> b[i].status == Finished)
  {
    forall i: nat | i < |a| ensures a[i].status == Finished <==> b[i].status == Finished {
      assert SameText(a, b) ==> SameRequest(a[i], b[i]);
      assert OnlyRngs(a, b) ==> OnlyRng(a[i], b[i]);
    }
  }

  lemma CollectedIsNew(seqs: seq<SeqState>, seqs': seq<SeqState>, items: seq<Item>, results: seq<Result>)
    requires Collected(seqs', items, results) && |seqs'| == |seqs|
    requires forall j: nat :: j < |seqs| && Planned(items, j) ==> seqs[j].status != Finished
    requires forall j: nat :: j < |seqs| && !Planned(items, j) ==> seqs'[j] == seqs[j]
    ensures DeliversNew(seqs, seqs', results)
  {
    hide Planned, Delivers, DistinctIds, ResultOf;
  }

  lemma DeliversSame(a: seq<SeqState>, b: seq<SeqState>, d: seq<SeqState>, results: seq<Result>)
    requires |a| == |b| && forall i: nat :: i < |a| ==> (a[i].status == Finished <==> b[i].status == Finished)
    requires DeliversNew(b, d, results)
    ensures DeliversNew(a, d, results)
  {
    hide Delivers, DistinctIds, ResultOf;
  }

  lemma AdvancedPlanned(c: Config, st: Sched, seqs': seq<SeqState>, items: seq<Item>, sampled: seq<Token>, isEos: Token -> bool)
    requires Inv(c, st) && Matches(st.seqs, items) && AllAdvanced(st.seqs, seqs', items, sampled, isEos)
    ensures forall j: nat :: j < |st.seqs| && Planned(items, j) ==> st.seqs[j].status != Finished
    ensures forall j: nat :: j < |st.seqs| && !Planned(items, j) ==> seqs'[j] == st.seqs[j]
  {
    hide Inv, Matches, Advanced;
    forall j: nat | j < |st.seqs| && Planned(items, j) ensures st.seqs[j].status != Finished {
      var k: nat :| k < |items| && items[k].who == j;
      PlannedUnfinishedSeq(c, st, items, k);
    }
  }

  lemma FinishDelivers(w: World, e: State)
    requires EngineInv(w, e) && e.phase.Ran?
    ensures ItemsInRange(e.sched.seqs, e.phase.plan.items)
    ensures var (status, e', results) := FinishPhase(w, e); DeliversNew(e.sched.seqs, e'.sched.seqs, results)
  {
    var seqs, items := e.sched.seqs, e.phase.plan.items;
    FinishPhaseOk(w, e);
    var e' := FinishPhase(w, e).1;
    hide Inv, WellFormed, RequestsOk, Numbered, Matches, TokensFit, AllAdvanced, FinishPhase, Collect, DeliversNew, Collected, ItemsInRange;
    assert ItemsInRange(e'.sched.seqs, items) by {
      SameRange(seqs, e'.sched.seqs, items);
    }
    DistinctItems(seqs, items);
    CollectOk(e'.sched.seqs, items);
    AdvancedPlanned(w.c, e.sched, e'.sched.seqs, items, e.phase.sampled, w.isEos);
    CollectedIsNew(seqs, e'.sched.seqs, items, Collect(e'.sched.seqs, items));
  }

  lemma SameRange(a: seq<SeqState>, b: seq<SeqState>, items: seq<Item>)
    requires ItemsInRange(a, items) && |a| == |b|
    ensures ItemsInRange(b, items)
  {
  }

  lemma DistinctItems(seqs: seq<SeqState>, items: seq<Item>)
    requires Matches(seqs, items)
    ensures forall a: nat, b: nat :: a < b < |items| ==> items[a].who != items[b].who
  {
    hide ItemOk;
  }

  lemma StepDelivers(w: World, e: State)
    requires EngineInv(w, e) && e.phase.Idle? && Step(w, e).0 == Success
    ensures DeliversNew(e.sched.seqs, Step(w, e).1.sched.seqs, Step(w, e).2)
  {
    SchedulePhaseOk(w, e);
    hide EngineInv, SchedulePhase, RunPhase, FinishPhase, SameText, OnlyRngs, AllAdvanced, Collect, ItemsInRange, DeliversNew;
    SameFinished(e.sched.seqs, SchedulePhase(w, e).1.sched.seqs);
    if SchedulePhase(w, e).1.phase.Scheduled? {
      hide Step;
      var e1, e2 := StepStates(w, e);
      SameFinished(e1.sched.seqs, e2.sched.seqs);
      FinishDelivers(w, e2);
      DeliversSame(e1.sched.seqs, e2.sched.seqs, Step(w, e).1.sched.seqs, Step(w, e).2);
      DeliversSame(e.sched.seqs, e1.sched.seqs, Step(w, e).1.sched.seqs, Step(w, e).2);
    } else {
      assert DeliversNew(e.sched.seqs, SchedulePhase(w, e).1.sched.seqs, []) by {
        NothingNew(e.sched.seqs, SchedulePhase(w, e).1.sched.seqs);
      }
    }
  }

  lemma NothingNew(a: seq<SeqState>, b: seq<SeqState>)
    requires |a| == |b| && forall i: nat :: i < |a| ==> (a[i].status == Finished <==> b[i].status == Finished)
    ensures DeliversNew(a, b, [])
  {
  }

  // ---------------------------------------------------------------- all results of a run

  /** From the request after the first `first` ones on: exactly one result for every finished one. */
  ghost predicate Served(seqs: seq<SeqState>, first: nat, results: seq<Result>) {
    && DistinctIds(results)
    && (forall k: nat :: k < |results| ==> ResultIn(seqs, first, results[k]))
    && (forall j: nat :: first <= j < |seqs| && seqs[j].status == Finished ==> Delivers(results, j + 1))
  }

  lemma LaterResult(s: SeqState, t: SeqState)
    requires Later(s, t) && s.status == Finished
    ensures t.status == Finished && ResultOf(t) == ResultOf(s)
  {
  }

  /** Adding a step's results keeps the account. */
  lemma ServedStep(seqs: seq<SeqState>, seqs': seq<SeqState>, first: nat, results: seq<Result>, more: seq<Result>)
    requires Served(seqs, first, results) && DeliversNew(seqs, seqs', more) && AllLater(seqs, seqs')
    requires forall j: nat :: j < first && j < |seqs| ==> seqs[j].status == Finished
    ensures Served(seqs', first, results + more)
  {
    hide ResultOf, Later, Delivers, DistinctIds;
    var all := results + more;
    forall k: nat | k < |all| ensures ResultIn(seqs', first, all[k]) {
      if k < |results| {
        assert all[k] == results[k] && ResultIn(seqs, first, results[k]);
        assert Later(seqs[results[k].id - 1], seqs'[results[k].id - 1]);
        LaterResult(seqs[results[k].id - 1], seqs'[results[k].id - 1]);
      } else {
        assert all[k] == more[k - |results|];
      }
    }
    forall a: nat, b: nat | a < |results| && b < |more| ensures results[a].id != more[b].id {
      assert ResultIn(seqs, first, results[a]) && ResultIn(seqs', 0, more[b]);
    }
    DistinctConcat(results, more);
    forall j: nat | first <= j < |seqs'| && seqs'[j].status == Finished ensures Delivers(all, j + 1) {
      DeliversMore(results, more, j + 1);
    }
  }

  lemma DistinctConcat(a: seq<Result>, b: seq<Result>)
    requires DistinctIds(a) && DistinctIds(b)
    requires forall x: nat, y: nat :: x < |a| && y < |b| ==> a[x].id != b[y].id
    ensures DistinctIds(a + b)
  {
    forall x: nat, y: nat | x < y < |a + b| ensures (a + b)[x].id != (a + b)[y].id {
      if x >= |a| {
        assert b[x - |a|].id != b[y - |a|].id;
      }
    }
  }

  ghost predicate SortedById(results: seq<Result>) {
    forall a: nat, b: nat :: a < b < |results| ==> results[a].id < results[b].id
  }

  /** Ids that ascend from above `first` and include the next `k` ids start with them. */
  lemma {:induction false} IdsInOrder(results: seq<Result>, first: nat, k: nat)
    requires SortedById(results) && forall y: nat :: y < |results| ==> first < results[y].id
    requires forall id: nat :: first < id <= first + k ==> Delivers(results, id)
    ensures k <= |results| && forall a: nat :: a < k ==> results[a].id == first + a + 1
    decreases k
  {
    if k > 0 {
      IdsInOrder(results, first, k - 1);
      assert Delivers(results, first + k);
      var y: nat :| y < |results| && results[y].id == first + k;
      if y > k - 1 {
        NoneBeyond(results, first, k - 1);
      }
      assert y == k - 1;
    }
  }

  /** Once all have finished and the results are in id order, there is one for each request after the
      first `first` ones, in order of arrival. */
  lemma ServedInOrder(seqs: seq<SeqState>, first: nat, results: seq<Result>)
    requires Served(seqs, first, results) && SortedById(results) && first <= |seqs|
    requires forall j: nat :: first <= j < |seqs| ==> seqs[j].status == Finished
    ensures |results| == |seqs| - first
    ensures forall a: nat :: a < |results| ==> results[a] == ResultOf(seqs[first + a]) && results[a].id == first + a + 1
  {
    var n := |seqs| - first;
    hide ResultOf, Delivers;
    forall y: nat | y < |results| ensures first < results[y].id <= |seqs| {
      assert ResultIn(seqs, first, results[y]);
    }
    forall id: nat | first < id <= |seqs| ensures Delivers(results, id) {
      assert seqs[id - 1].status == Finished && Delivers(results, id - 1 + 1);
    }
    hide Served;
    IdsInOrder(results, first, n);
    if |results| > n {
      NoneBeyond(results, first, n);
    }
    forall a: nat | a < n ensures results[a] == ResultOf(seqs[first + a]) {
      assert ResultIn(seqs, first, results[a]) by {
        ServedAt(seqs, first, results, a);
      }
    }
  }

  lemma NoneBeyond(results: seq<Result>, first: nat, n: nat)
    requires SortedById(results) && n < |results| && forall a: nat :: a < n ==> results[a].id == first + a + 1
    requires results[n].id > first
    ensures results[n].id > first + n
  {
    assert n == 0 || results[n - 1].id < results[n].id;
  }

  lemma ServedAt(seqs: seq<SeqState>, first: nat, results: seq<Result>, k: nat)
    requires Served(seqs, first, results) && k < |results|
    ensures ResultIn(seqs, first, results[k])
  {
  }

  // ---------------------------------------------------------------- any run

  /** The results that an event hands out: only postprocess finishes requests. */
  ghost function Yield(w: World, e: State, event: Event): seq<Result>
    requires EngineInv(w, e)
  {
    if event.DoFinish? && e.phase.Ran? then (FinishPhaseOk(w, e); FinishPhase(w, e).2) else []
  }

  /** A run, with all the results it hands out on its way. */
  ghost predicate Yields(w: World, e: State, events: seq<Event>, e': State, results: seq<Result>)
    requires EngineInv(w, e) && RightUnlessCollision(w, e)
    decreases |events|
  {
    if events == [] then e' == e && results == []
    else
      && Move(w, e, events[0]).Some?
      && Yield(w, e, events[0]) <= results
      && (MoveOk(w, e, events[0]);
          Yields(w, Move(w, e, events[0]).value, events[1..], e', results[|Yield(w, e, events[0])|..]))
  }

  lemma ServedArrival(seqs: seq<SeqState>, s: SeqState, results: seq<Result>)
    requires Served(seqs, 0, results) && s.status != Finished
    ensures Served(seqs + [s], 0, results)
  {
    hide Delivers, DistinctIds, ResultOf;
    forall k: nat | k < |results| ensures ResultIn(seqs + [s], 0, results[k]) {
      assert ResultIn(seqs, 0, results[k]);
    }
  }

  lemma ServedSame(a: seq<SeqState>, b: seq<SeqState>, results: seq<Result>)
    requires Served(a, 0, results) && AllLater(a, b)
    requires |a| == |b| && forall i: nat :: i < |a| ==> (a[i].status == Finished <==> b[i].status == Finished)
    ensures Served(b, 0, results)
  {
    hide Served, AllLater;
    NothingNew(a, b);
    ServedStep(a, b, 0, results, []);
    assert results + [] == results;
  }

  /** Each event keeps the account: what has finished has been handed out, once. */
  lemma MoveServes(w: World, e: State, event: Event, results: seq<Result>)
    requires EngineInv(w, e) && Move(w, e, event).Some? && Served(e.sched.seqs, 0, results)
    ensures Served(Move(w, e, event).value.sched.seqs, 0, results + Yield(w, e, event))
  {
    var e' := Move(w, e, event).value;
    MoveLater(w, e, event);
    assert results + [] == results;
    hide EngineInv, SchedulePhase, RunPhase, FinishPhase, SameText, OnlyRngs, AllAdvanced, Collect, Arrive, ItemsInRange, CheckRequest, Served, DeliversNew, AllLater;
    match event
    case Arrival(prompt, sampling) =>
      ArriveOk(w, e, prompt, sampling);
      if CheckRequest(w.c, prompt, sampling) == Success {
        ServedArrival(e.sched.seqs, NewSequence(|e.sched.seqs| + 1, prompt, sampling), results);
      }
    case DoSchedule =>
      SchedulePhaseOk(w, e);
      SameFinished(e.sched.seqs, e'.sched.seqs);
      ServedSame(e.sched.seqs, e'.sched.seqs, results);
    case DoRun =>
      RunPhaseOk(w, e);
      SameFinished(e.sched.seqs, e'.sched.seqs);
      ServedSame(e.sched.seqs, e'.sched.seqs, results);
    case DoFinish =>
      FinishPhaseOk(w, e);
      FinishDelivers(w, e);
      ServedStep(e.sched.seqs, e'.sched.seqs, 0, results, FinishPhase(w, e).2);
  }

  lemma {:induction false} RunServes(w: World, e: State, before: seq<Result>, events: seq<Event>, e': State, results: seq<Result>)
    requires EngineInv(w, e) && RightUnlessCollision(w, e) && Served(e.sched.seqs, 0, before) && Yields(w, e, events, e', results)
    ensures Served(e'.sched.seqs, 0, before + results)
    decreases |events|
  {
    hide EngineInv, RightUnlessCollision, Move, Served, Yield;
    if events == [] {
      assert before + results == before;
    } else {
      var first := Yield(w, e, events[0]);
      MoveOk(w, e, events[0]);
      MoveServes(w, e, events[0], before);
      RunServes(w, Move(w, e, events[0]).value, before + first, events[1..], e', results[|first|..]);
      assert before + first + results[|first|..] == before + results;
    }
  }

  /** Over any run from the empty engine, whatever arrives between its phases, a request that has finished
      has been answered by exactly one result, with its whole completion, and any other by none. */
  lemma ExactlyOnce(w: World, e: State, events: seq<Event>, e': State, results: seq<Result>, i: nat)
    requires Initial(w, e) && EngineInv(w, e) && RightUnlessCollision(w, e)
    requires Yields(w, e, events, e', results) && i < |e'.sched.seqs|
    ensures DistinctIds(results)
    ensures e'.sched.seqs[i].status == Finished <==> Delivers(results, i + 1)
    ensures forall k: nat :: k < |results| && results[k].id == i + 1 ==> results[k] == ResultOf(e'.sched.seqs[i])
  {
    hide EngineInv, RightUnlessCollision, Initial, Yields;
    assert Served([], 0, []);
    assert e.sched.seqs == [] by {
      InitialEmpty(w, e);
    }
    RunServes(w, e, [], events, e', results);
    assert [] + results == results;
    hide ResultOf, DistinctIds;
  }

  lemma InitialEmpty(w: World, e: State)
    requires Initial(w, e)
    ensures e.sched.seqs == []
  {
  }
}
