/** init does not compare max_num_seqs with max_num_batched_tokens. Exactly when the first is the greater,
    some run of the engine ends in a batch that the runner refuses. */
module BatchLimits {
  import opened Common
  import opened Counting
  import opened Blocks
  import opened Sequences
  import opened BlockPool
  import opened BlockInvariants
  import opened PrefixCache
  import opened AllocationProofs
  import opened SchedulerSpec
  import opened SchedulerProofs
  import opened PostprocessProofs
  import opened ScheduleProofs
  import opened Attention
  import opened Transformer
  import opened PagedBatch
  import opened Generation
  import opened EngineSpec
  import opened RunProofs
  import opened RunPlanProofs
  import opened RequestProofs
  import opened BatchProofs
  import opened Engine
  import opened EngineProofs
  import opened StepProofs
  import opened ProgressProofs
  import opened RunningProofs
  import opened PlanProofs

  // ---------------------------------------------------------------- longer runs

  lemma {:induction false} ReachesMore(w: World, e: State, events: seq<Event>, e1: State, event: Event)
    requires EngineInv(w, e) && RightUnlessCollision(w, e) && Reaches(w, e, events, e1)
    requires EngineInv(w, e1) && Move(w, e1, event).Some?
    ensures Reaches(w, e, events + [event], Move(w, e1, event).value)
    decreases |events|
  {
    hide EngineInv, RightUnlessCollision, Move;
    var all := events + [event];
    if events == [] {
      MoveOk(w, e, event);
      assert all[0] == event && all[1..] == [];
    } else {
      MoveOk(w, e, events[0]);
      assert all[0] == events[0] && all[1..] == events[1..] + [event];
      ReachesMore(w, Move(w, e, events[0]).value, events[1..], e1, event);
    }
  }

  /** One move further along a run. */
  lemma Onward(w: World, e: State, events: seq<Event>, e1: State, event: Event)
    requires EngineInv(w, e) && RightUnlessCollision(w, e) && Reaches(w, e, events, e1)
    ensures EngineInv(w, e1) && RightUnlessCollision(w, e1)
    ensures Move(w, e1, event).Some? ==> Reaches(w, e, events + [event], Move(w, e1, event).value) && EngineInv(w, Move(w, e1, event).value)
  {
    hide EngineInv, RightUnlessCollision, Move;
    Reachable(w, e, events, e1);
    if Move(w, e1, event).Some? {
      MoveOk(w, e1, event);
      ReachesMore(w, e, events, e1, event);
    }
  }

  // ---------------------------------------------------------------- blocks in use

  ghost function TableTotal(seqs: seq<SeqState>): nat {
    if seqs == [] then 0 else TableTotal(seqs[..|seqs| - 1]) + |seqs[|seqs| - 1].table|
  }

  ghost function Named(table: seq<nat>): (r: set<nat>)
    ensures forall b: nat :: multiset(table)[b] > 0 ==> b in r
    ensures |r| <= |table|
  {
    if table == [] then {}
    else
      var n := |table| - 1;
      assert table == table[..n] + [table[n]];
      Named(table[..n]) + {table[n]}
  }

  ghost function Used(seqs: seq<SeqState>): (r: set<nat>)
    ensures forall b: nat :: Occ(seqs, b) > 0 ==> b in r
    ensures |r| <= TableTotal(seqs)
  {
    if seqs == [] then {} else
      Used(seqs[..|seqs| - 1]) + Named(seqs[|seqs| - 1].table)
  }

  /** Blocks that are not free stand in some table. */
  lemma FreeAtLeast(c: Config, p: Pool, seqs: seq<SeqState>)
    requires BlocksIdle(c, p, seqs)
    ensures |p.free| + TableTotal(seqs) >= c.numKvBlocks
  {
    hide TablesOk, IndexOk, OriginsOk, Occ, TableTotal;
    assert PoolOk(c, p, seqs);
    IdsCount(c.numKvBlocks);
    forall b: nat | b in Ids(c.numKvBlocks) ensures b in p.free + Used(seqs) {
      assert p.blocks[b].refCount == Occ(seqs, b);
    }
    SubsetCount(Ids(c.numKvBlocks), p.free + Used(seqs));
  }

  lemma {:induction false} TotalOfSingles(seqs: seq<SeqState>)
    requires forall i: nat :: i < |seqs| ==> |seqs[i].table| <= 1
    ensures TableTotal(seqs) <= |seqs|
    decreases |seqs|
  {
    if seqs != [] {
      TotalOfSingles(seqs[..|seqs| - 1]);
    }
  }

  // ---------------------------------------------------------------- one request more

  /** The request of the run: one token to start from, two to generate. */
  const TwoTokens := Sampling(2, 0.0, 1.0, true, 0)

  ghost predicate HasOne(s: SeqState) {
    s.status != Finished && |s.tokens| == 2 && s.promptSize == 1 && s.sampling == TwoTokens
  }

  /** All requests so far have had one of their two tokens, and are ready for the other. */
  ghost predicate Lined(w: World, e: State, n: nat) {
    && EngineInv(w, e) && e.phase.Idle? && e.sched.waiting == [] && |e.sched.seqs| == n
    && forall i: nat :: i < n ==> HasOne(e.sched.seqs[i])
  }

  lemma LinedTables(w: World, e: State, n: nat)
    requires Lined(w, e, n)
    ensures forall i: nat :: i < n ==> i in e.sched.running && |e.sched.seqs[i].table| == 1
    ensures |e.sched.pool.free| + n >= w.c.numKvBlocks
  {
    hide BlocksIdle, RequestsOk, Numbered, NumBlocks;
    NumBlocksSucc(0, w.c.blockSize);
    DivUnique(0, 0, w.c.blockSize);
    forall i: nat | i < n ensures i in e.sched.running && |e.sched.seqs[i].table| == 1 {
      assert SeqOk(w.c, e.sched.seqs[i], RoleOf(e.sched, i));
    }
    FreeAtLeast(w.c, e.sched.pool, e.sched.seqs);
    TotalOfSingles(e.sched.seqs);
  }

  /** schedule admits a lone prompt of one token and plans nothing else. */
  lemma LoneToken(c: Config, st: Sched, i: nat)
    requires Inv(c, st) && WellFormed(st) && Quiet(st.seqs) && st.waiting == [i] && st.pool.free != {}
    requires i < |st.seqs| && st.seqs[i].table == [] && st.seqs[i].cached == 0 && |st.seqs[i].tokens| == 1
    ensures Schedule(c, st).0 == Success && Schedule(c, st).1.waiting == []
    ensures Schedule(c, st).2 == Plan(true, 1, [Item(i, 0, 1)])
  {
    var s := st.seqs[i];
    NumBlocksSucc(0, c.blockSize);
    DivUnique(0, 0, c.blockSize);
    assert NumBlocks(1, c.blockSize) == 1;
    NotEmptySet(st.pool.free);
    assert CanAllocate(c, st.pool, s.tokens) == (true, 0);
    AllocateOk(c, st.pool, st.seqs, i, 0);
    hide Inv, WellFormed, Quiet, CanAllocate, Allocate, NumBlocks, BlocksIdle;
    var (status, p, t) := Allocate(c, st.pool, s, 0);
    var st1 := Put(st, i, p, t);
    assert Admit(c, st, i) == (Some(Success), st1);
    var r := Prefill1(c, st, [], 0);
    assert r.again && r.status == Success && r.st.waiting == [] && r.items == [Item(i, 0, 1)] && r.batched == 1;
    hide Prefill1;
    assert Prefill(c, st, [], 0) == (Success, r.st, r.items, r.batched);
  }

  lemma NotEmptySet(s: set<nat>)
    requires s != {}
    ensures |s| >= 1
  {
    var x :| x in s;
    assert |s - {x}| >= 0;
  }

  /** A plan of one prompt of one token passes the runner's checks in any context. */
  lemma OneRowRuns(w: World, e: State, n: nat)
    requires EngineInv(w, e) && e.phase == Scheduled(Plan(true, 1, [Item(n, 0, 1)])) && w.contextLen > 0
    requires n < |e.sched.seqs| && |e.sched.seqs[n].tokens| == 1
    ensures RunPhase(w, e).0 == Success
  {
    OnePlace(n);
    RunReady(w, e);
    hide Inv, PlanOk, RequestsOk, WellFormed, CheckBatch, SampleUpTo, ForwardBatch, BatchRows, Places, SampleRows,
      RowsCover, RowsOk, PlacesOk, CacheOk, ItemsOk, AllOrComplete, RunPhase, Total;
    RunUnroll(w, e);
    VerdictInContext(w, e.sched, e.phase.plan);
  }

  lemma OnePlace(n: nat)
    ensures Places([Item(n, 0, 1)]) == [Place(n, 0)]
  {
    var items := [Item(n, 0, 1)];
    assert items[..0] == [] && Places(items[..0]) == [];
    assert ItemPlaces(items[0], 0) == [] && ItemPlaces(items[0], 1) == [] + [Place(n, 0)];
  }

  /** A batch is refused for its size exactly if its plan has more tokens than max_num_batched_tokens. */
  lemma RefusedForSize(w: World, e: State)
    requires EngineInv(w, e) && e.phase.Scheduled?
    ensures RunPhase(w, e).0 == Failure(BatchCountInvalid) <==> e.phase.plan.numTokens > w.c.maxNumBatchedTokens
  {
    RunReady(w, e);
    var seqs, plan := e.sched.seqs, e.phase.plan;
    NonEmptyTotal(plan.items);
    hide Inv, RequestsOk, WellFormed, SampleUpTo, ForwardBatch, BatchRows, Places, SampleRows, CheckRows,
      RowsCover, RowsOk, PlacesOk, CacheOk, ItemsOk, AllOrComplete, RunPhase, Total;
    RunUnroll(w, e);
    RowErrors(w, BatchRows(seqs, Places(plan.items)));
  }

  /** A sequence of one token that is computed gets its first and is not done. */
  lemma FirstToken(s: SeqState, t: SeqState, token: Token, isEos: Token -> bool)
    requires Advanced(s, t, token, isEos) && |s.tokens| == 1 && s.promptSize == 1 && s.sampling == TwoTokens && s.cached == 0 && s.scheduled == 1
    ensures HasOne(t)
  {
  }

  /** From the line of `n` to the line of `n + 1`: a request arrives, and one step serves it. */
  lemma LineUp(w: World, e: State, events: seq<Event>, e1: State, n: nat) returns (events': seq<Event>, e': State)
    requires EngineInv(w, e) && RightUnlessCollision(w, e) && Reaches(w, e, events, e1) && Lined(w, e1, n)
    requires w.c.maxModelLen >= 2 && w.contextLen > 0 && n < w.c.numKvBlocks
    ensures Reaches(w, e, events', e') && Lined(w, e', n + 1)
  {
    var e2 := LineArrives(w, e1, n);
    var e3 := LineScheduled(w, e2, n);
    var e4 := LineRun(w, e3, n);
    e' := LineFinished(w, e4, n);
    hide EngineInv, RightUnlessCollision, Move, Lined;
    Onward(w, e, events, e1, Arrival([0], TwoTokens));
    var events2 := events + [Arrival([0], TwoTokens)];
    Onward(w, e, events2, e2, DoSchedule);
    var events3 := events2 + [DoSchedule];
    Onward(w, e, events3, e3, DoRun);
    var events4 := events3 + [DoRun];
    Onward(w, e, events4, e4, DoFinish);
    events' := events4 + [DoFinish];
  }

  /** The request that has just arrived, behind the line. */
  ghost predicate Arrived(s: SeqState) {
    s.status != Finished && |s.tokens| == 1 && s.promptSize == 1 && s.sampling == TwoTokens
  }

  lemma LineArrives(w: World, e: State, n: nat) returns (e': State)
    requires Lined(w, e, n) && w.c.maxModelLen >= 2 && n < w.c.numKvBlocks
    ensures Move(w, e, Arrival([0], TwoTokens)) == Some(e') && EngineInv(w, e') && e'.phase.Idle?
    ensures |e'.sched.seqs| == n + 1 && e'.sched.waiting == [n] && e'.sched.pool.free != {}
    ensures Arrived(e'.sched.seqs[n]) && e'.sched.seqs[n].table == [] && e'.sched.seqs[n].cached == 0
    ensures forall i: nat :: i < n ==> HasOne(e'.sched.seqs[i])
  {
    LinedTables(w, e, n);
    ArriveOk(w, e, [0], TwoTokens);
    e' := Arrive(w, e, [0], TwoTokens).1;
    hide EngineInv;
  }

  lemma LineScheduled(w: World, e: State, n: nat) returns (e': State)
    requires EngineInv(w, e) && e.phase.Idle? && |e.sched.seqs| == n + 1 && e.sched.waiting == [n] && e.sched.pool.free != {}
    requires Arrived(e.sched.seqs[n]) && e.sched.seqs[n].table == [] && e.sched.seqs[n].cached == 0
    requires forall i: nat :: i < n ==> HasOne(e.sched.seqs[i])
    ensures Move(w, e, DoSchedule) == Some(e') && EngineInv(w, e')
    ensures e'.phase == Scheduled(Plan(true, 1, [Item(n, 0, 1)])) && e'.sched.waiting == []
    ensures |e'.sched.seqs| == n + 1 && Arrived(e'.sched.seqs[n])
    ensures forall i: nat :: i < n ==> HasOne(e'.sched.seqs[i])
  {
    assert Inv(w.c, e.sched) && WellFormed(e.sched) && Quiet(e.sched.seqs);
    SchedulePhaseOk(w, e);
    e' := SchedulePhase(w, e).1;
    hide EngineInv, Inv, WellFormed, Quiet, Schedule, HasOne, Arrived;
    LoneToken(w.c, e.sched, n);
    SameLine(e.sched.seqs, e'.sched.seqs, n);
  }

  lemma SameLine(a: seq<SeqState>, b: seq<SeqState>, n: nat)
    requires SameText(a, b) && |a| == n + 1 && Arrived(a[n]) && forall i: nat :: i < n ==> HasOne(a[i])
    ensures |b| == n + 1 && Arrived(b[n]) && forall i: nat :: i < n ==> HasOne(b[i])
  {
    forall i: nat | i < n ensures HasOne(b[i]) {
      assert SameRequest(a[i], b[i]);
    }
    assert SameRequest(a[n], b[n]);
  }

  lemma LineRun(w: World, e: State, n: nat) returns (e': State)
    requires EngineInv(w, e) && e.phase == Scheduled(Plan(true, 1, [Item(n, 0, 1)])) && e.sched.waiting == []
    requires w.contextLen > 0 && |e.sched.seqs| == n + 1 && Arrived(e.sched.seqs[n])
    requires forall i: nat :: i < n ==> HasOne(e.sched.seqs[i])
    ensures Move(w, e, DoRun) == Some(e') && EngineInv(w, e') && e'.phase.Ran? && e'.phase.plan == Plan(true, 1, [Item(n, 0, 1)])
    ensures e'.sched.waiting == [] && |e'.sched.seqs| == n + 1 && Arrived(e'.sched.seqs[n])
    ensures forall i: nat :: i < n ==> HasOne(e'.sched.seqs[i])
  {
    OneRowRuns(w, e, n);
    RunPhaseOk(w, e);
    e' := RunPhase(w, e).1;
    hide EngineInv, RunPhase;
    forall i: nat | i < n ensures HasOne(e'.sched.seqs[i]) {
      assert OnlyRng(e.sched.seqs[i], e'.sched.seqs[i]);
    }
    assert OnlyRng(e.sched.seqs[n], e'.sched.seqs[n]);
  }

  lemma LineItem(w: World, e: State, n: nat)
    requires EngineInv(w, e) && e.phase.Ran? && e.phase.plan == Plan(true, 1, [Item(n, 0, 1)]) && n < |e.sched.seqs| && Arrived(e.sched.seqs[n])
    ensures WellFormed(e.sched)
    ensures var s := e.sched.seqs[n];
      |s.tokens| == 1 && s.promptSize == 1 && s.sampling == TwoTokens && s.cached == 0 && s.scheduled == 1
  {
    assert ItemOk(e.sched.seqs, e.phase.plan.items[0]);
    hide Inv, RequestsOk, WellFormed, TokensFit;
  }

  lemma LineFinished(w: World, e: State, n: nat) returns (e': State)
    requires EngineInv(w, e) && e.phase.Ran? && e.phase.plan == Plan(true, 1, [Item(n, 0, 1)]) && e.sched.waiting == []
    requires |e.sched.seqs| == n + 1 && Arrived(e.sched.seqs[n]) && forall i: nat :: i < n ==> HasOne(e.sched.seqs[i])
    ensures Move(w, e, DoFinish) == Some(e') && Lined(w, e', n + 1)
  {
    hide EngineInv, FinishPhase, HasOne, Arrived, Collect;
    var items := e.phase.plan.items;
    LineItem(w, e, n);
    FinishPhaseOk(w, e);
    e' := FinishPhase(w, e).1;
    assert Advanced(e.sched.seqs[n], e'.sched.seqs[n], e.phase.sampled[0], w.isEos);
    FirstToken(e.sched.seqs[n], e'.sched.seqs[n], e.phase.sampled[0], w.isEos);
    forall i: nat | i < n ensures HasOne(e'.sched.seqs[i]) {
      assert !Planned(items, i);
    }
  }

  /** A line of any length that the pool has a block for. */
  lemma {:induction false} LongLine(w: World, e: State, n: nat) returns (events: seq<Event>, e': State)
    requires Initial(w, e) && w.c.maxModelLen >= 2 && w.contextLen > 0 && n <= w.c.numKvBlocks
    ensures EngineInv(w, e) && RightUnlessCollision(w, e) && Reaches(w, e, events, e') && Lined(w, e', n)
    decreases n
  {
    InitialOk(w, e);
    if n == 0 {
      events, e' := [], e;
    } else {
      var events1, e1 := LongLine(w, e, n - 1);
      events, e' := LineUp(w, e, events1, e1, n - 1);
    }
  }

  // ---------------------------------------------------------------- the decode plan

  lemma RunningAll(running: seq<nat>, n: nat)
    requires forall i: nat :: i < n ==> i in running
    ensures n <= |running|
  {
    forall b: nat | b in Ids(n) ensures b in Members(running, |running|) {
      assert b in running;
      var a :| 0 <= a < |running| && running[a] == b;
      var k: nat := a;
      assert k < |running| && running[k] == b;
    }
    IdsCount(n);
    SubsetCount(Ids(n), Members(running, |running|));
    MembersAtMost(running, |running|);
  }

  lemma {:induction false} MembersAtMost(s: seq<nat>, k: nat)
    requires k <= |s|
    ensures |Members(s, k)| <= k
  {
    if k > 0 {
      MembersAtMost(s, k - 1);
    }
  }

  /** The whole line is planned at once, as far as max_num_seqs lets it. */
  lemma LinePlanned(w: World, e: State, n: nat) returns (e': State)
    requires Lined(w, e, n) && 0 < n <= w.c.maxNumSeqs && n * NumBlocks(2, w.c.blockSize) <= w.c.numKvBlocks
    ensures Move(w, e, DoSchedule) == Some(e') && EngineInv(w, e') && e'.phase.Scheduled? && e'.phase.plan.numTokens >= n
  {
    var st := e.sched;
    assert Inv(w.c, st) && WellFormed(st) && RequestsOk(w.c, st.seqs);
    LinedTables(w, e, n);
    RunningAll(st.running, n);
    RunningOnly(w.c, st, n);
    LineProvided(w, e, n);
    assert Distinct(st.running) && st.running[..n] == st.running;
    assert Prefill(w.c, st, [], 0) == (Success, st, [], 0);
    forall i: nat | i < |st.seqs| ensures st.seqs[i].tokens != [] {
      assert HasOne(st.seqs[i]);
    }
    DecodeAllExactly(w.c, st, [], |st.running|, false);
    SchedulePhaseOk(w, e);
    e' := SchedulePhase(w, e).1;
    hide EngineInv, Inv, WellFormed, Decode, Prefill;
  }

  lemma LineProvided(w: World, e: State, n: nat)
    requires Lined(w, e, n) && n * NumBlocks(2, w.c.blockSize) <= w.c.numKvBlocks && |e.sched.running| == n
    ensures forall a: nat :: a < n ==> e.sched.running[a] < |e.sched.seqs|
    ensures Needing(w.c, e.sched.seqs, e.sched.running) <= |e.sched.pool.free|
  {
    var running := e.sched.running;
    LinedTables(w, e, n);
    assert WellFormed(e.sched);
    NumBlocksSucc(1, w.c.blockSize);
    NeedingAtMost(w.c, e.sched.seqs, running);
    if w.c.blockSize > 1 {
      DivUnique(1, 0, w.c.blockSize);
      forall a: nat | a < n ensures !NeedsBlock(w.c, e.sched.seqs[running[a]]) {
        assert HasOne(e.sched.seqs[running[a]]);
      }
    }
    hide EngineInv, NumBlocks, NeedsBlock;
  }

  lemma RunningOnly(c: Config, st: Sched, n: nat)
    requires Inv(c, st) && |st.seqs| == n
    ensures |st.running| <= n
  {
    hide BlocksIdle, SeqsOk;
    forall a: nat | a < |st.running| ensures st.running[a] < n {
      assert st.running[a] in st.running;
    }
    Pigeonhole(st.running, n);
  }

  // ---------------------------------------------------------------- exactly when

  /** A run from the empty engine to a plan that the runner refuses for its size. */
  ghost predicate RefusedRun(w: World, e: State, events: seq<Event>, e': State)
    requires EngineInv(w, e) && RightUnlessCollision(w, e)
  {
    Reaches(w, e, events, e') && EngineInv(w, e') && e'.phase.Scheduled? && RunPhase(w, e').0 == Failure(BatchCountInvalid)
  }

  /** With max_num_seqs within max_num_batched_tokens no batch of any run is refused for its size, in any
      context. */
  lemma NeverRefused(w: World, e: State)
    requires EngineInv(w, e) && e.phase.Scheduled? && w.c.maxNumSeqs <= w.c.maxNumBatchedTokens
    ensures RunPhase(w, e).0 != Failure(BatchCountInvalid)
  {
    RefusedForSize(w, e);
    PlanSize(w, e);
    hide EngineInv, RunPhase;
  }

  lemma PlanSize(w: World, e: State)
    requires EngineInv(w, e) && e.phase.Scheduled?
    ensures e.phase.plan.isPrefill ==> e.phase.plan.numTokens <= w.c.maxNumBatchedTokens
    ensures !e.phase.plan.isPrefill ==> e.phase.plan.numTokens == |e.phase.plan.items| <= w.c.maxNumSeqs
  {
    hide Inv, Matches, RequestsOk, WellFormed, Total;
  }

  lemma {:induction false} RowErrors(w: World, rows: seq<Row>)
    ensures CheckRows(w, rows) != Failure(BatchCountInvalid)
    decreases |rows|
  {
    if rows != [] {
      RowErrors(w, rows[1..]);
    }
  }

  /** The configurations in which an oversized batch can come up: a request may be given two tokens, and
      there are more sequences to a plan than tokens to a batch, with blocks for two tokens of each. */
  predicate MayOverfill(c: Config) {
    c.maxModelLen >= 2 && c.maxNumSeqs > c.maxNumBatchedTokens && (c.maxNumBatchedTokens + 1) * NumBlocks(2, c.blockSize) <= c.numKvBlocks
  }

  lemma RefusedWhenMore(w: World, e: State) returns (events: seq<Event>, e': State)
    requires Initial(w, e) && w.contextLen > 0 && MayOverfill(w.c)
    ensures EngineInv(w, e) && RightUnlessCollision(w, e) && RefusedRun(w, e, events, e')
  {
    var n: nat := w.c.maxNumBatchedTokens + 1;
    NumBlocksSucc(1, w.c.blockSize);
    DivBounds(1, w.c.blockSize);
    MulMono(1, NumBlocks(2, w.c.blockSize), n);
    assert n <= w.c.numKvBlocks;
    var events1, e1 := LongLine(w, e, n);
    e' := LinePlanned(w, e1, n);
    hide EngineInv, RightUnlessCollision, Move, Lined, RunPhase, Initial;
    Onward(w, e, events1, e1, DoSchedule);
    events := events1 + [DoSchedule];
    RefusedForSize(w, e');
  }

  /** A refused batch is one of a decode plan, whose sequences have taken their blocks. */
  lemma RefusedNeeds(w: World, e: State)
    requires EngineInv(w, e) && Tidy(w, e) && e.phase.Scheduled? && RunPhase(w, e).0 == Failure(BatchCountInvalid)
    ensures MayOverfill(w.c)
  {
    hide EngineInv, Tidy, RunPhase, NumBlocks;
    RefusedForSize(w, e);
    PlanSize(w, e);
    DecodeNeeds(w, e);
    DecodeLength(w, e);
    MulMono(w.c.maxNumBatchedTokens + 1, |e.phase.plan.items|, NumBlocks(2, w.c.blockSize));
  }

  /** Some run from the empty engine ends in a batch that the runner refuses for its size exactly if
      max_num_seqs is greater than max_num_batched_tokens, a request may have two tokens, and the pool has
      blocks for two tokens of one sequence more than max_num_batched_tokens. */
  lemma RefusedExactly(w: World, e: State)
    requires Initial(w, e) && w.contextLen > 0
    ensures EngineInv(w, e) && RightUnlessCollision(w, e)
    ensures (exists events, e' :: RefusedRun(w, e, events, e')) <==> MayOverfill(w.c)
  {
    InitialOk(w, e);
    InitialTidy(w, e);
    hide EngineInv, RightUnlessCollision, Initial, RunPhase, Tidy, MayOverfill;
    if MayOverfill(w.c) {
      var events, e' := RefusedWhenMore(w, e);
    }
    forall events, e' | RefusedRun(w, e, events, e') ensures MayOverfill(w.c) {
      ReachesTidy(w, e, events, e');
      RefusedNeeds(w, e');
    }
  }
}
