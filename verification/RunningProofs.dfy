/** What running sequences have in their tables, over whole runs: between steps each has been given a token,
    and the last blocks of any two of them differ. So a decode plan needs blocks of its own for every
    sequence, as many as two tokens take. */
module RunningProofs {
  import opened Common
  import opened Counting
  import opened Blocks
  import opened Sequences
  import opened BlockPool
  import opened BlockInvariants
  import opened PrefixCache
  import opened AllocationProofs
  import opened SchedulerSpec
  import opened SchedulerProofs
  import opened PostprocessProofs
  import opened ScheduleProofs
  import opened Attention
  import opened Transformer
  import opened PagedBatch
  import opened Generation
  import opened EngineSpec
  import opened RunProofs
  import opened RunPlanProofs
  import opened RequestProofs
  import opened BatchProofs
  import opened Engine
  import opened EngineProofs
  import opened StepProofs

  // ---------------------------------------------------------------- the tables that schedule leaves

  /** Every sequence that runs afterwards ran before, and has the blocks it had. */
  ghost predicate TablesGrow(a: Sched, b: Sched) {
    && |a.seqs| == |b.seqs|
    && forall j: nat :: j in b.running && j < |b.seqs| ==> j in a.running && a.seqs[j].table <= b.seqs[j].table
  }

  lemma GrowTrans(a: Sched, b: Sched, d: Sched)
    requires TablesGrow(a, b) && TablesGrow(b, d)
    ensures TablesGrow(a, d)
  {
  }

  lemma DecodeOne(c: Config, st: Sched, items: seq<Item>)
    requires WellFormed(st) && st.running != [] && QueuesOk(st)
    ensures TablesGrow(st, Decode1(c, st, items).0) && QueuesOk(Decode1(c, st, items).0)
  {
    var i := st.running[0];
    var rest := st.running[1..];
    assert TableInRange(st.pool, st.seqs[i].table);
    assert forall j: nat :: j in st.running <==> j == i || j in rest;
    assert i in st.running;
    if CanAppend(c, st.pool, st.seqs[i]) {
      AppendGrows(c, st.pool, st.seqs[i]);
    }
    RotatedDistinct(st.running);
    FrontDistinct(st.waiting, i);
    hide CanAppend, MayAppend, Deallocate, Distinct;
  }

  lemma FrontDistinct(q: seq<nat>, i: nat)
    requires Distinct(q) && i !in q
    ensures Distinct([i] + q)
  {
  }

  lemma RotatedDistinct(q: seq<nat>)
    requires q != [] && Distinct(q)
    ensures Distinct(q[1..]) && Distinct(q[1..] + [q[0]]) && q[0] !in q[1..]
  {
  }

  lemma AppendGrows(c: Config, p: Pool, s: SeqState)
    requires InRange(p)
    ensures s.table <= MayAppend(c, p, s).2.table
  {
  }

  lemma {:induction false} DecodeGrows(c: Config, st: Sched, items: seq<Item>, left: nat, preempted: bool)
    requires WellFormed(st) && left <= |st.running| && QueuesOk(st)
    ensures TablesGrow(st, Decode(c, st, items, left, preempted).0) && QueuesOk(Decode(c, st, items, left, preempted).0)
    decreases left
  {
    hide Decode1, WellFormed, TablesGrow, QueuesOk;
    GrowSelf(st);
    if left > 0 && |items| < c.maxNumSeqs {
      DecodeOne(c, st, items);
      var (st1, items1, out) := Decode1(c, st, items);
      DecodeGrows(c, st1, items1, left - 1, preempted || out);
      GrowTrans(st, st1, Decode(c, st1, items1, left - 1, preempted || out).0);
    }
  }

  lemma GrowSelf(st: Sched)
    ensures TablesGrow(st, st)
  {
  }

  /** Every sequence that runs afterwards is scheduled, or ran before and has the table it had. */
  ghost predicate NewScheduled(a: Sched, b: Sched) {
    && |a.seqs| == |b.seqs|
    && forall j: nat :: j in b.running && j < |b.seqs| ==> b.seqs[j].scheduled > 0 || (j in a.running && a.seqs[j].table == b.seqs[j].table)
  }

  lemma PrefillOne(c: Config, st: Sched, items: seq<Item>, batched: nat)
    requires WellFormed(st) && QueuesOk(st) && st.waiting != [] && batched <= c.maxNumBatchedTokens
    ensures var r := Prefill1(c, st, items, batched);
      && |r.st.seqs| == |st.seqs| && QueuesOk(r.st)
      && forall j: nat :: j in r.st.running && j < |st.seqs| ==>
           (j in st.running && r.st.seqs[j] == st.seqs[j]) || (j !in st.running && r.st.seqs[j].scheduled > 0)
  {
    var i := st.waiting[0];
    var st1 := Admit(c, st, i).1;
    AdmitOnly(c, st, i);
    assert i in st.waiting;
    hide Admit, WellFormed;
    var r := Prefill1(c, st, items, batched);
    if |r.items| > |items| && r.again {
      var running := st.running + [i];
      assert r.st.running == running && r.st.waiting == st.waiting[1..];
      DistinctSnoc(st.running, i);
      TailDistinct(st.waiting);
      assert forall j: nat :: j in running <==> j in st.running || j == i;
    }
  }

  lemma TailDistinct(q: seq<nat>)
    requires q != [] && Distinct(q)
    ensures Distinct(q[1..]) && forall j: nat :: j in q[1..] <==> j in q && j != q[0]
  {
    assert forall j: nat :: j in q <==> j == q[0] || j in q[1..];
  }

  lemma AdmitOnly(c: Config, st: Sched, i: nat)
    requires WellFormed(st) && i < |st.seqs|
    ensures var st1 := Admit(c, st, i).1;
      |st1.seqs| == |st.seqs| && forall j: nat :: j < |st.seqs| && j != i ==> st1.seqs[j] == st.seqs[j]
  {
    hide CanAllocate, Allocate;
  }

  lemma {:induction false} PrefillNew(c: Config, st: Sched, items: seq<Item>, batched: nat)
    requires WellFormed(st) && QueuesOk(st) && batched <= c.maxNumBatchedTokens
    ensures var st' := Prefill(c, st, items, batched).1;
      && |st'.seqs| == |st.seqs| && QueuesOk(st')
      && forall j: nat :: j in st'.running && j < |st.seqs| ==>
           (j in st.running && st'.seqs[j] == st.seqs[j]) || (j !in st.running && st'.seqs[j].scheduled > 0)
    decreases |st.waiting|
  {
    hide WellFormed, QueuesOk;
    if st.waiting != [] && |items| < c.maxNumSeqs {
      PrefillOne(c, st, items, batched);
      var r := Prefill1(c, st, items, batched);
      hide Prefill1;
      if r.again {
        PrefillNew(c, r.st, r.items, r.batched);
      }
    }
  }

  /** What schedule leaves: a prefill plan starts sequences and keeps the tables of those that ran; a decode
      plan is for sequences that ran, whose tables it may extend. */
  ghost predicate TablesAfter(st: Sched, r: (Status, Sched, Plan)) {
    r.0 == Success ==> if r.2.isPrefill then NewScheduled(st, r.1) else TablesGrow(st, r.1)
  }

  lemma {:induction false} ScheduleTables(c: Config, st: Sched)
    requires WellFormed(st) && QueuesOk(st)
    ensures TablesAfter(st, Schedule(c, st))
    decreases |st.running|
  {
    hide Prefill, Decode, WellFormed, QueuesOk, TablesGrow, NewScheduled;
    var (status, st1, items, batched) := Prefill(c, st, [], 0);
    PrefillTables(c, st);
    if status == Success && items == [] {
      DecodeGrows(c, st1, [], |st1.running|, false);
      var (st2, items2, preempted) := Decode(c, st1, [], |st1.running|, false);
      GrowTrans(st, st1, st2);
      if items2 == [] && !IsFinished(st2) && preempted {
        ScheduleTables(c, st2);
        AfterNone(st, st2, Schedule(c, st2));
      }
    }
  }

  lemma PrefillTables(c: Config, st: Sched)
    requires WellFormed(st) && QueuesOk(st)
    ensures var (status, st1, items, batched) := Prefill(c, st, [], 0);
      QueuesOk(st1) && NewScheduled(st, st1) && (items == [] ==> TablesGrow(st, st1))
  {
    hide Prefill, WellFormed;
    PrefillNew(c, st, [], 0);
    RunningInRange(Prefill(c, st, [], 0).1);
    hide QueuesOk;
  }

  /** After a round that preempted everything, the call that follows starts from nothing running. */
  lemma AfterNone(st: Sched, st2: Sched, r: (Status, Sched, Plan))
    requires TablesGrow(st, st2) && st2.running == [] && TablesAfter(st2, r)
    ensures TablesAfter(st, r)
  {
  }

  lemma RunningInRange(st: Sched)
    requires QueuesOk(st)
    ensures forall j: nat :: j in st.running ==> j < |st.seqs|
  {
  }

  // ---------------------------------------------------------------- what every run keeps

  ghost predicate Runs(st: Sched, j: nat) {
    j in st.running && j < |st.seqs|
  }

  /** The block of a sequence's last position so far. */
  function Tip(s: SeqState): nat {
    if s.table == [] then 0 else s.table[|s.table| - 1]
  }

  /** Running sequences have blocks, and the last ones of any two of them differ. */
  ghost predicate TipsApart(st: Sched) {
    && (forall j: nat :: Runs(st, j) ==> st.seqs[j].table != [])
    && forall j: nat, k: nat :: Runs(st, j) && Runs(st, k) && j != k ==> Tip(st.seqs[j]) != Tip(st.seqs[k])
  }

  /** A running sequence that is not planned has been given a token. */
  ghost predicate Begun(st: Sched) {
    forall j: nat :: Runs(st, j) && st.seqs[j].scheduled == 0 ==> |st.seqs[j].tokens| >= 2
  }

  /** The entry before the last. */
  function Below(s: SeqState): nat {
    if |s.table| < 2 then 0 else s.table[|s.table| - 2]
  }

  /** The sequences of a decode plan run and have two tokens or more; if every token takes a block, their
      last two blocks are their own. */
  ghost predicate DecodeReady(c: Config, st: Sched, items: seq<Item>) {
    && (forall a: nat :: a < |items| ==> Runs(st, items[a].who) && |st.seqs[items[a].who].tokens| >= 2)
    && (c.blockSize == 1 ==>
          && (forall a: nat :: a < |items| ==> |st.seqs[items[a].who].table| >= 2)
          && (forall a: nat, b: nat :: a < b < |items| ==> Below(st.seqs[items[a].who]) != Below(st.seqs[items[b].who])))
  }

  ghost predicate Tidy(w: World, e: State) {
    && TipsApart(e.sched) && Begun(e.sched)
    && (e.phase.Scheduled? && !e.phase.plan.isPrefill ==> DecodeReady(w.c, e.sched, e.phase.plan.items))
  }

  // ---------------------------------------------------------------- schedule keeps it

  /** A planned running sequence has a last block of its own. */
  lemma PlannedTip(c: Config, st: Sched, j: nat)
    requires Inv(c, st) && Runs(st, j) && st.seqs[j].scheduled > 0
    ensures var s := st.seqs[j];
      && s.table != [] && |s.table| == NumBlocks(|s.tokens|, c.blockSize) && |s.tokens| > 0
      && forall k: nat, y: nat :: k < |st.seqs| && y < |st.seqs[k].table| && (k != j || y != |s.table| - 1) ==> st.seqs[k].table[y] != Tip(s)
  {
    var s := st.seqs[j];
    assert SeqOk(c, s, RoleOf(st, j));
    hide BlocksIdle, SeqsOk, QueuesOk;
    NumBlocksSucc(|s.tokens| - 1, c.blockSize);
    DivMono(s.cached, |s.tokens| - 1, c.blockSize);
    DivBounds(s.cached, c.blockSize);
    OwnBlock(c, st.pool, st.seqs, j, |s.table| - 1);
  }

  lemma IdleTable(c: Config, st: Sched, j: nat)
    requires Inv(c, st) && Runs(st, j) && st.seqs[j].scheduled == 0
    ensures |st.seqs[j].tokens| > 0 && |st.seqs[j].table| == NumBlocks(|st.seqs[j].tokens| - 1, c.blockSize)
  {
    hide BlocksIdle;
    assert SeqOk(c, st.seqs[j], RoleOf(st, j));
  }

  /** A running sequence that schedule leaves out has the table it had. */
  lemma LeftOut(c: Config, st: Sched, r: (Status, Sched, Plan), j: nat)
    requires Inv(c, st) && Inv(c, r.1) && Quiet(st.seqs) && SameText(st.seqs, r.1.seqs) && r.0 == Success && TablesAfter(st, r)
    requires Runs(r.1, j) && r.1.seqs[j].scheduled == 0
    ensures Runs(st, j) && st.seqs[j].scheduled == 0 && r.1.seqs[j].table == st.seqs[j].table && r.1.seqs[j].tokens == st.seqs[j].tokens
  {
    hide Inv, NumBlocks;
    assert SameRequest(st.seqs[j], r.1.seqs[j]);
    IdleTable(c, r.1, j);
    IdleTable(c, st, j);
  }

  lemma ScheduleTips(c: Config, st: Sched, r: (Status, Sched, Plan))
    requires Inv(c, st) && Inv(c, r.1) && Quiet(st.seqs) && SameText(st.seqs, r.1.seqs) && r.0 == Success && TablesAfter(st, r)
    requires TipsApart(st) && Begun(st)
    ensures TipsApart(r.1) && Begun(r.1)
  {
    hide Inv, Quiet, SameText, TablesAfter, NumBlocks;
    forall j: nat | Runs(r.1, j)
      ensures r.1.seqs[j].table != []
      ensures r.1.seqs[j].scheduled == 0 ==> |r.1.seqs[j].tokens| >= 2
    {
      if r.1.seqs[j].scheduled > 0 {
        PlannedTip(c, r.1, j);
      } else {
        LeftOut(c, st, r, j);
      }
    }
    forall j: nat, k: nat | Runs(r.1, j) && Runs(r.1, k) && j != k ensures Tip(r.1.seqs[j]) != Tip(r.1.seqs[k]) {
      if r.1.seqs[j].scheduled > 0 {
        PlannedTip(c, r.1, j);
      } else if r.1.seqs[k].scheduled > 0 {
        PlannedTip(c, r.1, k);
      } else {
        LeftOut(c, st, r, j);
        LeftOut(c, st, r, k);
      }
    }
  }

  /** With a bare front whoever is planned runs. */
  lemma PlannedRuns(c: Config, st: Sched, items: seq<Item>, a: nat)
    requires Inv(c, st) && WellFormed(st) && Matches(st.seqs, items) && FrontBare(st) && a < |items|
    ensures Runs(st, items[a].who) && st.seqs[items[a].who].scheduled > 0
  {
    hide BlocksIdle;
    assert ItemOk(st.seqs, items[a]);
    assert SeqOk(c, st.seqs[items[a].who], RoleOf(st, items[a].who));
  }

  /** What a decode plan finds in the tables of one of its sequences. */
  lemma DecodeTable(c: Config, st: Sched, st': Sched, j: nat)
    requires Inv(c, st) && Inv(c, st') && Quiet(st.seqs) && SameText(st.seqs, st'.seqs) && TablesGrow(st, st')
    requires Begun(st) && Runs(st', j) && st'.seqs[j].scheduled > 0
    ensures Runs(st, j) && |st'.seqs[j].tokens| >= 2
    ensures c.blockSize == 1 ==> |st'.seqs[j].table| >= 2 && Below(st'.seqs[j]) == Tip(st.seqs[j])
  {
    hide Inv;
    assert SameRequest(st.seqs[j], st'.seqs[j]);
    PlannedTip(c, st', j);
    IdleTable(c, st, j);
  }

  lemma ScheduleDecode(c: Config, st: Sched, st': Sched, plan: Plan)
    requires Inv(c, st) && Inv(c, st') && WellFormed(st') && Quiet(st.seqs) && SameText(st.seqs, st'.seqs) && TablesGrow(st, st')
    requires TipsApart(st) && Begun(st) && PlanOk(c, st', plan) && !plan.isPrefill
    ensures DecodeReady(c, st', plan.items)
  {
    hide Inv, Quiet, SameText, TablesGrow, Begun, WellFormed, FrontBare, Total;
    forall a: nat | a < |plan.items|
      ensures Runs(st', plan.items[a].who) && st'.seqs[plan.items[a].who].scheduled > 0
    {
      PlannedRuns(c, st', plan.items, a);
    }
    forall a: nat | a < |plan.items|
      ensures Runs(st, plan.items[a].who) && |st'.seqs[plan.items[a].who].tokens| >= 2
      ensures c.blockSize == 1 ==> |st'.seqs[plan.items[a].who].table| >= 2
      ensures c.blockSize == 1 ==> Below(st'.seqs[plan.items[a].who]) == Tip(st.seqs[plan.items[a].who])
    {
      DecodeTable(c, st, st', plan.items[a].who);
    }
    hide Matches, Tip, Below;
    if c.blockSize == 1 {
      forall a: nat, b: nat | a < b < |plan.items| ensures Below(st'.seqs[plan.items[a].who]) != Below(st'.seqs[plan.items[b].who]) {
        ItemsApart(st'.seqs, plan.items, a, b);
      }
    }
  }

  lemma ItemsApart(seqs: seq<SeqState>, items: seq<Item>, a: nat, b: nat)
    requires Matches(seqs, items) && a < b < |items|
    ensures items[a].who != items[b].who
  {
  }

  // ---------------------------------------------------------------- postprocess keeps it

  /** Whoever still runs has the table it had. */
  ghost predicate TablesStay(a: Sched, b: Sched) {
    |a.seqs| == |b.seqs| && forall j: nat :: Runs(b, j) ==> Runs(a, j) && b.seqs[j].table == a.seqs[j].table
  }

  lemma PostOneTables(c: Config, st: Sched, isPrefill: bool, i: nat, token: Token, isEos: Token -> bool)
    requires WellFormed(st) && i < |st.seqs|
    ensures TablesStay(st, Post1(c, st, isPrefill, i, token, isEos).1)
  {
    hide WellFormed, HashBlocks, Deallocate;
  }

  lemma {:induction false} PostTables(c: Config, st: Sched, isPrefill: bool, items: seq<Item>, sampled: seq<Token>, isEos: Token -> bool)
    requires WellFormed(st) && |sampled| == |items| && forall k :: 0 <= k < |items| ==> items[k].who < |st.seqs|
    ensures TablesStay(st, Post(c, st, isPrefill, items, sampled, isEos).1)
    decreases |items|
  {
    hide WellFormed, Post1;
    if items != [] {
      PostOneTables(c, st, isPrefill, items[0].who, sampled[0], isEos);
      var (status, st1) := Post1(c, st, isPrefill, items[0].who, sampled[0], isEos);
      if status == Success {
        PostTables(c, st1, isPrefill, items[1..], sampled[1..], isEos);
      }
    }
  }

  lemma StayTips(a: Sched, b: Sched)
    requires TipsApart(a) && TablesStay(a, b)
    ensures TipsApart(b)
  {
  }

  /** Whoever was planned and still runs has a token more. */
  lemma FinishBegun(w: World, e: State, st': Sched)
    requires EngineInv(w, e) && e.phase.Ran? && Begun(e.sched) && TablesStay(e.sched, st')
    requires AllAdvanced(e.sched.seqs, st'.seqs, e.phase.plan.items, e.phase.sampled, w.isEos)
    ensures Begun(st')
  {
    var seqs, items := e.sched.seqs, e.phase.plan.items;
    assert Inv(w.c, e.sched) && Matches(seqs, items);
    hide EngineInv, Inv, Matches;
    forall j: nat | Runs(st', j) && st'.seqs[j].scheduled == 0 ensures |st'.seqs[j].tokens| >= 2 {
      assert Runs(e.sched, j);
      if Planned(items, j) {
        var k: nat :| k < |items| && items[k].who == j;
        PlannedUnfinishedSeq(w.c, e.sched, items, k);
        assert Advanced(seqs[j], st'.seqs[j], e.phase.sampled[k], w.isEos);
        RunningComputed(w.c, e.sched, j);
      } else {
        assert st'.seqs[j] == seqs[j];
      }
    }
  }

  lemma RunningComputed(c: Config, st: Sched, j: nat)
    requires Inv(c, st) && Runs(st, j) && st.seqs[j].scheduled > 0
    ensures Computed(st.seqs[j]) && |st.seqs[j].tokens| > 0
  {
    hide BlocksIdle;
    assert SeqOk(c, st.seqs[j], RoleOf(st, j));
  }

  // ---------------------------------------------------------------- every move keeps it

  lemma ArriveTidy(w: World, e: State, prompt: seq<Token>, sampling: Sampling)
    requires EngineInv(w, e) && Tidy(w, e)
    ensures Tidy(w, Arrive(w, e, prompt, sampling).1)
  {
    var e' := Arrive(w, e, prompt, sampling).1;
    ArriveOk(w, e, prompt, sampling);
    assert QueuesOk(e.sched);
    hide EngineInv, QueuesOk, Distinct, CheckRequest;
    RunningInRange(e.sched);
    if CheckRequest(w.c, prompt, sampling) == Success {
      assert e'.sched.running == e.sched.running;
      assert forall j: nat :: j < |e.sched.seqs| ==> e'.sched.seqs[j] == e.sched.seqs[j];
      assert forall j: nat :: Runs(e'.sched, j) <==> Runs(e.sched, j);
    }
  }

  lemma ScheduleTidy(w: World, e: State)
    requires EngineInv(w, e) && e.phase.Idle? && Tidy(w, e) && SchedulePhase(w, e).0 == Success
    ensures Tidy(w, SchedulePhase(w, e).1)
  {
    var e' := SchedulePhase(w, e).1;
    SchedulePhaseOk(w, e);
    var r := Schedule(w.c, e.sched);
    assert Inv(w.c, e.sched) && QueuesOk(e.sched) && Quiet(e.sched.seqs) && Inv(w.c, e'.sched) && WellFormed(e'.sched);
    assert e'.phase.Scheduled? ==> PlanOk(w.c, e'.sched, e'.phase.plan);
    hide EngineInv, Inv, QueuesOk, Quiet, SameText, TipsApart, Begun, WellFormed, PlanOk, Schedule, DecodeReady;
    ScheduleTables(w.c, e.sched);
    ScheduleTips(w.c, e.sched, r);
    if e'.phase.Scheduled? && !e'.phase.plan.isPrefill {
      ScheduleDecode(w.c, e.sched, e'.sched, e'.phase.plan);
    }
  }

  lemma RunTidy(w: World, e: State)
    requires EngineInv(w, e) && e.phase.Scheduled? && Tidy(w, e) && RunPhase(w, e).0 == Success
    ensures Tidy(w, RunPhase(w, e).1)
  {
    hide EngineInv, RunPhase, OnlyRngs, TipsApart, Begun, DecodeReady;
    RunPhaseOk(w, e);
    RanRunning(w, e);
    RngTables(e.sched, RunPhase(w, e).1.sched);
  }

  lemma RanRunning(w: World, e: State)
    requires EngineInv(w, e) && e.phase.Scheduled? && RunPhase(w, e).0 == Success
    ensures RunPhase(w, e).1.sched.running == e.sched.running
  {
    hide EngineInv, RunPhase, CanRun, SampledTo, RowsCover, ForwardBatchHidden, ForwardBatchCache, CacheOk;
    RunPhaseResult(w, e);
  }

  lemma RngTables(a: Sched, b: Sched)
    requires OnlyRngs(a.seqs, b.seqs) && b.running == a.running && TipsApart(a) && Begun(a)
    ensures TipsApart(b) && Begun(b)
  {
    forall j: nat | j < |a.seqs|
      ensures b.seqs[j].table == a.seqs[j].table && b.seqs[j].tokens == a.seqs[j].tokens
      ensures b.seqs[j].scheduled == a.seqs[j].scheduled && (Runs(b, j) <==> Runs(a, j))
    {
      assert OnlyRng(a.seqs[j], b.seqs[j]);
    }
  }

  lemma FinishTidy(w: World, e: State)
    requires EngineInv(w, e) && e.phase.Ran? && Tidy(w, e)
    ensures ItemsInRange(e.sched.seqs, e.phase.plan.items)
    ensures Tidy(w, FinishPhase(w, e).1)
  {
    var plan, sampled := e.phase.plan, e.phase.sampled;
    FinishPhaseOk(w, e);
    var e' := FinishPhase(w, e).1;
    assert WellFormed(e.sched) && |sampled| == |plan.items|;
    assert e'.sched == Post(w.c, e.sched, plan.isPrefill, plan.items, sampled, w.isEos).1;
    hide EngineInv, FinishPhase, Post, TipsApart, Begun, WellFormed, AllAdvanced, TablesStay;
    PostTables(w.c, e.sched, plan.isPrefill, plan.items, sampled, w.isEos);
    StayTips(e.sched, e'.sched);
    FinishBegun(w, e, e'.sched);
  }

  lemma MoveTidy(w: World, e: State, event: Event)
    requires EngineInv(w, e) && Tidy(w, e) && Move(w, e, event).Some?
    ensures Tidy(w, Move(w, e, event).value)
  {
    hide EngineInv, SchedulePhase, RunPhase, FinishPhase, Arrive, Tidy, ItemsInRange;
    match event
    case Arrival(prompt, sampling) => ArriveTidy(w, e, prompt, sampling);
    case DoSchedule => ScheduleTidyMove(w, e);
    case DoRun => RunTidy(w, e);
    case DoFinish =>
      FinishPhaseOk(w, e);
      FinishTidy(w, e);
  }

  lemma ScheduleTidyMove(w: World, e: State)
    requires EngineInv(w, e) && Tidy(w, e) && Move(w, e, DoSchedule).Some?
    ensures Tidy(w, Move(w, e, DoSchedule).value)
  {
    hide SchedulePhase, Tidy;
    ScheduleTidy(w, e);
  }

  /** In every state of every run from the empty engine. */
  lemma {:induction false} ReachesTidy(w: World, e: State, events: seq<Event>, e': State)
    requires EngineInv(w, e) && RightUnlessCollision(w, e) && Tidy(w, e) && Reaches(w, e, events, e')
    ensures Tidy(w, e')
    decreases |events|
  {
    hide EngineInv, RightUnlessCollision, Move, Tidy;
    if events != [] {
      MoveOk(w, e, events[0]);
      MoveTidy(w, e, events[0]);
      ReachesTidy(w, Move(w, e, events[0]).value, events[1..], e');
    }
  }

  lemma InitialTidy(w: World, e: State)
    requires Initial(w, e)
    ensures Tidy(w, e)
  {
  }

  // ---------------------------------------------------------------- what a decode plan needs

  ghost predicate AllRun(st: Sched, items: seq<Item>) {
    forall a: nat :: a < |items| ==> items[a].who < |st.seqs| && Runs(st, items[a].who)
  }

  ghost function Tips(st: Sched, items: seq<Item>): (r: seq<nat>)
    requires AllRun(st, items)
    ensures |r| == |items| && forall a: nat :: a < |r| ==> r[a] == Tip(st.seqs[items[a].who])
  {
    seq(|items|, a requires 0 <= a < |items| => Tip(st.seqs[items[a].who]))
  }

  ghost function Belows(st: Sched, items: seq<Item>): (r: seq<nat>)
    requires AllRun(st, items)
    ensures |r| == |items| && forall a: nat :: a < |r| ==> r[a] == Below(st.seqs[items[a].who])
  {
    seq(|items|, a requires 0 <= a < |items| => Below(st.seqs[items[a].who]))
  }

  lemma TipsDiffer(c: Config, st: Sched, items: seq<Item>)
    requires Inv(c, st) && TipsApart(st) && Matches(st.seqs, items) && AllRun(st, items)
    ensures forall a: nat, b: nat :: a < b < |items| ==> Tips(st, items)[a] != Tips(st, items)[b]
    ensures forall a: nat :: a < |items| ==> Tips(st, items)[a] < c.numKvBlocks
  {
    InvWellFormed(c, st);
    hide Inv, Matches, Tip;
    forall a: nat, b: nat | a < b < |items| ensures Tips(st, items)[a] != Tips(st, items)[b] {
      ItemsApart(st.seqs, items, a, b);
    }
    forall a: nat | a < |items| ensures Tips(st, items)[a] < c.numKvBlocks {
      TableEntry(c, st, items[a].who);
    }
  }

  lemma TableEntry(c: Config, st: Sched, j: nat)
    requires WellFormed(st) && |st.pool.blocks| == c.numKvBlocks && Runs(st, j) && st.seqs[j].table != []
    ensures Tip(st.seqs[j]) < c.numKvBlocks
    ensures |st.seqs[j].table| >= 2 ==> Below(st.seqs[j]) < c.numKvBlocks
  {
    assert TableInRange(st.pool, st.seqs[j].table);
  }

  lemma BelowsDiffer(c: Config, st: Sched, items: seq<Item>)
    requires Inv(c, st) && Matches(st.seqs, items) && AllRun(st, items) && DecodeReady(c, st, items) && c.blockSize == 1
    ensures forall a: nat, b: nat :: a < b < |items| ==> Belows(st, items)[a] != Belows(st, items)[b]
    ensures forall a: nat :: a < |items| ==> Belows(st, items)[a] < c.numKvBlocks
    ensures forall a: nat, b: nat :: a < |items| && b < |items| ==> Belows(st, items)[a] != Tips(st, items)[b]
  {
    InvWellFormed(c, st);
    hide Inv, WellFormed;
    forall a: nat | a < |items| ensures Belows(st, items)[a] < c.numKvBlocks {
      TableEntry(c, st, items[a].who);
    }
    forall a: nat, b: nat | a < |items| && b < |items| ensures Belows(st, items)[a] != Tips(st, items)[b] {
      assert ItemOk(st.seqs, items[b]);
      PlannedTip(c, st, items[b].who);
      var s := st.seqs[items[a].who];
      assert s.table[|s.table| - 2] == Below(s);
    }
  }

  lemma ReadyRuns(c: Config, st: Sched, items: seq<Item>)
    requires DecodeReady(c, st, items)
    ensures AllRun(st, items)
  {
  }

  lemma BlocksNeeded(c: Config, st: Sched, items: seq<Item>)
    requires Inv(c, st) && Matches(st.seqs, items) && TipsApart(st) && DecodeReady(c, st, items)
    ensures |items| * NumBlocks(2, c.blockSize) <= c.numKvBlocks
  {
    hide Inv, Matches, TipsApart, DecodeReady, AllRun, NumBlocks;
    ReadyRuns(c, st, items);
    TipsDiffer(c, st, items);
    NumBlocksSucc(1, c.blockSize);
    if c.blockSize == 1 {
      BelowsDiffer(c, st, items);
      Pigeonhole(Tips(st, items) + Belows(st, items), c.numKvBlocks);
      assert NumBlocks(2, c.blockSize) == 2;
    } else {
      DivUnique(1, 0, c.blockSize);
      Pigeonhole(Tips(st, items), c.numKvBlocks);
      assert NumBlocks(2, c.blockSize) == 1;
    }
  }

  /** A decode plan has room for its sequences only with as many blocks as two tokens of each take. */
  lemma DecodeNeeds(w: World, e: State)
    requires EngineInv(w, e) && Tidy(w, e) && e.phase.Scheduled? && !e.phase.plan.isPrefill
    ensures |e.phase.plan.items| * NumBlocks(2, w.c.blockSize) <= w.c.numKvBlocks
  {
    assert Inv(w.c, e.sched) && Matches(e.sched.seqs, e.phase.plan.items);
    hide EngineInv, Inv, Matches, NumBlocks, TipsApart, Begun, DecodeReady;
    BlocksNeeded(w.c, e.sched, e.phase.plan.items);
  }

  /** And its sequences have two tokens or more, which an unfinished one has only below max_model_len. */
  lemma DecodeLength(w: World, e: State)
    requires EngineInv(w, e) && Tidy(w, e) && e.phase.Scheduled? && !e.phase.plan.isPrefill
    ensures w.c.maxModelLen >= 2
  {
    var st, items := e.sched, e.phase.plan.items;
    assert Inv(w.c, st) && Matches(st.seqs, items) && RequestsOk(w.c, st.seqs) && items != [];
    hide EngineInv, Inv, Matches, TipsApart;
    PlannedUnfinishedSeq(w.c, st, items, 0);
    assert Runs(st, items[0].who) && |st.seqs[items[0].who].tokens| >= 2;
    assert RequestOk(w.c, st.seqs[items[0].who]);
  }
}
