/** schedule as a whole: what it keeps, why it always finds work when requests fit the pool, and why
    every step makes progress. */
module ScheduleProofs {
  import opened Common
  import opened Counting
  import opened Blocks
  import opened Sequences
  import opened BlockPool
  import opened BlockInvariants
  import opened PrefixCache
  import opened AllocationProofs
  import opened SchedulerSpec
  import opened SchedulerProofs

  ghost predicate Quiet(seqs: seq<SeqState>) {
    forall i: nat :: i < |seqs| ==> seqs[i].scheduled == 0
  }

  ghost predicate OneEach(items: seq<Item>) {
    forall k: nat :: k < |items| ==> items[k].count == 1
  }

  lemma TotalOfOnes(items: seq<Item>)
    requires OneEach(items)
    ensures Total(items) == |items|
  {
    if items != [] {
      assert OneEach(items[..|items| - 1]);
      TotalOfOnes(items[..|items| - 1]);
    }
  }

  /** The decode loop plans one token each, for at most max_num_seqs sequences. */
  lemma {:induction false} DecodeCounts(c: Config, st: Sched, items: seq<Item>, left: nat, preempted: bool)
    requires WellFormed(st) && left <= |st.running| && OneEach(items) && |items| <= c.maxNumSeqs
    ensures OneEach(Decode(c, st, items, left, preempted).1) && |Decode(c, st, items, left, preempted).1| <= c.maxNumSeqs
    decreases left
  {
    if left > 0 && |items| < c.maxNumSeqs {
      var (st1, items1, out) := Decode1(c, st, items);
      assert OneEach(items1) by {
        hide Preempt, WellFormed;
      }
      hide Decode1, WellFormed, OneEach;
      DecodeCounts(c, st1, items1, left - 1, preempted || out);
    }
  }

  lemma {:induction false} DecodePreempts(c: Config, st: Sched, items: seq<Item>, left: nat, preempted: bool)
    requires WellFormed(st) && left <= |st.running|
    requires |items| < c.maxNumSeqs && (left > 0 || preempted)
    ensures |Decode(c, st, items, left, preempted).1| == |items| ==> Decode(c, st, items, left, preempted).2
    decreases left
  {
    hide Decode1, WellFormed;
    if left > 0 {
      var (st1, items1, out) := Decode1(c, st, items);
      if |items1| == |items| {
        DecodePreempts(c, st1, items1, left - 1, preempted || out);
      }
    }
  }

  /** The plan and the state that schedule hands over together. */
  ghost predicate PlanOk(c: Config, st: Sched, plan: Plan)
    requires WellFormed(st)
  {
    && Matches(st.seqs, plan.items)
    && Total(plan.items) == plan.numTokens
    && |plan.items| <= c.maxNumSeqs
    && (plan.isPrefill ==> plan.numTokens <= c.maxNumBatchedTokens)
    && (!plan.isPrefill ==> plan.numTokens == |plan.items| && FrontBare(st))
    && (plan.items == [] ==> IsFinished(st))
  }

  ghost predicate ScheduleDone(c: Config, st: Sched, r: (Status, Sched, Plan)) {
    && Inv(c, r.1) && WellFormed(r.1)
    && SameText(st.seqs, r.1.seqs) && st.pool.hashed <= r.1.pool.hashed
    && (r.0 == Success || r.0 == Failure(PromptNeedsTooManyBlocks))
    && (r.0 == Success ==> PlanOk(c, r.1, r.2))
  }

  lemma StartPrefill(c: Config, st: Sched)
    requires Inv(c, st) && WellFormed(st) && Quiet(st.seqs)
    ensures PrefillInv(c, st, [], 0) && FrontIdle(st) && Matches(st.seqs, [])
  {
    hide Inv;
  }

  lemma StartDecode(c: Config, st: Sched)
    requires Inv(c, st) && WellFormed(st) && Quiet(st.seqs)
    ensures DecodeInv(c, st, [], |st.running|)
  {
    hide Inv;
  }

  lemma MatchesNothing(seqs: seq<SeqState>)
    requires Matches(seqs, [])
    ensures Quiet(seqs)
  {
  }

  lemma ScheduleDoneTrans(c: Config, a: Sched, b: Sched, r: (Status, Sched, Plan))
    requires SameText(a.seqs, b.seqs) && a.pool.hashed <= b.pool.hashed && ScheduleDone(c, b, r)
    ensures ScheduleDone(c, a, r)
  {
    hide SameText, Inv, WellFormed, PlanOk;
    SameTextTrans(a.seqs, b.seqs, r.1.seqs);
  }

  /** A prefill plan. */
  lemma PrefillPlanOk(c: Config, st: Sched, status: Status, st': Sched, items: seq<Item>, batched: nat)
    requires PrefillInv(c, st', items, batched) && WellFormed(st') && SameText(st.seqs, st'.seqs) && st.pool.hashed <= st'.pool.hashed
    requires status == Success && items != []
    ensures ScheduleDone(c, st, (Success, st', Plan(true, batched, items)))
  {
    hide Inv, Matches, WellFormed, SameText, Total;
  }

  lemma DecodePlanOk(c: Config, st: Sched, st': Sched, items: seq<Item>)
    requires DecodeDone(c, st, st', items) && OneEach(items) && |items| <= c.maxNumSeqs && (items == [] ==> IsFinished(st'))
    ensures ScheduleDone(c, st, (Success, st', Plan(false, |items|, items)))
  {
    TotalOfOnes(items);
    hide Inv, Matches, SameText, Total, OneEach;
  }

  /** One level of schedule: prefill, and if that plans nothing, decode. */
  lemma DecodePhase(c: Config, st: Sched)
    requires Inv(c, st) && WellFormed(st) && Quiet(st.seqs) && Prefill(c, st, [], 0).2 == []
    ensures Prefill(c, st, [], 0).1 == st && FrontBare(st)
    ensures var r := Decode(c, st, [], |st.running|, false);
      && DecodeDone(c, st, r.0, r.1) && OneEach(r.1) && |r.1| <= c.maxNumSeqs
      && (r.1 == [] ==> Quiet(r.0.seqs) && r.0.running == [])
  {
    StartPrefill(c, st);
    PrefillOk(c, st, [], 0);
    StartDecode(c, st);
    hide Prefill, Inv, WellFormed, PrefillInv, DecodeInv, FrontBare, FrontIdle, SameText;
    DecodeOk(c, st, [], |st.running|, false);
    DecodeCounts(c, st, [], |st.running|, false);
    var r := Decode(c, st, [], |st.running|, false);
    if r.1 == [] {
      hide Decode, Matches;
      MatchesNothing(r.0.seqs);
    }
  }

  /** schedule keeps the invariant, and its plan says what is scheduled, within the limits. */
  lemma {:induction false} ScheduleOk(c: Config, st: Sched)
    requires Inv(c, st) && WellFormed(st) && Quiet(st.seqs)
    ensures ScheduleDone(c, st, Schedule(c, st))
    decreases |st.running|
  {
    StartPrefill(c, st);
    PrefillOk(c, st, [], 0);
    var (status, st1, items, batched) := Prefill(c, st, [], 0);
    if status.Failure? {
      FailedSchedule(c, st, status, st1, items, batched);
    } else if items != [] {
      hide Prefill, PrefillInv, ScheduleDone, SameText, WellFormed;
      PrefillPlanOk(c, st, status, st1, items, batched);
    } else {
      DecodePhase(c, st);
      var (st2, items2, preempted) := Decode(c, st, [], |st.running|, false);
      hide Decode, Prefill, PrefillInv, ScheduleDone, SameText, FrontBare, FrontIdle, Inv, Matches, Quiet;
      if items2 == [] && !IsFinished(st2) {
        if preempted {
          ScheduleOk(c, st2);
          ScheduleDoneTrans(c, st, st2, Schedule(c, st2));
        } else {
          NeverStuck(c, st);
        }
      } else {
        DecodePlanOk(c, st, st2, items2);
      }
    }
  }

  /** "Could not make progress" is unreachable: nothing is left unplanned without a preemption, except
      when no sequence is left. */
  lemma NeverStuck(c: Config, st: Sched)
    requires Inv(c, st) && WellFormed(st) && Quiet(st.seqs)
    requires Prefill(c, st, [], 0).0 == Success && Prefill(c, st, [], 0).2 == []
    ensures var (st2, items2, preempted) := Decode(c, st, [], |st.running|, false);
      items2 == [] && !preempted ==> IsFinished(st2)
  {
    hide Inv, WellFormed, Quiet, Prefill;
    if st.running == [] {
      if st.waiting != [] {
        PrefillAlone(c, st);
      }
    } else {
      DecodePreempts(c, st, [], |st.running|, false);
    }
  }

  lemma FailedSchedule(c: Config, st: Sched, status: Status, st1: Sched, items: seq<Item>, batched: nat)
    requires PrefillInv(c, st1, items, batched) && WellFormed(st1) && SameText(st.seqs, st1.seqs) && st.pool.hashed <= st1.pool.hashed
    requires status == Failure(PromptNeedsTooManyBlocks)
    ensures ScheduleDone(c, st, (status, st1, Plan(false, 0, items)))
  {
    hide Inv, Matches, SameText, Total, WellFormed;
  }

  /** schedule keeps every cached position right, for as long as no chain hashes collide. */
  lemma {:induction false} ScheduleKv(c: Config, st: Sched, holds: Holds)
    requires Inv(c, st) && WellFormed(st) && Quiet(st.seqs)
    requires KvIdle(c, st.pool, holds, st.seqs, false) && NoCollision(c, Schedule(c, st).1.pool.hashed)
    ensures var st' := Schedule(c, st).1; KvIdle(c, st'.pool, holds, st'.seqs, false)
    decreases |st.running|
  {
    StartPrefill(c, st);
    var (status, st1, items, batched) := Prefill(c, st, [], 0);
    if status.Failure? || items != [] {
      PrefillKv(c, st, holds, [], 0);
    } else {
      DecodePhase(c, st);
      StartDecode(c, st);
      var (st2, items2, preempted) := Decode(c, st, [], |st.running|, false);
      hide Decode, Prefill, PrefillInv, SameText, FrontBare, FrontIdle, Inv, Matches, Quiet, KvIdle, NoCollision, DecodeInv;
      DecodeKv(c, st, holds, [], |st.running|, false);
      if items2 == [] && !IsFinished(st2) && preempted {
        ScheduleKv(c, st2, holds);
      }
    }
  }

  // ---------------------------------------------------------------- no deadlock

  /** Every unfinished sequence fits the pool when it has the pool to itself. */
  ghost predicate Fits(c: Config, seqs: seq<SeqState>) {
    forall i: nat :: i < |seqs| && seqs[i].status != Finished ==> NumBlocks(|seqs[i].tokens|, c.blockSize) <= c.numKvBlocks
  }

  ghost predicate AllBare(seqs: seq<SeqState>) {
    forall i: nat :: i < |seqs| ==> seqs[i].table == []
  }

  lemma FitsFrame(c: Config, a: seq<SeqState>, b: seq<SeqState>)
    requires Fits(c, a) && SameText(a, b)
    ensures Fits(c, b)
  {
    hide NumBlocks;
    forall i: nat | i < |b| && b[i].status != Finished ensures NumBlocks(|b[i].tokens|, c.blockSize) <= c.numKvBlocks {
      assert SameRequest(a[i], b[i]);
    }
  }

  /** With no tables at all every block is free. */
  lemma AllFree(c: Config, p: Pool, seqs: seq<SeqState>)
    requires BlocksIdle(c, p, seqs) && AllBare(seqs)
    ensures p.free == Ids(c.numKvBlocks) && |p.free| == c.numKvBlocks
  {
    hide IndexOk, OriginsOk, TablesOk, Occ;
    IdsCount(c.numKvBlocks);
    assert PoolOk(c, p, seqs);
    forall b: nat ensures b in p.free <==> b in Ids(c.numKvBlocks) {
      OccEmpty(seqs, b);
    }
    assert p.free == Ids(c.numKvBlocks);
  }

  lemma AdmitWhenFree(c: Config, st: Sched, i: nat)
    requires WellFormed(st) && i < |st.seqs| && st.seqs[i].table == []
    requires |st.pool.free| >= NumBlocks(|st.seqs[i].tokens|, c.blockSize)
    ensures Admit(c, st, i).0 != None && Admit(c, st, i).0 != Some(Failure(PromptNeedsTooManyBlocks))
  {
    var tokens := st.seqs[i].tokens;
    CanAllocateMeaning(c, st.pool, tokens);
    assert TableInRange(st.pool, st.seqs[i].table);
    AllocateStatus(c, st.pool, st.seqs[i], CanAllocate(c, st.pool, tokens).1);
    hide Allocate, NumBlocks, CanAllocate, WellFormed, TableInRange, Hit;
  }

  /** When every block is free, a bare front is admitted or refused for good: it never waits. */
  lemma AdmitDecides(c: Config, st: Sched)
    requires Inv(c, st) && WellFormed(st) && st.waiting != [] && AllBare(st.seqs)
    ensures st.waiting[0] < |st.seqs| && Admit(c, st, st.waiting[0]).0 != None
  {
    var i := st.waiting[0];
    assert i in st.waiting;
    assert SeqOk(c, st.seqs[i], RoleOf(st, i));
    AllFree(c, st.pool, st.seqs);
    hide WellFormed, NumBlocks, SeqsOk, QueuesOk, CanAllocate, Allocate;
    if |st.pool.free| >= NumBlocks(|st.seqs[i].tokens|, c.blockSize) {
      hide Admit, BlocksIdle;
      AdmitWhenFree(c, st, i);
    }
  }

  /** A front that holds no blocks, with nothing running, leaves the whole pool free. */
  lemma BareWithoutRunning(c: Config, st: Sched)
    requires Inv(c, st) && WellFormed(st) && FrontBare(st) && st.running == []
    ensures AllBare(st.seqs)
  {
    hide BlocksIdle;
    forall i: nat | i < |st.seqs| ensures st.seqs[i].table == [] {
      assert SeqOk(c, st.seqs[i], RoleOf(st, i));
    }
  }

  lemma AdmitFits(c: Config, st: Sched, i: nat)
    requires WellFormed(st) && i < |st.seqs| && Fits(c, st.seqs) && |st.pool.blocks| == c.numKvBlocks && st.seqs[i].status != Finished
    ensures Admit(c, st, i).0 != Some(Failure(PromptNeedsTooManyBlocks))
  {
    var s := st.seqs[i];
    if s.table == [] {
      AllocateStatus(c, st.pool, s, CanAllocate(c, st.pool, s.tokens).1);
    }
    hide Allocate, CanAllocate, NumBlocks, WellFormed;
  }

  lemma ShareStatus(c: Config, p: Pool, s: SeqState, i: nat, cached: nat)
    requires InRange(p) && i <= cached <= NumBlocks(|s.tokens|, c.blockSize)
    ensures ShareFrom(c, p, s, i, cached).0 != Failure(PromptNeedsTooManyBlocks)
    decreases cached - i
  {
  }

  lemma TakeStatus(c: Config, p: Pool, s: SeqState, i: nat)
    requires InRange(p) && TableInRange(p, s.table)
    ensures TakeFrom(c, p, s, i).0 != Failure(PromptNeedsTooManyBlocks)
    decreases NumBlocks(|s.tokens|, c.blockSize) - i
  {
  }

  /** The size error is the scheduler's own, not allocate's. */
  lemma AllocateStatus(c: Config, p: Pool, s: SeqState, cached: nat)
    requires InRange(p) && s.table == []
    ensures Allocate(c, p, s, cached).0 != Failure(PromptNeedsTooManyBlocks)
  {
    if cached <= NumBlocks(|s.tokens|, c.blockSize) {
      ShareStatus(c, p, s, 0, cached);
      var (status, p', s') := ShareFrom(c, p, s, 0, cached);
      if status == Success {
        TakeStatus(c, p', s', cached);
      }
      hide ShareFrom, TakeFrom, NumBlocks;
    }
  }

  lemma Prefill1Fits(c: Config, st: Sched, items: seq<Item>, batched: nat)
    requires PrefillInv(c, st, items, batched) && WellFormed(st) && FrontIdle(st) && batched <= c.maxNumBatchedTokens
    requires st.waiting != [] && |items| < c.maxNumSeqs && Fits(c, st.seqs)
    ensures Prefill1(c, st, items, batched).status == Success
  {
    Prefill1Ok(c, st, items, batched);
    var i := st.waiting[0];
    assert i in st.waiting;
    assert SeqOk(c, st.seqs[i], RoleOf(st, i));
    InvWellFormed(c, st);
    hide PrefillInv, WellFormed, Inv, Fits, FrontIdle, FrontBare, SameText, Schedule1;
    AdmitFits(c, st, i);
    hide Admit;
  }

  lemma {:induction false} PrefillFits(c: Config, st: Sched, items: seq<Item>, batched: nat)
    requires PrefillInv(c, st, items, batched) && WellFormed(st) && FrontIdle(st) && batched <= c.maxNumBatchedTokens
    requires Fits(c, st.seqs)
    ensures Prefill(c, st, items, batched).0 == Success
    decreases |st.waiting|
  {
    if st.waiting != [] && |items| < c.maxNumSeqs {
      Prefill1Ok(c, st, items, batched);
      Prefill1Fits(c, st, items, batched);
      var r := Prefill1(c, st, items, batched);
      hide Prefill1, Admit, PrefillInv, SameText, WellFormed, FrontIdle, FrontBare, Fits;
      if r.again {
        FitsFrame(c, st.seqs, r.st.seqs);
        PrefillFits(c, r.st, r.items, r.batched);
      }
    }
  }

  /** When nothing runs, prefill alone finds work, or refuses a prompt. */
  lemma PrefillAlone(c: Config, st: Sched)
    requires Inv(c, st) && WellFormed(st) && Quiet(st.seqs) && st.running == [] && st.waiting != []
    ensures Prefill(c, st, [], 0).0 == Success ==> Prefill(c, st, [], 0).2 != []
  {
    StartPrefill(c, st);
    PrefillOk(c, st, [], 0);
    if Prefill(c, st, [], 0).2 == [] {
      hide Prefill, PrefillInv, SameText;
      BareWithoutRunning(c, st);
      AdmitDecides(c, st);
    }
  }

  /** The ways schedule goes on after its prefill loop, and after its decode loop. */
  lemma ScheduleGoes(c: Config, st: Sched)
    requires WellFormed(st)
    ensures var (status, st1, items, batched) := Prefill(c, st, [], 0);
      && (status == Success && items != [] ==> Schedule(c, st) == (Success, st1, Plan(true, batched, items)))
      && (status.Failure? ==> Schedule(c, st).0.Failure?)
      && (status == Success && items == [] ==>
            && WellFormed(st1)
            && var (st2, items2, preempted) := Decode(c, st1, [], |st1.running|, false);
               if items2 != [] || IsFinished(st2) then Schedule(c, st) == (Success, st2, Plan(false, |items2|, items2))
               else if preempted then |st2.running| < |st1.running| && Schedule(c, st) == Schedule(c, st2)
               else Schedule(c, st).0.Failure?)
  {
    hide Prefill, Decode, WellFormed;
  }

  /** The recursion is at most one level deep: it starts with nothing running, and a call with nothing
      running never recurses. */
  lemma RecursionDepth(c: Config, st: Sched)
    requires Inv(c, st) && WellFormed(st) && Quiet(st.seqs)
    ensures var p := Prefill(c, st, [], 0);
      var d := Decode(c, p.1, [], |p.1.running|, false);
      && (p.0 == Success && p.2 == [] && d.1 == [] ==> d.0.running == [])
      && (st.running == [] ==> p.0 == Success && p.2 == [] ==> !d.2)
  {
    if Prefill(c, st, [], 0).2 == [] {
      DecodePhase(c, st);
    }
  }

  /** No deadlock: if every sequence fits the pool, schedule succeeds, and its plan is empty only when
      no sequence is left. */
  lemma NoDeadlock(c: Config, st: Sched)
    requires Inv(c, st) && WellFormed(st) && Quiet(st.seqs) && Fits(c, st.seqs)
    ensures Schedule(c, st).0 == Success
    ensures Schedule(c, st).2.items == [] <==> IsFinished(st)
  {
    StartPrefill(c, st);
    PrefillFits(c, st, [], 0);
    var (status, st1, items, batched) := Prefill(c, st, [], 0);
    if items == [] && !IsFinished(st) {
      DecodePhase(c, st);
      if st.running == [] {
        PrefillAlone(c, st);
        assert false;
      } else {
        DecodePreempts(c, st, [], |st.running|, false);
        var (st2, items2, preempted) := Decode(c, st, [], |st.running|, false);
        hide Decode, Prefill, PrefillInv, FrontBare, FrontIdle, Inv, Matches, Quiet, Fits, SameText;
        if items2 == [] && !IsFinished(st2) {
          FitsFrame(c, st.seqs, st2.seqs);
          StartPrefill(c, st2);
          PrefillFits(c, st2, [], 0);
          PrefillAlone(c, st2);
        }
        if items2 == [] {
          StillUnfinished(c, st, st2);
        }
      }
    }
  }

  /** schedule finishes no sequence, so an unfinished one stays queued. */
  lemma StillUnfinished(c: Config, st: Sched, st2: Sched)
    requires Inv(c, st) && Inv(c, st2) && SameText(st.seqs, st2.seqs) && !IsFinished(st)
    ensures !IsFinished(st2)
  {
    hide BlocksIdle;
    var i := if st.waiting != [] then st.waiting[0] else st.running[0];
    assert i in st.waiting || i in st.running;
    assert SeqOk(c, st.seqs[i], RoleOf(st, i));
    assert SameRequest(st.seqs[i], st2.seqs[i]);
    assert SeqOk(c, st2.seqs[i], RoleOf(st2, i));
  }

  // ---------------------------------------------------------------- progress

  ghost predicate FrontHolds(st: Sched)
    requires WellFormed(st)
  {
    st.waiting != [] && st.seqs[st.waiting[0]].table != []
  }

  /** A front that holds blocks is what schedule plans first, from where it stopped. */
  lemma FrontFirst(c: Config, st: Sched)
    requires Inv(c, st) && WellFormed(st) && Quiet(st.seqs) && FrontHolds(st)
    ensures var r := Schedule(c, st);
      r.2.items != [] && r.2.items[0].who == st.waiting[0] && r.2.items[0].start == st.seqs[st.waiting[0]].cached
  {
    var i := st.waiting[0];
    AdmittedFront(c, st, i);
    hide Inv, Quiet, WellFormed, Schedule1, CanAllocate, Allocate;
    var r := Prefill1(c, st, [], 0);
    assert r.items == [Item(i, st.seqs[i].cached, r.items[0].count)];
    assert r.items <= Prefill(c, st, [], 0).2;
    hide Prefill1;
  }

  /** Where the measure of a run stands: the front's uncached tokens, if it holds blocks. */
  ghost function FrontCost(st: Sched): (int, int)
    requires WellFormed(st)
  {
    if FrontHolds(st) then (0, |st.seqs[st.waiting[0]].tokens| - st.seqs[st.waiting[0]].cached) else (1, 0)
  }
}
