/** The scheduler's state as a value, and the operations of engine/src/scheduler.cpp as functions on
    it. The class in Scheduler.dfy is proved to compute these functions. */
module SchedulerSpec {
  import opened Common
  import opened Blocks
  import opened Sequences
  import opened BlockPool

  /** Sequences are named by their order of arrival; the queues hold these names. Finished sequences
      stay in `seqs`, as they stay reachable from the plan that finished them. */
  datatype Sched = Sched(pool: Pool, seqs: seq<SeqState>, waiting: seq<nat>, running: seq<nat>)

  datatype Item = Item(who: nat, start: nat, count: nat)

  datatype Plan = Plan(isPrefill: bool, numTokens: nat, items: seq<Item>)

  function EmptySched(c: Config): Sched {
    Sched(EmptyPool(c), [], [], [])
  }

  /** What every name and block id must satisfy for the program's unchecked and checked accesses. */
  predicate WellFormed(st: Sched) {
    && InRange(st.pool)
    && (forall i :: 0 <= i < |st.seqs| ==> TableInRange(st.pool, st.seqs[i].table))
    && (forall i :: 0 <= i < |st.waiting| ==> st.waiting[i] < |st.seqs|)
    && (forall i :: 0 <= i < |st.running| ==> st.running[i] < |st.seqs|)
  }

  /** One sequence and the pool change together. */
  function Put(st: Sched, i: nat, p: Pool, s: SeqState): (r: Sched)
    requires i < |st.seqs|
    ensures WellFormed(st) && InRange(p) && |p.blocks| == |st.pool.blocks| && TableInRange(p, s.table) ==> WellFormed(r)
  {
    st.(pool := p, seqs := st.seqs[i := s])
  }

  function IsFinished(st: Sched): bool {
    st.waiting == [] && st.running == []
  }

  /** Scheduler::add, for a sequence that was built with block size `size`. */
  function Add(c: Config, st: Sched, s: SeqState, size: int): (r: (Status, Sched))
  {
    if |s.tokens| == 0 then (Failure(EmptyRequest), st)
    else if size != c.blockSize then (Failure(BlockSizeMismatch), st)
    else (Success, st.(seqs := st.seqs + [s], waiting := st.waiting + [|st.seqs|]))
  }

  /** Scheduler::preempt, for a sequence already taken off the running queue. */
  function Preempt(st: Sched, i: nat): (r: Sched)
    requires WellFormed(st) && i < |st.seqs|
    ensures WellFormed(r) && |r.seqs| == |st.seqs| && r.running == st.running
  {
    assert TableInRange(st.pool, st.seqs[i].table);
    var (p, s) := Deallocate(st.pool, st.seqs[i]);
    Put(st, i, p, s.(status := Waiting, isPrefill := true, scheduled := 0)).(waiting := [i] + st.waiting)
  }

  /** What the prefill loop does about one waiting sequence before it schedules any of its tokens:
      its blocks, if it has none yet. `None` means the loop stops here. */
  function Admit(c: Config, st: Sched, i: nat): (r: (Option<Status>, Sched))
    requires WellFormed(st) && i < |st.seqs|
    ensures WellFormed(r.1) && |r.1.seqs| == |st.seqs| && r.1.waiting == st.waiting && r.1.running == st.running
  {
    var s := st.seqs[i];
    if s.table != [] then (Some(Success), st) else
      var (fits, cached) := CanAllocate(c, st.pool, s.tokens);
      if !fits then
        (if NumBlocks(|s.tokens|, c.blockSize) > |st.pool.blocks| then Some(Failure(PromptNeedsTooManyBlocks)) else None, st)
      else
        assert TableInRange(st.pool, s.table);
        var (status, p, t) := Allocate(c, st.pool, s, cached);
        (Some(status), Put(st, i, p, t))
  }

  /** A sequence goes into the plan with `count` tokens; if that completes its prompt it starts running. */
  function Schedule1(st: Sched, i: nat, count: nat): (r: Sched)
    requires WellFormed(st) && st.waiting != [] && st.waiting[0] == i && i < |st.seqs|
    ensures WellFormed(r) && |r.seqs| == |st.seqs|
  {
    assert TableInRange(st.pool, st.seqs[i].table);
    var s := st.seqs[i].(scheduled := count, isPrefill := true);
    if s.cached + count == |s.tokens|
    then Put(st, i, st.pool, s.(status := Running)).(waiting := st.waiting[1..], running := st.running + [i])
    else Put(st, i, st.pool, s)
  }

  /** What one round of the prefill loop leaves, and whether the loop goes on. */
  datatype Round = Round(status: Status, st: Sched, items: seq<Item>, batched: nat, again: bool)

  /** One round of the prefill loop of Scheduler::schedule. */
  function Prefill1(c: Config, st: Sched, items: seq<Item>, batched: nat): (r: Round)
    requires WellFormed(st) && batched <= c.maxNumBatchedTokens && st.waiting != []
    ensures WellFormed(r.st) && |r.st.seqs| == |st.seqs| && r.batched <= c.maxNumBatchedTokens
    ensures r.again ==> |r.st.waiting| < |st.waiting| && |r.items| > |items|
    ensures items <= r.items && (|r.items| == |items| ==> r.st.running == st.running)
  {
    var i := st.waiting[0];
    var (go, st1) := Admit(c, st, i);
    if go == None then Round(Success, st1, items, batched, false)
    else if go.value.Failure? then Round(go.value, st1, items, batched, false)
    else
      var s := st1.seqs[i];
      var remaining := |s.tokens| - s.cached;
      if remaining <= 0 then Round(Failure(NothingUncached), st1, items, batched, false) else
        var available := c.maxNumBatchedTokens - batched;
        if available == 0 || (available < remaining && items != []) then Round(Success, st1, items, batched, false) else
          var count := if remaining < available then remaining else available;
          Round(Success, Schedule1(st1, i, count), items + [Item(i, s.cached, count)], batched + count,
                s.cached + count == |s.tokens|)
  }

  /** The prefill loop of Scheduler::schedule. */
  function Prefill(c: Config, st: Sched, items: seq<Item>, batched: nat): (r: (Status, Sched, seq<Item>, nat))
    requires WellFormed(st) && batched <= c.maxNumBatchedTokens
    ensures WellFormed(r.1) && |r.1.seqs| == |st.seqs|
    ensures items <= r.2 && (|r.2| == |items| ==> r.1.running == st.running)
    decreases |st.waiting|
  {
    if st.waiting == [] || |items| >= c.maxNumSeqs then (Success, st, items, batched) else
      var r := Prefill1(c, st, items, batched);
      if r.again then Prefill(c, r.st, r.items, r.batched) else (r.status, r.st, r.items, r.batched)
  }

  /** What the decode loop does with a sequence once may_append has returned. */
  function DecodeGrown(st: Sched, i: nat, items: seq<Item>, status: Status, p: Pool, s: SeqState): (r: (Sched, seq<Item>, bool))
    requires WellFormed(st) && i < |st.seqs| && InRange(p) && |p.blocks| == |st.pool.blocks| && TableInRange(p, s.table) && s.tokens != []
    ensures WellFormed(r.0) && |r.0.seqs| == |st.seqs|
    ensures r.2 ==> |r.1| == |items| && |r.0.running| == |st.running|
    ensures !r.2 ==> |r.1| == |items| + 1 && |r.0.running| == |st.running| + 1
  {
    if status.Failure? then (Preempt(Put(st, i, p, s), i), items, true)
    else (Put(st, i, p, s.(scheduled := 1, isPrefill := false)).(running := st.running + [i]),
          items + [Item(i, |s.tokens| - 1, 1)], false)
  }

  /** One round of the decode loop, on the front of the running queue; says whether it preempted. */
  function Decode1(c: Config, st: Sched, items: seq<Item>): (r: (Sched, seq<Item>, bool))
    requires WellFormed(st) && st.running != []
    ensures WellFormed(r.0) && |r.0.seqs| == |st.seqs|
    ensures r.2 ==> |r.1| == |items| && |r.0.running| == |st.running| - 1
    ensures !r.2 ==> |r.1| == |items| + 1 && |r.0.running| == |st.running|
  {
    var i := st.running[0];
    var st1 := st.(running := st.running[1..]);
    assert TableInRange(st.pool, st.seqs[i].table);
    if !CanAppend(c, st.pool, st.seqs[i]) then (Preempt(st1, i), items, true) else
      var (status, p, s) := MayAppend(c, st.pool, st.seqs[i]);
      DecodeGrown(st1, i, items, status, p, s)
  }

  /** The decode loop of Scheduler::schedule, with `left` candidates to go; says whether it preempted. */
  function Decode(c: Config, st: Sched, items: seq<Item>, left: nat, preempted: bool): (r: (Sched, seq<Item>, bool))
    requires WellFormed(st) && left <= |st.running|
    ensures WellFormed(r.0) && |r.0.seqs| == |st.seqs|
    ensures |items| <= |r.1| && (|r.1| < c.maxNumSeqs ==> |r.0.running| == |st.running| - left + |r.1| - |items|)
    ensures r.2 && !preempted ==> left > 0
    decreases left
  {
    if left == 0 || |items| >= c.maxNumSeqs then (st, items, preempted) else
      var (st1, items1, out) := Decode1(c, st, items);
      Decode(c, st1, items1, left - 1, preempted || out)
  }

  /** Scheduler::schedule. The recursion after a round of nothing but preemptions finds the running
      queue empty. */
  function Schedule(c: Config, st: Sched): (r: (Status, Sched, Plan))
    requires WellFormed(st)
    ensures WellFormed(r.1) && |r.1.seqs| == |st.seqs|
    decreases |st.running|
  {
    var (status, st1, items, batched) := Prefill(c, st, [], 0);
    if status.Failure? then (status, st1, Plan(false, 0, items))
    else if items != [] then (Success, st1, Plan(true, batched, items))
    else
      var (st2, items2, preempted) := Decode(c, st1, [], |st1.running|, false);
      if items2 == [] && !IsFinished(st2) then
        if preempted then Schedule(c, st2)
        else (Failure(NoProgress), st2, Plan(false, 0, []))
      else (Success, st2, Plan(false, |items2|, items2))
  }

  /** Removing a finished sequence from the running queue. */
  function Without(queue: seq<nat>, i: nat): (r: seq<nat>)
    ensures forall j :: 0 <= j < |r| ==> r[j] in queue && r[j] != i
    ensures forall x :: x in queue && x != i ==> x in r
  {
    if queue == [] then []
    else if queue[0] == i then Without(queue[1..], i)
    else [queue[0]] + Without(queue[1..], i)
  }

  /** The end of one round of postprocess: the token is appended, and a sequence that stopped gives
      everything back. */
  function Accept(c: Config, st: Sched, i: nat, token: Token, isEos: Token -> bool): (r: Sched)
    requires WellFormed(st) && i < |st.seqs|
    ensures WellFormed(r) && |r.seqs| == |st.seqs|
  {
    assert TableInRange(st.pool, st.seqs[i].table);
    var s := st.seqs[i].(tokens := st.seqs[i].tokens + [token]);
    var stoppedOnEos := !s.sampling.ignoreEos && isEos(token);
    var reachedLimit := s.ReachedLimit();
    if stoppedOnEos || reachedLimit then
      var (p, t) := Deallocate(st.pool, s.(status := Finished));
      Put(st, i, p, t).(running := Without(st.running, i))
    else Put(st, i, st.pool, s)
  }

  /** One round of Scheduler::postprocess. */
  function Post1(c: Config, st: Sched, isPrefill: bool, i: nat, token: Token, isEos: Token -> bool): (r: (Status, Sched))
    requires WellFormed(st) && i < |st.seqs|
    ensures WellFormed(r.1) && |r.1.seqs| == |st.seqs|
  {
    assert TableInRange(st.pool, st.seqs[i].table);
    var (status, p) := HashBlocks(c, st.pool, st.seqs[i]);
    if status.Failure? then (status, Put(st, i, p, st.seqs[i])) else
      var s := st.seqs[i].(cached := st.seqs[i].cached + st.seqs[i].scheduled, scheduled := 0);
      var st1 := Put(st, i, p, s);
      if isPrefill && s.cached < |s.tokens| then (Success, st1)
      else if token < 0 then (Failure(MissingToken), st1)
      else (Success, Accept(c, st1, i, token, isEos))
  }

  function Post(c: Config, st: Sched, isPrefill: bool, items: seq<Item>, sampled: seq<Token>, isEos: Token -> bool): (r: (Status, Sched))
    requires WellFormed(st) && |sampled| == |items| && forall k :: 0 <= k < |items| ==> items[k].who < |st.seqs|
    ensures WellFormed(r.1) && |r.1.seqs| == |st.seqs|
    decreases |items|
  {
    if items == [] then (Success, st) else
      var (status, st1) := Post1(c, st, isPrefill, items[0].who, sampled[0], isEos);
      if status.Failure? then (status, st1)
      else Post(c, st1, isPrefill, items[1..], sampled[1..], isEos)
  }

  /** Scheduler::postprocess. */
  function Postprocess(c: Config, st: Sched, plan: Plan, sampled: seq<Token>, isEos: Token -> bool): (r: (Status, Sched))
    requires WellFormed(st) && forall k :: 0 <= k < |plan.items| ==> plan.items[k].who < |st.seqs|
    ensures WellFormed(r.1) && |r.1.seqs| == |st.seqs|
  {
    if |sampled| != |plan.items| then (Failure(WrongSampleCount), st)
    else Post(c, st, plan.isPrefill, plan.items, sampled, isEos)
  }
}
