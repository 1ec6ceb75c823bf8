/** The class of engine/src/scheduler.cpp: two queues of shared sequences over a block manager. Every
    method is proved to leave exactly the state that the functions of SchedulerSpec give. */
module Schedulers {
  import opened Common
  import opened Blocks
  import opened Sequences
  import opened BlockPool
  import opened BlockManagers
  import opened SchedulerSpec

  datatype ScheduledSequence = ScheduledSequence(sequence: Sequence, start: nat, count: nat)

  datatype BatchPlan = BatchPlan(isPrefill: bool, numTokens: nat, items: seq<ScheduledSequence>)

  type Names = map<Sequence, nat>

  /** The names of the members of a queue. */
  ghost function NamesOf(names: Names, queue: seq<Sequence>): (r: seq<nat>)
    ensures |r| == |queue| && forall i :: 0 <= i < |queue| ==> r[i] == Name(names, queue[i])
  {
    seq(|queue|, i requires 0 <= i < |queue| => Name(names, queue[i]))
  }

  ghost function Name(names: Names, s: Sequence): nat {
    if s in names then names[s] else 0
  }

  ghost function ItemsOf(names: Names, items: seq<ScheduledSequence>): (r: seq<Item>)
    ensures |r| == |items|
    ensures forall i :: 0 <= i < |items| ==> r[i] == Item(Name(names, items[i].sequence), items[i].start, items[i].count)
  {
    seq(|items|, i requires 0 <= i < |items| => Item(Name(names, items[i].sequence), items[i].start, items[i].count))
  }

  ghost function PlanOf(names: Names, plan: BatchPlan): Plan {
    Plan(plan.isPrefill, plan.numTokens, ItemsOf(names, plan.items))
  }

  ghost function Values(all: seq<Sequence>): (r: seq<SeqState>)
    reads all
    ensures |r| == |all| && forall i :: 0 <= i < |all| ==> r[i] == all[i].V()
  {
    seq(|all|, i requires 0 <= i < |all| reads all => all[i].V())
  }

  /** The sequences are told apart by their names. */
  ghost predicate Named(names: Names, all: seq<Sequence>) {
    && (forall i :: 0 <= i < |all| ==> all[i] in names && names[all[i]] == i)
    && (forall s :: s in names ==> names[s] < |all| && all[names[s]] == s)
  }

  ghost predicate AllNamed(names: Names, queue: seq<Sequence>) {
    forall i :: 0 <= i < |queue| ==> queue[i] in names
  }

  ghost predicate ItemsNamed(names: Names, items: seq<ScheduledSequence>) {
    forall i :: 0 <= i < |items| ==> items[i].sequence in names
  }

  /** The decode loop's last move with a sequence that has room for its next position. */
  ghost function Pushed(st: Sched, i: nat): Sched
    requires i < |st.seqs|
  {
    Put(st, i, st.pool, st.seqs[i].(scheduled := 1, isPrefill := false)).(running := st.running + [i])
  }

  lemma ItemsSnoc(names: Names, items: seq<ScheduledSequence>, last: ScheduledSequence)
    requires ItemsNamed(names, items) && last.sequence in names
    ensures ItemsNamed(names, items + [last])
    ensures ItemsOf(names, items + [last]) == ItemsOf(names, items) + [Item(names[last.sequence], last.start, last.count)]
  {
  }

  /** A round of the prefill loop, move by move. */
  lemma Prefill1Moves(c: Config, st: Sched, items: seq<Item>, batched: nat)
    requires WellFormed(st) && batched <= c.maxNumBatchedTokens && st.waiting != []
    ensures st.waiting[0] < |st.seqs|
    ensures var i := st.waiting[0];
      var (go, st1) := SchedulerSpec.Admit(c, st, i);
      i < |st1.seqs| &&
      Prefill1(c, st, items, batched) ==
        if go == None then Round(Success, st1, items, batched, false)
        else if go.value.Failure? then Round(go.value, st1, items, batched, false)
        else
          var remaining := |st1.seqs[i].tokens| - st1.seqs[i].cached;
          var available := c.maxNumBatchedTokens - batched;
          if remaining <= 0 then Round(Failure(NothingUncached), st1, items, batched, false)
          else if available == 0 || (available < remaining && items != []) then Round(Success, st1, items, batched, false)
          else
            var count := if remaining < available then remaining else available;
            Round(Success, Schedule1(st1, i, count), items + [Item(i, st1.seqs[i].cached, count)], batched + count,
                  st1.seqs[i].cached + count == |st1.seqs[i].tokens|)
  {
    hide SchedulerSpec.Admit, Schedule1;
  }

  /** A round of the decode loop, move by move. */
  lemma Decode1Moves(c: Config, st: Sched, items: seq<Item>)
    requires WellFormed(st) && st.running != []
    ensures var i := st.running[0];
      var st1 := st.(running := st.running[1..]);
      var (status, p, t) := BlockPool.MayAppend(c, st.pool, st.seqs[i]);
      Decode1(c, st, items) ==
        if !BlockPool.CanAppend(c, st.pool, st.seqs[i]) then (SchedulerSpec.Preempt(st1, i), items, true)
        else if status.Failure? then (SchedulerSpec.Preempt(Put(st1, i, p, t), i), items, true)
        else (Pushed(Put(st1, i, p, t), i), items + [Item(i, |t.tokens| - 1, 1)], false)
  {
    hide BlockPool.MayAppend, BlockPool.CanAppend, SchedulerSpec.Preempt;
    var i := st.running[0];
    var t := BlockPool.MayAppend(c, st.pool, st.seqs[i]).2;
    assert st.seqs[i := t][i := t.(scheduled := 1, isPrefill := false)] == st.seqs[i := t.(scheduled := 1, isPrefill := false)];
  }

  class Scheduler {
    const c: Config
    const manager: BlockManager
    var waiting: seq<Sequence>
    var running: seq<Sequence>
    /** Every sequence ever added, in order of arrival, and its place there. */
    ghost var all: seq<Sequence>
    ghost var names: Names

    ghost predicate Valid()
      reads this, manager, all
    {
      && manager.c == c && manager.Valid()
      && Named(names, all)
      && AllNamed(names, waiting) && AllNamed(names, running)
      && WellFormed(Abs())
    }

    lemma At(s: Sequence)
      requires Valid() && s in names
      ensures s in all && names[s] < |all| && all[names[s]] == s && Abs().seqs[names[s]] == s.V()
      ensures manager.Valid() && TableInRange(manager.P(), s.table) && s.V().tokens == s.tokens && s.V().cached == s.cached
    {
    }

    /** The scheduler as a value. */
    ghost function Abs(): (r: Sched)
      reads this, manager, all
      ensures r.pool == manager.P() && |r.waiting| == |waiting| && |r.running| == |running|
    {
      Sched(manager.P(), Values(all), NamesOf(names, waiting), NamesOf(names, running))
    }

    /** One sequence and the pool have changed since. */
    twostate lemma Only(s: Sequence)
      requires old(Valid()) && s in old(names) && manager.Valid() && |manager.blocks| == |old(manager.blocks)|
      requires unchanged(this) && forall t :: t in all && t != s ==> unchanged(t)
      requires TableInRange(manager.P(), s.table)
      ensures Valid() && Abs() == Put(old(Abs()), names[s], manager.P(), s.V())
    {
      hide Values, NamesOf, ItemsOf;
      forall j | 0 <= j < |all| && j != names[s] ensures all[j].V() == old(all[j].V()) {
        assert all[j] in all && all[j] != s;
      }
      assert Values(all) == old(Values(all))[names[s] := s.V()];
    }

    /** The queues have changed since, and nothing else. */
    twostate lemma Requeued()
      requires old(Valid()) && names == old(names) && all == old(all) && unchanged(manager) && unchanged(all)
      requires AllNamed(names, waiting) && AllNamed(names, running)
      ensures Valid() && Abs() == old(Abs()).(waiting := NamesOf(names, waiting), running := NamesOf(names, running))
    {
      hide Values;
      assert Values(all) == old(Values(all));
    }

    lemma Queues()
      requires Valid()
      ensures AllNamed(names, waiting) && AllNamed(names, running)
      ensures Abs().waiting == NamesOf(names, waiting) && Abs().running == NamesOf(names, running)
    {
    }

    lemma AtTable(s: Sequence)
      requires Valid() && s in names
      ensures names[s] < |Abs().seqs|
      ensures Abs().seqs[names[s]].table == s.table && Abs().seqs[names[s]].tokens == s.tokens && Abs().seqs[names[s]].status == s.status
    {
    }

    lemma Sizes()
      requires Valid()
      ensures |Abs().seqs| == |all|
    {
    }

    lemma Fronts()
      requires Valid()
      ensures WellFormed(Abs())
      ensures waiting != [] ==> waiting[0] in names && waiting[0] in all && Abs().waiting[0] == names[waiting[0]]
      ensures running != [] ==> running[0] in names && running[0] in all && Abs().running[0] == names[running[0]]
    {
    }

    constructor (c: Config)
      ensures Valid() && fresh(manager) && Abs() == EmptySched(c) && this.c == c && all == []
    {
      this.c := c;
      manager := new BlockManager(c);
      waiting, running := [], [];
      all, names := [], map[];
    }

    /** The sequence must not have been added before. */
    method Add(s: Sequence) returns (status: Status)
      requires Valid() && s !in all && s.table == []
      modifies this
      ensures Valid() && (status, Abs()) == SchedulerSpec.Add(c, old(Abs()), old(s.V()), s.blockSize)
      ensures all == if status == Success then old(all) + [s] else old(all)
    {
      if |s.tokens| == 0 {
        return Failure(EmptyRequest);
      }
      if s.blockSize != c.blockSize {
        return Failure(BlockSizeMismatch);
      }
      waiting := waiting + [s];
      names := names[s := |all|];
      all := all + [s];
      assert Values(all) == old(Values(all)) + [s.V()];
      assert NamesOf(names, waiting) == NamesOf(old(names), old(waiting)) + [|old(all)|];
      assert NamesOf(names, running) == NamesOf(old(names), old(running));
      return Success;
    }

    method IsFinished() returns (finished: bool)
      requires Valid()
      ensures finished == SchedulerSpec.IsFinished(Abs())
    {
      return waiting == [] && running == [];
    }

    method Preempt(s: Sequence)
      requires Valid() && s in names
      modifies this`waiting, manager, s
      ensures Valid() && Abs() == SchedulerSpec.Preempt(old(Abs()), names[s])
    {
      hide BlockPool.Deallocate, NamesOf, Values, WellFormed, Abs, Named;
      At(s);
      manager.Deallocate(s);
      s.status := Waiting;
      s.isPrefill := true;
      s.scheduled := 0;
      Only(s);
      label changed:
      Queues();
      waiting := [s] + waiting;
      Requeued@changed();
      assert NamesOf(names, waiting) == [names[s]] + old(NamesOf(names, waiting));
    }

    /** The blocks of the first waiting sequence, if it has none yet; None when it must wait. */
    method Admit(s: Sequence) returns (go: Option<Status>)
      requires Valid() && s in names
      modifies manager, s
      ensures Valid() && (go, Abs()) == SchedulerSpec.Admit(c, old(Abs()), names[s])
    {
      ghost var i := names[s];
      At(s);
      assert old(Values(all))[i := s.V()] == old(Values(all));
      if s.table != [] {
        return Some(Success);
      }
      var fits, cachedBlocks := manager.CanAllocate(s);
      if !fits {
        if NumBlocks(|s.tokens|, c.blockSize) > |manager.blocks| {
          return Some(Failure(PromptNeedsTooManyBlocks));
        }
        return None;
      }
      var status := manager.Allocate(s, cachedBlocks);
      assert Values(all) == old(Values(all))[i := s.V()];
      return Some(status);
    }

    /** The first waiting sequence gets `count` tokens; it starts running if they complete its prompt. */
    method Take(s: Sequence, count: nat) returns (complete: bool)
      requires Valid() && waiting != [] && waiting[0] == s
      modifies this`waiting, this`running, s
      ensures Valid() && s in names && Abs() == Schedule1(old(Abs()), names[s], count)
      ensures complete == (old(s.cached) + count == |old(s.tokens)|) && s.cached == old(s.cached)
    {
      hide NamesOf, Values, WellFormed, Abs, Named;
      Fronts();
      At(s);
      ghost var i := names[s];
      s.scheduled := count;
      s.isPrefill := true;
      complete := s.cached + count == |s.tokens|;
      if complete {
        s.status := Running;
      }
      Only(s);
      label changed:
      Queues();
      if complete {
        waiting := waiting[1..];
        running := running + [s];
        assert NamesOf(names, waiting) == old(NamesOf(names, waiting))[1..];
        Requeued@changed();
        assert NamesOf(names, running) == old(NamesOf(names, running)) + [i];
      }
    }

    /** One round of the first loop of schedule. */
    method PrefillRound(before: seq<ScheduledSequence>, batchedBefore: nat)
      returns (status: Status, items: seq<ScheduledSequence>, batched: nat, again: bool)
      requires Valid() && waiting != [] && batchedBefore <= c.maxNumBatchedTokens && ItemsNamed(names, before)
      modifies this`waiting, this`running, manager, all
      ensures Valid() && ItemsNamed(names, items)
      ensures Round(status, Abs(), ItemsOf(names, items), batched, again)
        == Prefill1(c, old(Abs()), ItemsOf(names, before), batchedBefore)
      ensures again ==> status == Success
    {
      hide *;
      items, batched := before, batchedBefore;
      Fronts();
      var s := waiting[0];
      ghost var i := names[s];
      ghost var st := Abs();
      Prefill1Moves(c, st, ItemsOf(names, items), batched);
      var go := Admit(s);
      ghost var st1 := Abs();
      At(s);
      if go == None {
        return Success, items, batched, false;
      }
      if go.value.Failure? {
        return go.value, items, batched, false;
      }
      var remaining := |s.tokens| - s.cached;
      if remaining <= 0 {
        return Failure(NothingUncached), items, batched, false;
      }
      var available := c.maxNumBatchedTokens - batched;
      if available == 0 || (available < remaining && items != []) {
        return Success, items, batched, false;
      }
      var count := if remaining < available then remaining else available;
      again := Take(s, count);
      items := items + [ScheduledSequence(s, s.cached, count)];
      batched := batched + count;
      status := Success;
      ItemsSnoc(names, before, items[|before|]);
    }

    /** The first loop of schedule. */
    method Prefills() returns (status: Status, items: seq<ScheduledSequence>, batched: nat)
      requires Valid()
      modifies this`waiting, this`running, manager, all
      ensures Valid() && ItemsNamed(names, items)
      ensures (status, Abs(), ItemsOf(names, items), batched) == Prefill(c, old(Abs()), [], 0)
    {
      hide Abs, Named, AllNamed, BlockManager.Valid, Prefill1, WellFormed;
      status, items, batched := Success, [], 0;
      var again := true;
      while again && waiting != [] && |items| < c.maxNumSeqs
        invariant Valid() && ItemsNamed(names, items) && batched <= c.maxNumBatchedTokens
        invariant again ==> status == Success
        invariant Prefill(c, old(Abs()), [], 0) ==
          if again then Prefill(c, Abs(), ItemsOf(names, items), batched)
          else (status, Abs(), ItemsOf(names, items), batched)
        decreases again, |waiting|
      {
        status, items, batched, again := PrefillRound(items, batched);
      }
    }

    /** The front of the running queue. */
    method PopRunning() returns (s: Sequence)
      requires Valid() && running != []
      modifies this`running
      ensures Valid() && s in names && s in all && Abs() == old(Abs()).(running := old(Abs()).running[1..])
      ensures names[s] == old(Abs()).running[0] && Abs().seqs[names[s]] == s.V()
    {
      s := running[0];
      At(s);
      running := running[1..];
      assert NamesOf(names, running) == old(NamesOf(names, running))[1..];
    }

    /** may_append on a sequence, as the pool and the sequence together. */
    method Grow(s: Sequence) returns (status: Status)
      requires Valid() && s in names
      modifies manager, s`table
      ensures Valid() && Abs().seqs[names[s]] == s.V()
      ensures var (status', p, t) := BlockPool.MayAppend(c, old(Abs()).pool, old(s.V())); status == status' && s.V() == t && s.tokens == t.tokens && Abs() == Put(old(Abs()), names[s], p, t)
    {
      At(s);
      hide BlockPool.MayAppend;
      status := manager.MayAppend(s);
      assert Values(all) == old(Values(all))[names[s] := s.V()];
    }

    /** A sequence with room for its next position goes to the back of the running queue. */
    method PushRunning(s: Sequence)
      requires Valid() && s in names
      modifies this`running, s`scheduled, s`isPrefill
      ensures Valid() && Abs() == Pushed(old(Abs()), names[s])
    {
      At(s);
      s.scheduled := 1;
      s.isPrefill := false;
      running := running + [s];
      assert Values(all) == old(Values(all))[names[s] := s.V()];
      assert NamesOf(names, running) == old(NamesOf(names, running)) + [names[s]];
    }

    /** One round of the second loop of schedule: the front of the running queue goes into the plan and
        to the back, or is preempted. */
    method DecodeRound(before: seq<ScheduledSequence>) returns (items: seq<ScheduledSequence>, preempted: bool)
      requires Valid() && running != [] && ItemsNamed(names, before)
      modifies this`waiting, this`running, manager, all
      ensures Valid() && ItemsNamed(names, items)
      ensures (Abs(), ItemsOf(names, items), preempted) == Decode1(c, old(Abs()), ItemsOf(names, before))
    {
      hide *;
      items := before;
      Fronts();
      Decode1Moves(c, Abs(), ItemsOf(names, before));
      var s := PopRunning();
      var can := manager.CanAppend(s);
      if !can {
        Preempt(s);
        return items, true;
      }
      var status := Grow(s);
      if status.Failure? {
        Preempt(s);
        return items, true;
      }
      PushRunning(s);
      items := items + [ScheduledSequence(s, |s.tokens| - 1, 1)];
      preempted := false;
      ItemsSnoc(names, before, items[|before|]);
    }

    /** The second loop of schedule. */
    method Decodes() returns (items: seq<ScheduledSequence>, preempted: bool)
      requires Valid()
      modifies this`waiting, this`running, manager, all
      ensures Valid() && ItemsNamed(names, items)
      ensures (Abs(), ItemsOf(names, items), preempted) == Decode(c, old(Abs()), [], |old(running)|, false)
    {
      hide Abs, Named, AllNamed, BlockManager.Valid, Decode1, WellFormed;
      items, preempted := [], false;
      var candidates := |running|;
      var i := 0;
      while i < candidates && |items| < c.maxNumSeqs
        invariant Valid() && ItemsNamed(names, items)
        invariant i <= candidates && candidates - i <= |running|
        invariant Decode(c, old(Abs()), [], candidates, false) == Decode(c, Abs(), ItemsOf(names, items), candidates - i, preempted)
      {
        var out;
        items, out := DecodeRound(items);
        preempted := preempted || out;
        i := i + 1;
      }
    }

    method Schedule() returns (status: Status, plan: BatchPlan)
      requires Valid()
      modifies this`waiting, this`running, manager, all
      ensures Valid() && ItemsNamed(names, plan.items)
      ensures (status, Abs(), PlanOf(names, plan)) == SchedulerSpec.Schedule(c, old(Abs()))
      decreases |running|
    {
      hide Abs, Named, AllNamed, BlockManager.Valid, Prefill, Decode, WellFormed;
      var items, batched;
      status, items, batched := Prefills();
      if status.Failure? {
        return status, BatchPlan(false, 0, items);
      }
      if items != [] {
        return Success, BatchPlan(true, batched, items);
      }
      var preempted;
      items, preempted := Decodes();
      var finished := IsFinished();
      if items == [] && !finished {
        if preempted {
          status, plan := Schedule();
          return;
        }
        return Failure(NoProgress), BatchPlan(false, 0, []);
      }
      return Success, BatchPlan(false, |items|, items);
    }

    /** std::remove and erase on the running queue. */
    method Remove(s: Sequence)
      requires Valid() && s in names
      modifies this`running
      ensures Valid() && Abs() == old(Abs()).(running := Without(old(Abs()).running, names[s]))
    {
      var kept := [];
      var k := |running|;
      while k > 0
        invariant 0 <= k <= |running| && AllNamed(names, kept)
        invariant NamesOf(names, kept) == Without(NamesOf(names, running)[k..], names[s])
      {
        k := k - 1;
        ghost var was := kept;
        if running[k] != s {
          kept := [running[k]] + kept;
          assert NamesOf(names, kept) == [names[running[k]]] + NamesOf(names, was);
          assert names[running[k]] != names[s];
        }
        assert NamesOf(names, running)[k..] == [names[running[k]]] + NamesOf(names, running)[k + 1..];
      }
      assert NamesOf(names, running)[0..] == NamesOf(names, running);
      running := kept;
    }

    /** One round of postprocess. */
    method PostRound(isPrefill: bool, s: Sequence, token: Token, isEos: Token -> bool) returns (status: Status)
      requires Valid() && s in names
      modifies this`running, manager, all
      ensures Valid() && (status, Abs()) == Post1(c, old(Abs()), isPrefill, names[s], token, isEos)
    {
      hide BlockPool.HashBlocks, SchedulerSpec.Accept, WellFormed, Abs, Named, AllNamed;
      At(s);
      status := manager.HashBlocks(s);
      if status.Failure? {
        Only(s);
        return;
      }
      s.cached := s.cached + s.scheduled;
      s.scheduled := 0;
      Only(s);
      if isPrefill && s.cached < |s.tokens| {
        return Success;
      }
      if token < 0 {
        return Failure(MissingToken);
      }
      Accept(s, token, isEos);
      return Success;
    }

    /** The end of a round of postprocess. */
    method Accept(s: Sequence, token: Token, isEos: Token -> bool)
      requires Valid() && s in names
      modifies this`running, manager, s
      ensures Valid() && Abs() == SchedulerSpec.Accept(c, old(Abs()), names[s], token, isEos)
    {
      hide BlockPool.Deallocate, Without, WellFormed, Abs, Named, AllNamed;
      At(s);
      s.AppendToken(token);
      var stoppedOnEos := !s.sampling.ignoreEos && isEos(token);
      var reachedLimit := s.sampling.maxTokens >= 0 && |s.tokens| - s.promptSize >= s.sampling.maxTokens;
      if stoppedOnEos || reachedLimit {
        s.status := Finished;
        manager.Deallocate(s);
        Only(s);
        Remove(s);
      } else {
        Only(s);
      }
    }

    lemma ItemsInRange(items: seq<ScheduledSequence>)
      requires Valid() && ItemsNamed(names, items)
      ensures WellFormed(Abs()) && forall k :: 0 <= k < |items| ==> ItemsOf(names, items)[k].who < |Abs().seqs|
    {
    }

    method Postprocess(plan: BatchPlan, sampled: seq<Token>, isEos: Token -> bool) returns (status: Status)
      requires Valid() && ItemsNamed(names, plan.items)
      modifies this`running, manager, all
      ensures Valid() && (status, Abs()) == SchedulerSpec.Postprocess(c, old(Abs()), PlanOf(names, plan), sampled, isEos)
    {
      hide Post1, WellFormed, Abs, Named, AllNamed, ItemsOf;
      ItemsInRange(plan.items);
      if |sampled| != |plan.items| {
        return Failure(WrongSampleCount);
      }
      ghost var items := ItemsOf(names, plan.items);
      assert items[0..] == items && sampled[0..] == sampled;
      var k := 0;
      while k < |plan.items|
        invariant 0 <= k <= |plan.items| && Valid() && WellFormed(Abs()) && |Abs().seqs| == |old(Abs()).seqs|
        invariant Post(c, old(Abs()), plan.isPrefill, items, sampled, isEos) == Post(c, Abs(), plan.isPrefill, items[k..], sampled[k..], isEos)
      {
        assert items[k..][1..] == items[k + 1..] && sampled[k..][1..] == sampled[k + 1..];
        status := PostRound(plan.isPrefill, plan.items[k].sequence, sampled[k], isEos);
        if status.Failure? {
          return;
        }
        k := k + 1;
      }
      return Success;
    }
  }
}
