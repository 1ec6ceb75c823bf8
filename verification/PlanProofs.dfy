/** What schedule takes into a plan, from the state before and after, whatever loop built it: prompts in their
    order, as many and as much of each as the limits and the pool allow; and running sequences without
    preemption exactly as long as the free blocks last. */
module PlanProofs {
  import opened Common
  import opened Blocks
  import opened Sequences
  import opened BlockPool
  import opened BlockInvariants
  import opened PrefixCache
  import opened AllocationProofs
  import opened SchedulerSpec
  import opened SchedulerProofs
  import opened ScheduleProofs

  // ---------------------------------------------------------------- prefill

  function Lesser(a: int, b: int): int {
    if a < b then a else b
  }

  /** Item `k` has what its sequence lacked, or all the budget that was left. */
  ghost predicate ItemFull(c: Config, seqs: seq<SeqState>, items: seq<Item>, k: nat)
    requires k < |items|
  {
    && items[k].who < |seqs|
    && items[k].count == Lesser(|seqs[items[k].who].tokens| - items[k].start, c.maxNumBatchedTokens - Total(items[..k]))
  }

  /** Does the last item complete its prompt? */
  ghost predicate LastComplete(seqs: seq<SeqState>, items: seq<Item>) {
    items != [] ==> Complete(seqs, items[|items| - 1])
  }

  ghost predicate Complete(seqs: seq<SeqState>, item: Item) {
    item.who < |seqs| && item.start + item.count == |seqs[item.who].tokens|
  }

  /** Why a plan takes in no more of the waiting queue. */
  ghost predicate NoneToAdd(c: Config, st: Sched, items: seq<Item>)
    requires InRange(st.pool)
  {
    st.waiting != [] ==>
      || |items| == c.maxNumSeqs
      || !LastComplete(st.seqs, items)
      || (&& st.waiting[0] < |st.seqs|
          && var front := st.seqs[st.waiting[0]];
             if front.table != [] then |front.tokens| - front.cached > c.maxNumBatchedTokens - Total(items)
             else !CanAllocate(c, st.pool, front.tokens).0)
  }

  /** The planned sequences head the queue in order, and all that are complete have left it. */
  ghost predicate InOrder(st: Sched, st': Sched, items: seq<Item>, from: nat)
  {
    && from <= |items| && |items| - from <= |st.waiting|
    && (forall k: nat :: from <= k < |items| ==> items[k].who == st.waiting[k - from])
    && st'.waiting == st.waiting[(if LastComplete(st'.seqs, items) || |items| == from then |items| - from else |items| - from - 1)..]
  }

  ghost predicate Filled(c: Config, st: Sched, st': Sched, items: seq<Item>, from: nat)
    requires InRange(st'.pool)
  {
    && (forall k: nat :: from <= k < |items| ==> ItemFull(c, st'.seqs, items, k))
    && (forall k: nat :: from <= k && k + 1 < |items| ==> Complete(st'.seqs, items[k]))
    && NoneToAdd(c, st', items) && InOrder(st, st', items, from)
  }

  /** A round that is the last. */
  lemma LastRound(c: Config, st: Sched, items: seq<Item>, batched: nat)
    requires PrefillInv(c, st, items, batched) && WellFormed(st) && FrontIdle(st) && batched <= c.maxNumBatchedTokens
    requires st.waiting != [] && |items| < c.maxNumSeqs && LastComplete(st.seqs, items)
    requires !Prefill1(c, st, items, batched).again && Prefill1(c, st, items, batched).status == Success
    ensures var r := Prefill1(c, st, items, batched);
      InRange(r.st.pool) && Filled(c, st, r.st, r.items, |items|)
  {
    hide PrefillInv, WellFormed, Filled, Admit, Schedule1, SameText, LastComplete, CanAllocate;
    PrefillWithin(c, st, items, batched);
    FrontInRange(st);
    var i := st.waiting[0];
    PrefillAdmits(c, st, items, batched);
    AdmitStops(c, st, i);
    var (go, st1) := Admit(c, st, i);
    SameComplete(st.seqs, st1.seqs, items);
    var r := Prefill1(c, st, items, batched);
    if |r.items| > |items| {
      ScheduledWithin(c, st, st1, items, i, c.maxNumBatchedTokens - batched);
    } else {
      StopsHere(c, st, st1, items);
    }
  }

  lemma PrefillWithin(c: Config, st: Sched, items: seq<Item>, batched: nat)
    requires PrefillInv(c, st, items, batched)
    ensures Total(items) == batched <= c.maxNumBatchedTokens
  {
    hide Inv, Matches, Total;
  }

  lemma StopsHere(c: Config, st: Sched, st1: Sched, items: seq<Item>)
    requires WellFormed(st1) && st.waiting != [] && st1.waiting == st.waiting && LastComplete(st1.seqs, items)
    requires st.waiting[0] < |st1.seqs|
    requires var front := st1.seqs[st.waiting[0]];
      if front.table != [] then |front.tokens| - front.cached > c.maxNumBatchedTokens - Total(items)
      else !CanAllocate(c, st1.pool, front.tokens).0
    ensures InRange(st1.pool) && Filled(c, st, st1, items, |items|)
  {
    hide CanAllocate, Total, Complete;
    assert st.waiting[0..] == st.waiting;
  }

  /** The front takes all the budget and is still incomplete. */
  lemma ScheduledWithin(c: Config, st: Sched, st1: Sched, items: seq<Item>, i: nat, count: nat)
    requires WellFormed(st1) && st.waiting != [] && st1.waiting == st.waiting && i == st.waiting[0] && i < |st1.seqs|
    requires count < |st1.seqs[i].tokens| - st1.seqs[i].cached && count == c.maxNumBatchedTokens - Total(items)
    requires LastComplete(st1.seqs, items)
    ensures var st' := Schedule1(st1, i, count);
      InRange(st'.pool) && Filled(c, st, st', items + [Item(i, st1.seqs[i].cached, count)], |items|)
  {
    hide Schedule1, ItemFull, LastComplete, Complete, InOrder, NoneToAdd, WellFormed, Total;
    Schedule1Stays(st1, i, count);
    LastPart(c, st1.seqs, Schedule1(st1, i, count).seqs, items, i, count);
    PartInOrder(c, st, Schedule1(st1, i, count), items, Item(i, st1.seqs[i].cached, count));
  }

  lemma PartInOrder(c: Config, st: Sched, st': Sched, items: seq<Item>, item: Item)
    requires st.waiting != [] && st'.waiting == st.waiting && item.who == st.waiting[0]
    requires InRange(st'.pool) && !LastComplete(st'.seqs, items + [item])
    ensures InOrder(st, st', items + [item], |items|) && NoneToAdd(c, st', items + [item])
  {
    hide LastComplete, CanAllocate, Total, InRange, InOrder;
    PartHeads(st, st', items + [item], |items|);
  }

  lemma PartHeads(st: Sched, st': Sched, more: seq<Item>, n: nat)
    requires st.waiting != [] && st'.waiting == st.waiting
    requires |more| == n + 1 && more[n].who == st.waiting[0] && !LastComplete(st'.seqs, more)
    ensures InOrder(st, st', more, n)
  {
    hide LastComplete;
    assert st.waiting[0..] == st.waiting;
  }

  /** An item that takes the rest of the budget and leaves its prompt incomplete. */
  lemma LastPart(c: Config, seqs: seq<SeqState>, seqs': seq<SeqState>, items: seq<Item>, i: nat, count: nat)
    requires i < |seqs| && |seqs'| == |seqs| && seqs'[i].tokens == seqs[i].tokens
    requires count < |seqs[i].tokens| - seqs[i].cached && count == c.maxNumBatchedTokens - Total(items)
    ensures var more := items + [Item(i, seqs[i].cached, count)];
      ItemFull(c, seqs', more, |items|) && !LastComplete(seqs', more)
  {
    hide Total;
    var more := items + [Item(i, seqs[i].cached, count)];
    assert more[..|items|] == items;
  }

  /** A prompt that is scheduled in part stays where it is. */
  lemma Schedule1Stays(st: Sched, i: nat, count: nat)
    requires WellFormed(st) && st.waiting != [] && i == st.waiting[0] && i < |st.seqs| && count < |st.seqs[i].tokens| - st.seqs[i].cached
    ensures var st' := Schedule1(st, i, count);
      && InRange(st'.pool) && st'.waiting == st.waiting && |st'.seqs| == |st.seqs|
      && st'.seqs[i].tokens == st.seqs[i].tokens && st'.seqs == st.seqs[i := st'.seqs[i]]
  {
  }

  /** Admission stops the loop only for want of free blocks. */
  lemma AdmitStops(c: Config, st: Sched, i: nat)
    requires WellFormed(st) && i < |st.seqs|
    ensures var (go, st1) := Admit(c, st, i);
      && st1.waiting == st.waiting
      && (go == None ==> st1 == st && st.seqs[i].table == [] && !CanAllocate(c, st.pool, st.seqs[i].tokens).0)
  {
    hide CanAllocate, Allocate;
  }

  lemma SameComplete(a: seq<SeqState>, b: seq<SeqState>, items: seq<Item>)
    requires SameText(a, b) && LastComplete(a, items)
    ensures LastComplete(b, items)
  {
    if items != [] {
      assert SameRequest(a[items[|items| - 1].who], b[items[|items| - 1].who]);
    }
  }

  /** A round after which the loop goes on. */
  lemma NextRound(c: Config, st: Sched, items: seq<Item>, batched: nat)
    requires PrefillInv(c, st, items, batched) && WellFormed(st) && FrontIdle(st) && batched <= c.maxNumBatchedTokens
    requires st.waiting != [] && |items| < c.maxNumSeqs && Prefill1(c, st, items, batched).again
    ensures var r := Prefill1(c, st, items, batched);
      && |r.items| == |items| + 1 && r.items[..|items|] == items && r.st.waiting == st.waiting[1..]
      && r.items[|items|].who == st.waiting[0] && ItemFull(c, r.st.seqs, r.items, |items|)
      && LastComplete(r.st.seqs, r.items)
  {
    var i := st.waiting[0];
    PrefillAdmits(c, st, items, batched);
    AdmitStops(c, st, i);
    var st1 := Admit(c, st, i).1;
    hide Admit, Inv, Matches;
    var r := Prefill1(c, st, items, batched);
    assert r.items[..|items|] == items;
    assert st1.seqs[i].tokens == r.st.seqs[i].tokens;
  }

  lemma FilledNext(c: Config, st: Sched, r: Sched, st': Sched, before: seq<Item>, items: seq<Item>)
    requires InRange(st'.pool) && |before| > 0 && Filled(c, r, st', items, |before|) && before <= items
    requires st.waiting != [] && r.waiting == st.waiting[1..] && before[|before| - 1].who == st.waiting[0]
    requires SameText(r.seqs, st'.seqs) && ItemFull(c, r.seqs, before, |before| - 1) && LastComplete(r.seqs, before)
    ensures Filled(c, st, st', items, |before| - 1)
  {
    hide CanAllocate, Total;
    var k := |before| - 1;
    var i := before[k].who;
    assert before[..k] == items[..k] && before[k] == items[k];
    assert SameRequest(r.seqs[i], st'.seqs[i]);
    assert ItemFull(c, st'.seqs, items, k);
    if |items| == |before| {
      assert items == before;
    }
  }

  /** The prefill loop, from any of its rounds on. */
  lemma {:induction false} PrefillFills(c: Config, st: Sched, items: seq<Item>, batched: nat)
    requires PrefillInv(c, st, items, batched) && WellFormed(st) && FrontIdle(st) && batched <= c.maxNumBatchedTokens
    requires LastComplete(st.seqs, items)
    ensures var (status, st', items', batched') := Prefill(c, st, items, batched);
      status == Success ==> InRange(st'.pool) && Filled(c, st, st', items', |items|)
    decreases |st.waiting|
  {
    if st.waiting != [] && |items| < c.maxNumSeqs {
      Prefill1Ok(c, st, items, batched);
      var r := Prefill1(c, st, items, batched);
      assert PrefillInv(c, r.st, r.items, r.batched);
      hide Prefill1, PrefillInv, WellFormed, FrontIdle, Filled, ItemFull, LastComplete, SameText;
      if r.again {
        NextRound(c, st, items, batched);
        PrefillOk(c, r.st, r.items, r.batched);
        PrefillFills(c, r.st, r.items, r.batched);
        var q := Prefill(c, r.st, r.items, r.batched);
        if q.0 == Success {
          FilledNext(c, st, r.st, q.1, r.items, q.2);
        }
      } else if r.status == Success {
        LastRound(c, st, items, batched);
      }
    } else {
      StopsFull(c, st, items, batched);
    }
  }

  lemma StopsFull(c: Config, st: Sched, items: seq<Item>, batched: nat)
    requires PrefillInv(c, st, items, batched) && WellFormed(st) && (st.waiting == [] || |items| >= c.maxNumSeqs)
    ensures InRange(st.pool) && Filled(c, st, st, items, |items|)
  {
    hide Inv, Matches, Total;
    assert st.waiting[0..] == st.waiting;
  }

  /** A prefill plan is as large as it can be. Each item takes what its sequence lacks or the budget that is
      left, each but the last completes its prompt, and if prompts are left waiting, the plan has
      max_num_seqs items, or ends within a prompt, or the next prompt does not go into the budget whole or
      finds too few free blocks. */
  ghost predicate Maximal(c: Config, st: Sched, plan: Plan)
    requires InRange(st.pool)
  {
    && (forall k: nat :: k < |plan.items| ==> ItemFull(c, st.seqs, plan.items, k))
    && (forall k: nat :: k + 1 < |plan.items| ==> Complete(st.seqs, plan.items[k]))
    && NoneToAdd(c, st, plan.items)
  }

  lemma {:induction false} SchedulePrefillMaximal(c: Config, st: Sched)
    requires Inv(c, st) && WellFormed(st) && Quiet(st.seqs)
    ensures var r := Schedule(c, st);
      r.0 == Success && r.2.isPrefill ==> InRange(r.1.pool) && Maximal(c, r.1, r.2)
    decreases |st.running|
  {
    hide Schedule, Prefill, Decode, PrefillInv, FrontIdle, FrontBare, Inv, Matches, Quiet, SameText, WellFormed, DecodeDone, OneEach, Maximal;
    StartPrefill(c, st);
    PrefillFills(c, st, [], 0);
    PrefillOk(c, st, [], 0);
    ScheduleGoes(c, st);
    var (status, st1, items, batched) := Prefill(c, st, [], 0);
    if status == Success && items == [] {
      DecodePhase(c, st);
      var (st2, items2, preempted) := Decode(c, st, [], |st.running|, false);
      DoneIs(c, st, st2, items2);
      if items2 == [] && !IsFinished(st2) && preempted {
        SchedulePrefillMaximal(c, st2);
      }
    } else if status == Success {
      FilledMaximal(c, st, st1, items, batched);
    }
  }

  lemma DoneIs(c: Config, st: Sched, st': Sched, items: seq<Item>)
    requires DecodeDone(c, st, st', items)
    ensures Inv(c, st') && WellFormed(st')
  {
  }

  lemma FilledMaximal(c: Config, st: Sched, st': Sched, items: seq<Item>, batched: nat)
    requires InRange(st'.pool) && Filled(c, st, st', items, 0)
    ensures Maximal(c, st', Plan(true, batched, items))
  {
    hide ItemFull, Complete, NoneToAdd, InOrder;
  }

  /** Prompts come first and in order: if the waiting front holds blocks or finds enough free ones, the plan
      is a prefill of the first waiting sequences, the complete ones of which have left the queue. */
  lemma PrefillComesFirst(c: Config, st: Sched)
    requires Inv(c, st) && WellFormed(st) && Quiet(st.seqs) && st.waiting != []
    requires st.seqs[st.waiting[0]].table != [] || CanAllocate(c, st.pool, st.seqs[st.waiting[0]].tokens).0
    ensures var r := Schedule(c, st);
      r.0 == Success ==> r.2.isPrefill && r.2.items != [] && InOrder(st, r.1, r.2.items, 0)
  {
    StartPrefill(c, st);
    PrefillFills(c, st, [], 0);
    PrefillOk(c, st, [], 0);
    FrontAdmitted(c, st);
    hide Prefill, PrefillInv, SameText, FrontBare, FrontIdle, Inv, Matches, Quiet, CanAllocate, Admit;
  }

  lemma FrontAdmitted(c: Config, st: Sched)
    requires Inv(c, st) && WellFormed(st) && st.waiting != []
    requires st.seqs[st.waiting[0]].table != [] || CanAllocate(c, st.pool, st.seqs[st.waiting[0]].tokens).0
    ensures Admit(c, st, st.waiting[0]).0 == Some(Success)
  {
    var i := st.waiting[0];
    assert i in st.waiting;
    assert SeqOk(c, st.seqs[i], RoleOf(st, i));
    hide SeqsOk, QueuesOk, NumBlocks;
    if st.seqs[i].table == [] {
      AllocateOk(c, st.pool, st.seqs, i, CanAllocate(c, st.pool, st.seqs[i].tokens).1);
    }
    hide CanAllocate, Allocate, BlocksIdle;
  }

  // ---------------------------------------------------------------- decode

  /** Does the last token have no place in the blocks of its sequence? */
  ghost predicate NeedsBlock(c: Config, s: SeqState) {
    |s.tokens| > 0 && |s.table| * c.blockSize < |s.tokens|
  }

  /** How many of the named sequences need a block. */
  ghost function Needing(c: Config, seqs: seq<SeqState>, names: seq<nat>): nat
    requires forall a: nat :: a < |names| ==> names[a] < |seqs|
  {
    if names == [] then 0 else Needing(c, seqs, names[1..]) + if NeedsBlock(c, seqs[names[0]]) then 1 else 0
  }

  lemma {:induction false} NeedingOthers(c: Config, a: seq<SeqState>, b: seq<SeqState>, names: seq<nat>)
    requires |a| == |b| && forall k: nat :: k < |names| ==> names[k] < |a| && a[names[k]] == b[names[k]]
    ensures Needing(c, a, names) == Needing(c, b, names)
    decreases |names|
  {
    if names != [] {
      NeedingOthers(c, a, b, names[1..]);
    }
  }

  lemma {:induction false} NeedingAtMost(c: Config, seqs: seq<SeqState>, names: seq<nat>)
    requires forall a: nat :: a < |names| ==> names[a] < |seqs|
    ensures Needing(c, seqs, names) <= |names|
    ensures (forall a: nat :: a < |names| ==> !NeedsBlock(c, seqs[names[a]])) ==> Needing(c, seqs, names) == 0
    decreases |names|
  {
    if names != [] {
      NeedingAtMost(c, seqs, names[1..]);
    }
  }

  lemma Needs(c: Config, s: SeqState)
    requires s.tokens != []
    ensures NeedsBlock(c, s) <==> (|s.tokens| - 1) / c.blockSize >= |s.table|
  {
    DivBounds(|s.tokens| - 1, c.blockSize);
    var q := (|s.tokens| - 1) / c.blockSize;
    if q >= |s.table| {
      MulMono(|s.table|, q, c.blockSize);
    } else {
      MulMono(q + 1, |s.table|, c.blockSize);
    }
  }

  /** A sequence is preempted in its turn exactly if it needs a block and there is none. */
  lemma DecodeTurn(c: Config, st: Sched, items: seq<Item>)
    requires WellFormed(st) && st.running != [] && st.seqs[st.running[0]].tokens != []
    ensures var (st1, items1, out) := Decode1(c, st, items);
      var i := st.running[0];
      && (out <==> NeedsBlock(c, st.seqs[i]) && st.pool.free == {})
      && (!out ==>
            && |items1| == |items| + 1 && st1.running == st.running[1..] + [i]
            && |st1.pool.free| == |st.pool.free| - (if NeedsBlock(c, st.seqs[i]) then 1 else 0)
            && st1.seqs[i].tokens == st.seqs[i].tokens && st1.seqs == st.seqs[i := st1.seqs[i]])
  {
    var s := st.seqs[st.running[0]];
    assert TableInRange(st.pool, s.table);
    Needs(c, s);
    hide NeedsBlock;
    OneTaken(c, st.pool, s);
    hide MayAppend, Deallocate;
  }

  lemma OneTaken(c: Config, p: Pool, s: SeqState)
    requires InRange(p) && s.tokens != []
    ensures var (status, q, t) := MayAppend(c, p, s);
      var needs := (|s.tokens| - 1) / c.blockSize >= |s.table|;
      && (status == Success <==> !needs || p.free != {})
      && (status == Success ==> |q.free| == |p.free| - (if needs then 1 else 0) && t.tokens == s.tokens)
  {
  }

  lemma {:induction false} DecodeStaysPreempted(c: Config, st: Sched, items: seq<Item>, left: nat)
    requires WellFormed(st) && left <= |st.running|
    ensures Decode(c, st, items, left, true).2
    ensures |Decode(c, st, items, left, true).1| <= |items| + left
    decreases left
  {
    hide Decode1, WellFormed, CanAppend, MayAppend, Preempt;
    if left > 0 && |items| < c.maxNumSeqs {
      var (st1, items1, out) := Decode1(c, st, items);
      DecodeStaysPreempted(c, st1, items1, left - 1);
    }
  }

  /** The next `left` running sequences are all planned, and none is preempted, exactly if there is a free
      block for each of them that needs one; also after others were preempted, whose blocks then count as free. */
  lemma {:induction false} DecodeAllExactly(c: Config, st: Sched, items: seq<Item>, left: nat, preempted: bool)
    requires WellFormed(st) && Distinct(st.running) && left <= |st.running| && |items| + left <= c.maxNumSeqs
    requires forall i: nat :: i < |st.seqs| ==> st.seqs[i].tokens != []
    ensures var (st', items', preempted') := Decode(c, st, items, left, preempted);
      && (|items'| == |items| + left <==> Needing(c, st.seqs, st.running[..left]) <= |st.pool.free|)
      && (preempted' <==> preempted || Needing(c, st.seqs, st.running[..left]) > |st.pool.free|)
    decreases left
  {
    hide Decode1, WellFormed, NeedsBlock;
    RunningInRange(st);
    if left > 0 {
      var i := st.running[0];
      var (st1, items1, out) := Decode1(c, st, items);
      DecodeTurn(c, st, items);
      var names := st.running[..left];
      assert names[1..] == st.running[1..][..left - 1];
      if out {
        DecodeStaysPreempted(c, st1, items1, left - 1);
        assert Needing(c, st.seqs, names) >= 1;
      } else {
        RotatesDistinct(st.running);
        assert st1.running[..left - 1] == names[1..];
        OthersKept(st.running, left);
        NeedingOthers(c, st.seqs, st1.seqs, names[1..]);
        DecodeAllExactly(c, st1, items1, left - 1, preempted);
      }
    }
  }

  lemma RunningInRange(st: Sched)
    requires WellFormed(st)
    ensures forall k: nat :: k < |st.running| ==> st.running[k] < |st.seqs|
  {
  }

  lemma RotatesDistinct(q: seq<nat>)
    requires q != [] && Distinct(q)
    ensures Distinct(q[1..] + [q[0]])
  {
  }

  lemma OthersKept(q: seq<nat>, n: nat)
    requires 0 < n <= |q| && Distinct(q)
    ensures forall k: nat :: k < n - 1 ==> q[..n][1..][k] != q[0]
  {
  }
}
