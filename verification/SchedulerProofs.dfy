/** The scheduler's invariant, kept by every loop round of schedule and postprocess, and what it
    says about plans. */
module SchedulerProofs {
  import opened Common
  import opened Blocks
  import opened Sequences
  import opened BlockPool
  import opened BlockInvariants
  import opened PrefixCache
  import opened AllocationProofs
  import opened SchedulerSpec

  /** Where a sequence is: only the front of the waiting queue may hold blocks. */
  datatype Role = InRunning | AtFront | InBack | Gone

  ghost function RoleOf(st: Sched, i: nat): Role {
    if i in st.running then InRunning
    else if st.waiting != [] && st.waiting[0] == i then AtFront
    else if i in st.waiting then InBack
    else Gone
  }

  ghost predicate Distinct(q: seq<nat>) {
    forall a: nat, b: nat :: a < b < |q| ==> q[a] != q[b]
  }

  ghost predicate QueuesOk(st: Sched) {
    && Distinct(st.waiting)
    && Distinct(st.running)
    && (forall i :: i in st.waiting ==> i < |st.seqs| && i !in st.running)
    && (forall i :: i in st.running ==> i < |st.seqs|)
  }

  /** The counters and the table of one sequence, by where it is. A scheduled running sequence computes
      everything it has; an idle one lacks exactly its last token. */
  ghost predicate SeqOk(c: Config, s: SeqState, role: Role) {
    && |s.tokens| > 0
    && match role
       case InRunning =>
         && s.status == Running
         && (if s.scheduled > 0 then s.cached + s.scheduled == |s.tokens| && |s.table| == NumBlocks(|s.tokens|, c.blockSize)
             else s.cached + 1 == |s.tokens| && |s.table| == NumBlocks(s.cached, c.blockSize))
       case AtFront =>
         && s.status == Waiting
         && if s.table == [] then s.cached == 0 && s.scheduled == 0
            else s.cached + s.scheduled < |s.tokens| && |s.table| == NumBlocks(|s.tokens|, c.blockSize)
       case InBack => s.status == Waiting && s.table == [] && s.cached == 0 && s.scheduled == 0
       case Gone => s.status == Finished && s.table == [] && s.cached == 0 && s.scheduled == 0
  }

  ghost predicate SeqsOk(c: Config, st: Sched) {
    forall i: nat :: i < |st.seqs| ==> SeqOk(c, st.seqs[i], RoleOf(st, i))
  }

  ghost predicate Inv(c: Config, st: Sched) {
    BlocksIdle(c, st.pool, st.seqs) && QueuesOk(st) && SeqsOk(c, st)
  }

  /** The items name different sequences and say what these have scheduled; nobody else has anything. */
  ghost predicate Matches(seqs: seq<SeqState>, items: seq<Item>) {
    && (forall a: nat, b: nat :: a < b < |items| ==> items[a].who != items[b].who)
    && (forall k: nat :: k < |items| ==> ItemOk(seqs, items[k]))
    && (forall i: nat :: i < |seqs| && seqs[i].scheduled > 0 ==> exists k: nat :: k < |items| && items[k].who == i)
  }

  ghost predicate ItemOk(seqs: seq<SeqState>, item: Item) {
    && item.who < |seqs|
    && item.start == seqs[item.who].cached
    && item.count == seqs[item.who].scheduled
    && item.count > 0
  }

  lemma QueuesInRange(st: Sched)
    requires QueuesOk(st)
    ensures forall i :: 0 <= i < |st.waiting| ==> st.waiting[i] < |st.seqs|
    ensures forall i :: 0 <= i < |st.running| ==> st.running[i] < |st.seqs|
  {
    hide Distinct;
    forall i | 0 <= i < |st.waiting| ensures st.waiting[i] < |st.seqs| {
      assert st.waiting[i] in st.waiting;
    }
    forall i | 0 <= i < |st.running| ensures st.running[i] < |st.seqs| {
      assert st.running[i] in st.running;
    }
  }

  lemma InvWellFormed(c: Config, st: Sched)
    requires Inv(c, st)
    ensures WellFormed(st) && |st.pool.blocks| == c.numKvBlocks
  {
    assert |st.pool.blocks| == c.numKvBlocks;
    QueuesInRange(st);
    hide SeqsOk, BlocksOk, QueuesOk;
    InRangeOk(c, st.pool, st.seqs, |st.seqs|, 0);
  }

  // ---------------------------------------------------------------- framing

  /** A role may only become less demanding for the sequence that has it. */
  ghost predicate RoleMoves(s: SeqState, a: Role, b: Role) {
    a == b || (a == InBack && b == AtFront) || (a == AtFront && b == InBack && s.table == [])
  }

  lemma RoleMovesOk(c: Config, s: SeqState, a: Role, b: Role)
    requires SeqOk(c, s, a) && RoleMoves(s, a, b)
    ensures SeqOk(c, s, b)
  {
  }

  /** One sequence changes, the others at most move up or down the waiting queue. */
  lemma SeqsFrame(c: Config, st: Sched, st': Sched, i: nat, s: SeqState)
    requires SeqsOk(c, st) && i < |st.seqs| && st'.seqs == st.seqs[i := s]
    requires SeqOk(c, s, RoleOf(st', i))
    requires forall j: nat :: j < |st.seqs| && j != i ==> RoleMoves(st.seqs[j], RoleOf(st, j), RoleOf(st', j))
    ensures SeqsOk(c, st')
  {
    hide SeqOk, RoleOf, RoleMoves;
    forall j: nat | j < |st'.seqs| ensures SeqOk(c, st'.seqs[j], RoleOf(st', j)) {
      if j != i {
        RoleMovesOk(c, st.seqs[j], RoleOf(st, j), RoleOf(st', j));
      }
    }
  }

  /** Counters and status do not matter to the blocks, as long as the full blocks stay the same. */
  lemma Recount(c: Config, p: Pool, seqs: seq<SeqState>, i: nat, t: SeqState)
    requires BlocksIdle(c, p, seqs) && i < |seqs|
    requires t.table == seqs[i].table && t.tokens == seqs[i].tokens && t.cached == seqs[i].cached
    ensures BlocksIdle(c, p, seqs[i := t])
  {
    Enter(c, p, seqs, i);
    var k := seqs[i].cached / c.blockSize;
    assert t.cached / c.blockSize == k;
    assert t.tokens[..|seqs[i].tokens|] == seqs[i].tokens;
    hide *;
    Leave(c, p, seqs, i, k, t);
  }

  lemma RecountKv(c: Config, p: Pool, holds: Holds, seqs: seq<SeqState>, i: nat, t: SeqState)
    requires KvIdle(c, p, holds, seqs, false) && i < |seqs|
    requires t.table == seqs[i].table && t.tokens == seqs[i].tokens && t.cached == seqs[i].cached
    ensures KvIdle(c, p, holds, seqs[i := t], false)
  {
    assert Ready(t, false) == Ready(seqs[i], false);
    assert t.tokens[..|seqs[i].tokens|] == seqs[i].tokens;
    hide *;
    EnterKv(c, p, holds, seqs, i, false);
    LeaveKv(c, p, holds, seqs, i, Ready(seqs[i], false), t, false);
  }

  // ---------------------------------------------------------------- queues

  lemma DistinctTail(q: seq<nat>)
    requires Distinct(q) && q != []
    ensures Distinct(q[1..]) && q[0] !in q[1..]
    ensures forall x :: x in q <==> x == q[0] || x in q[1..]
  {
    assert q == [q[0]] + q[1..];
  }

  lemma DistinctSnoc(q: seq<nat>, i: nat)
    requires Distinct(q) && i !in q
    ensures Distinct(q + [i])
    ensures forall x :: x in q + [i] <==> x in q || x == i
  {
  }

  lemma DistinctCons(q: seq<nat>, i: nat)
    requires Distinct(q) && i !in q
    ensures Distinct([i] + q)
    ensures forall x :: x in [i] + q <==> x in q || x == i
  {
  }

  lemma {:induction false} WithoutDistinct(q: seq<nat>, i: nat)
    requires Distinct(q)
    ensures Distinct(Without(q, i))
  {
    if q != [] {
      DistinctTail(q);
      WithoutDistinct(q[1..], i);
      if q[0] != i {
        DistinctCons(Without(q[1..], i), q[0]);
      }
    }
  }

  // ---------------------------------------------------------------- the prefill loop

  /** Admission of the front gives it a full table with at least one token left to compute. */
  lemma AdmitOk(c: Config, st: Sched, i: nat)
    requires Inv(c, st) && WellFormed(st) && st.waiting != [] && st.waiting[0] == i
    ensures var (go, st') := Admit(c, st, i);
      && Inv(c, st') && st'.waiting == st.waiting && st'.running == st.running
      && |st'.seqs| == |st.seqs| && st'.seqs == st.seqs[i := st'.seqs[i]]
      && st.pool.hashed <= st'.pool.hashed
      && st'.seqs[i] == st.seqs[i].(table := st'.seqs[i].table, cached := st'.seqs[i].cached)
      && (go == None || go == Some(Failure(PromptNeedsTooManyBlocks)) || go == Some(Success))
      && (go != Some(Success) ==> st' == st && st.seqs[i].table == [])
      && (go == Some(Success) ==> st'.seqs[i].table != [])
  {
    var s := st.seqs[i];
    var (go, st') := Admit(c, st, i);
    assert SeqOk(c, s, RoleOf(st, i));
    assert i in st.waiting;
    hide SeqsOk, BlocksIdle;
    if s.table == [] && CanAllocate(c, st.pool, s.tokens).0 {
      hide CanAllocate, Allocate, InRange;
      var run := CanAllocate(c, st.pool, s.tokens).1;
      AllocateOk(c, st.pool, st.seqs, i, run);
      NumBlocksBounds(|s.tokens|, c.blockSize);
      AdmittedSeqs(c, st, st', i);
    } else {
      assert st.seqs[i := s] == st.seqs;
    }
  }

  lemma AdmittedSeqs(c: Config, st: Sched, st': Sched, i: nat)
    requires QueuesOk(st) && SeqsOk(c, st) && st.waiting != [] && st.waiting[0] == i && i < |st.seqs|
    requires st'.waiting == st.waiting && st'.running == st.running && |st'.seqs| == |st.seqs| && st'.seqs == st.seqs[i := st'.seqs[i]]
    requires SeqOk(c, st'.seqs[i], AtFront)
    ensures SeqsOk(c, st')
  {
    hide SeqsOk, SeqOk;
    assert i in st.waiting;
    SeqsFrame(c, st, st', i, st'.seqs[i]);
  }

  /** The request behind a sequence and what it generated so far are not touched. */
  ghost predicate SameText(seqs: seq<SeqState>, seqs': seq<SeqState>) {
    |seqs'| == |seqs| && forall j: nat :: j < |seqs| ==> SameRequest(seqs[j], seqs'[j])
  }

  ghost predicate SameRequest(s: SeqState, t: SeqState) {
    t.id == s.id && t.tokens == s.tokens && t.promptSize == s.promptSize && t.sampling == s.sampling && t.rng == s.rng
    && (t.status == Finished <==> s.status == Finished)
  }

  lemma SameTextTrans(a: seq<SeqState>, b: seq<SeqState>, d: seq<SeqState>)
    requires SameText(a, b) && SameText(b, d)
    ensures SameText(a, d)
  {
    forall j: nat | j < |a| ensures SameRequest(a[j], d[j]) {
      assert SameRequest(a[j], b[j]) && SameRequest(b[j], d[j]);
    }
  }

  lemma SameTextUpdate(seqs: seq<SeqState>, i: nat, s: SeqState)
    requires i < |seqs| && SameRequest(seqs[i], s)
    ensures SameText(seqs, seqs[i := s])
  {
  }

  /** The scheduled front computes part of its prompt or all of it; then it runs. */
  lemma Schedule1Ok(c: Config, st: Sched, i: nat, count: nat)
    requires Inv(c, st) && WellFormed(st) && st.waiting != [] && st.waiting[0] == i
    requires st.seqs[i].table != [] && 0 < count <= |st.seqs[i].tokens| - st.seqs[i].cached
    ensures Inv(c, Schedule1(st, i, count)) && SameText(st.seqs, Schedule1(st, i, count).seqs)
    ensures Schedule1(st, i, count).pool == st.pool
  {
    var st' := Schedule1(st, i, count);
    var s := st.seqs[i];
    var t := st'.seqs[i];
    assert i in st.waiting;
    assert SeqOk(c, s, RoleOf(st, i));
    SameTextUpdate(st.seqs, i, t);
    hide BlocksIdle;
    Recount(c, st.pool, st.seqs, i, t);
    DistinctTail(st.waiting);
    DistinctSnoc(st.running, i);
    hide SeqsOk, Distinct;
    forall j: nat | j < |st.seqs| && j != i ensures RoleMoves(st.seqs[j], RoleOf(st, j), RoleOf(st', j)) {
    }
    SeqsFrame(c, st, st', i, t);
  }

  /** Changes of a sequence that has nothing scheduled before and after leave the plan alone. */
  lemma MatchesFrame(seqs: seq<SeqState>, items: seq<Item>, i: nat, s: SeqState)
    requires Matches(seqs, items) && i < |seqs| && seqs[i].scheduled == 0 && s.scheduled == 0
    ensures Matches(seqs[i := s], items)
  {
    forall k: nat | k < |items| ensures ItemOk(seqs[i := s], items[k]) {
      assert ItemOk(seqs, items[k]);
    }
  }

  lemma MatchesAdd(seqs: seq<SeqState>, items: seq<Item>, i: nat, s: SeqState)
    requires Matches(seqs, items) && i < |seqs| && seqs[i].scheduled == 0 && s.scheduled > 0
    ensures Matches(seqs[i := s], items + [Item(i, s.cached, s.scheduled)])
  {
    var seqs', items' := seqs[i := s], items + [Item(i, s.cached, s.scheduled)];
    forall k: nat | k < |items'| ensures ItemOk(seqs', items'[k]) && (k < |items| ==> items'[k].who != i) {
      if k < |items| {
        assert ItemOk(seqs, items[k]);
      }
    }
    forall j: nat | j < |seqs'| && seqs'[j].scheduled > 0 ensures exists k: nat :: k < |items'| && items'[k].who == j {
      if j == i {
        assert items'[|items|].who == j;
      } else {
        var k: nat :| k < |items| && items[k].who == j;
        assert items'[k].who == j;
      }
    }
  }

  ghost function Total(items: seq<Item>): nat {
    if items == [] then 0 else Total(items[..|items| - 1]) + items[|items| - 1].count
  }

  lemma TotalAdd(items: seq<Item>, item: Item)
    ensures Total(items + [item]) == Total(items) + item.count
  {
    assert (items + [item])[..|items|] == items;
  }

  /** Between rounds of the prefill loop: the plan so far, none of it for the front. */
  ghost predicate PrefillInv(c: Config, st: Sched, items: seq<Item>, batched: nat) {
    && Inv(c, st)
    && Matches(st.seqs, items)
    && Total(items) == batched <= c.maxNumBatchedTokens
    && |items| <= c.maxNumSeqs
  }

  ghost predicate FrontIdle(st: Sched)
    requires WellFormed(st)
  {
    st.waiting != [] ==> st.seqs[st.waiting[0]].scheduled == 0
  }

  /** A bare front has no blocks. */
  ghost predicate FrontBare(st: Sched)
    requires WellFormed(st)
  {
    st.waiting != [] ==> st.seqs[st.waiting[0]].table == []
  }

  lemma BackIdle(c: Config, st: Sched, k: nat)
    requires Inv(c, st) && 0 < k < |st.waiting|
    ensures st.waiting[k] < |st.seqs| && st.waiting[k] != st.waiting[0] && SeqOk(c, st.seqs[st.waiting[k]], InBack)
  {
    hide BlocksIdle;
    var j := st.waiting[k];
    assert j in st.waiting;
    assert SeqOk(c, st.seqs[j], RoleOf(st, j));
  }

  lemma SameTextSelf(seqs: seq<SeqState>)
    ensures SameText(seqs, seqs)
  {
  }

  lemma AdmittedFront(c: Config, st: Sched, i: nat)
    requires Inv(c, st) && st.waiting != [] && st.waiting[0] == i
    ensures i < |st.seqs| && st.seqs[i].cached < |st.seqs[i].tokens|
  {
    hide BlocksIdle;
    assert i in st.waiting;
    assert SeqOk(c, st.seqs[i], RoleOf(st, i));
  }

  /** Scheduling the admitted front. */
  lemma PrefillSchedules(c: Config, st: Sched, items: seq<Item>, batched: nat, i: nat, count: nat)
    requires PrefillInv(c, st, items, batched) && WellFormed(st) && FrontIdle(st)
    requires st.waiting != [] && i == st.waiting[0] && |items| < c.maxNumSeqs && st.seqs[i].table != []
    requires 0 < count <= |st.seqs[i].tokens| - st.seqs[i].cached && count <= c.maxNumBatchedTokens - batched
    ensures var st' := Schedule1(st, i, count);
      && PrefillInv(c, st', items + [Item(i, st.seqs[i].cached, count)], batched + count)
      && SameText(st.seqs, st'.seqs) && st'.pool == st.pool
      && (st.seqs[i].cached + count == |st.seqs[i].tokens| ==> FrontIdle(st'))
  {
    var st' := Schedule1(st, i, count);
    Schedule1Ok(c, st, i, count);
    TotalAdd(items, Item(i, st.seqs[i].cached, count));
    hide Inv, Total, WellFormed, Matches, SameText;
    MatchesAdd(st.seqs, items, i, st'.seqs[i]);
    if st.seqs[i].cached + count == |st.seqs[i].tokens| && st'.waiting != [] {
      BackIdle(c, st, 1);
    }
  }

  /** Admission within the prefill loop. */
  lemma PrefillAdmits(c: Config, st: Sched, items: seq<Item>, batched: nat)
    requires PrefillInv(c, st, items, batched) && WellFormed(st) && FrontIdle(st) && st.waiting != []
    ensures var (go, st1) := Admit(c, st, st.waiting[0]);
      && PrefillInv(c, st1, items, batched) && FrontIdle(st1) && SameText(st.seqs, st1.seqs) && st.pool.hashed <= st1.pool.hashed
      && (go == None || go == Some(Failure(PromptNeedsTooManyBlocks)) || go == Some(Success))
      && (go != Some(Success) ==> st1 == st && FrontBare(st))
      && (go == Some(Success) ==> st1.seqs[st.waiting[0]].table != [] && st1.seqs[st.waiting[0]].cached < |st1.seqs[st.waiting[0]].tokens|)
  {
    var i := st.waiting[0];
    AdmitOk(c, st, i);
    var (go, st1) := Admit(c, st, i);
    hide Admit, Total, BlocksIdle, QueuesOk, SeqsOk, WellFormed, Matches;
    MatchesFrame(st.seqs, items, i, st1.seqs[i]);
    SameTextUpdate(st.seqs, i, st1.seqs[i]);
    AdmittedFront(c, st1, i);
  }

  lemma NothingPlanned(c: Config, st: Sched, items: seq<Item>, batched: nat)
    requires PrefillInv(c, st, items, batched) && items == []
    ensures batched == 0
  {
  }

  /** A round of the prefill loop either stops after admission or schedules `count` tokens. */
  lemma Prefill1Shape(c: Config, st: Sched, items: seq<Item>, batched: nat) returns (count: nat)
    requires WellFormed(st) && batched <= c.maxNumBatchedTokens && st.waiting != [] && st.waiting[0] < |st.seqs|
    requires var (go, st1) := Admit(c, st, st.waiting[0]);
      go == Some(Success) ==> st1.seqs[st.waiting[0]].cached < |st1.seqs[st.waiting[0]].tokens|
    ensures var i := st.waiting[0];
      var (go, st1) := Admit(c, st, i);
      var s := st1.seqs[i];
      var r := Prefill1(c, st, items, batched);
      if count == 0 then
        && r == Round(if go == None then Success else go.value, st1, items, batched, false)
        && (items == [] && batched == 0 ==> go != Some(Success))
      else
        && go == Some(Success) && count <= |s.tokens| - s.cached && count <= c.maxNumBatchedTokens - batched
        && r == Round(Success, Schedule1(st1, i, count), items + [Item(i, s.cached, count)], batched + count, s.cached + count == |s.tokens|)
  {
    var i := st.waiting[0];
    var (go, st1) := Admit(c, st, i);
    hide Admit, WellFormed, Schedule1;
    var s := st1.seqs[i];
    var remaining := |s.tokens| - s.cached;
    var available := c.maxNumBatchedTokens - batched;
    if go != Some(Success) || available == 0 || (available < remaining && items != []) {
      count := 0;
    } else {
      count := if remaining < available then remaining else available;
    }
  }

  /** What the prefill loop leaves after any number of rounds. */
  ghost predicate PrefillDone(c: Config, st: Sched, status: Status, st': Sched, items: seq<Item>, batched: nat) {
    && PrefillInv(c, st', items, batched)
    && (status == Success || status == Failure(PromptNeedsTooManyBlocks))
    && SameText(st.seqs, st'.seqs) && st.pool.hashed <= st'.pool.hashed
  }

  /** One round of the prefill loop keeps its invariant, and changes nothing if it plans nothing. */
  lemma Prefill1Ok(c: Config, st: Sched, items: seq<Item>, batched: nat)
    requires PrefillInv(c, st, items, batched) && WellFormed(st) && FrontIdle(st) && batched <= c.maxNumBatchedTokens
    requires st.waiting != [] && |items| < c.maxNumSeqs
    ensures var r := Prefill1(c, st, items, batched);
      && PrefillDone(c, st, r.status, r.st, r.items, r.batched)
      && (r.again ==> FrontIdle(r.st) && r.status == Success)
      && (r.items == [] ==> r.st == st && FrontBare(st) && Admit(c, st, st.waiting[0]).0 != Some(Success))
  {
    hide PrefillInv, SameText, WellFormed, FrontIdle, FrontBare, Admit, Schedule1, Prefill1, Inv, Matches, Total;
    FrontInRange(st);
    var i := st.waiting[0];
    PrefillAdmits(c, st, items, batched);
    if items == [] {
      NothingPlanned(c, st, items, batched);
    }
    var count := Prefill1Shape(c, st, items, batched);
    if count > 0 {
      var st1 := Admit(c, st, i).1;
      PrefillSchedules(c, st1, items, batched, i, count);
      SameTextTrans(st.seqs, st1.seqs, Schedule1(st1, i, count).seqs);
    }
  }

  lemma FrontInRange(st: Sched)
    requires WellFormed(st) && st.waiting != []
    ensures st.waiting[0] < |st.seqs|
  {
  }

  lemma PrefillDoneTrans(c: Config, a: Sched, b: Sched, status: Status, d: Sched, items: seq<Item>, batched: nat)
    requires SameText(a.seqs, b.seqs) && a.pool.hashed <= b.pool.hashed && PrefillDone(c, b, status, d, items, batched)
    ensures PrefillDone(c, a, status, d, items, batched)
  {
    hide SameText, PrefillInv;
    SameTextTrans(a.seqs, b.seqs, d.seqs);
  }

  lemma PrefillDoneStart(c: Config, st: Sched, items: seq<Item>, batched: nat)
    requires PrefillInv(c, st, items, batched)
    ensures PrefillDone(c, st, Success, st, items, batched)
  {
    SameTextSelf(st.seqs);
  }

  /** The prefill loop: its plan is what the sequences have scheduled, within the token budget; the
      only error it can meet is a prompt larger than the whole pool. If it plans nothing, it changed
      nothing, and the front, if any, has no blocks and does not fit. */
  lemma {:induction false} PrefillOk(c: Config, st: Sched, items: seq<Item>, batched: nat)
    requires PrefillInv(c, st, items, batched) && WellFormed(st) && FrontIdle(st) && batched <= c.maxNumBatchedTokens
    ensures var (status, st', items', batched') := Prefill(c, st, items, batched);
      && PrefillDone(c, st, status, st', items', batched')
      && (items' == [] ==> st' == st && FrontBare(st))
      && (items' == [] && st.waiting != [] ==> Admit(c, st, st.waiting[0]).0 != Some(Success))
    decreases |st.waiting|
  {
    assert |items| <= c.maxNumSeqs;
    if st.waiting != [] && |items| < c.maxNumSeqs {
      Prefill1Ok(c, st, items, batched);
      var r := Prefill1(c, st, items, batched);
      assert PrefillInv(c, r.st, r.items, r.batched) && SameText(st.seqs, r.st.seqs) && st.pool.hashed <= r.st.pool.hashed;
      hide Prefill1, Admit, PrefillInv, PrefillDone, SameText, WellFormed, FrontIdle, FrontBare;
      if r.again {
        PrefillOk(c, r.st, r.items, r.batched);
        var q := Prefill(c, r.st, r.items, r.batched);
        PrefillDoneTrans(c, st, r.st, q.0, q.1, q.2, q.3);
      }
    } else {
      hide PrefillInv, PrefillDone;
      PrefillDoneStart(c, st, items, batched);
    }
  }

  // ---------------------------------------------------------------- contents through the prefill loop

  lemma AdmitKv(c: Config, st: Sched, holds: Holds, i: nat)
    requires Inv(c, st) && WellFormed(st) && st.waiting != [] && st.waiting[0] == i
    requires KvIdle(c, st.pool, holds, st.seqs, false) && NoCollision(c, Admit(c, st, i).1.pool.hashed)
    ensures var st' := Admit(c, st, i).1; KvIdle(c, st'.pool, holds, st'.seqs, false)
  {
    var s := st.seqs[i];
    assert SeqOk(c, s, RoleOf(st, i));
    hide SeqsOk, BlocksIdle, KvIdle, NoCollision;
    if s.table == [] && CanAllocate(c, st.pool, s.tokens).0 {
      hide CanAllocate, Allocate, InRange;
      AllocateKv(c, st.pool, holds, st.seqs, i, CanAllocate(c, st.pool, s.tokens).1);
    } else {
      assert st.seqs[i := s] == st.seqs;
    }
  }

  lemma Schedule1Kv(c: Config, st: Sched, holds: Holds, i: nat, count: nat)
    requires WellFormed(st) && st.waiting != [] && st.waiting[0] == i && i < |st.seqs|
    requires KvIdle(c, st.pool, holds, st.seqs, false)
    ensures var st' := Schedule1(st, i, count); KvIdle(c, st'.pool, holds, st'.seqs, false) && st'.pool == st.pool
  {
    hide KvIdle;
    RecountKv(c, st.pool, holds, st.seqs, i, Schedule1(st, i, count).seqs[i]);
  }

  lemma Prefill1Kv(c: Config, st: Sched, holds: Holds, items: seq<Item>, batched: nat)
    requires Inv(c, st) && WellFormed(st) && st.waiting != [] && batched <= c.maxNumBatchedTokens
    requires KvIdle(c, st.pool, holds, st.seqs, false) && NoCollision(c, Prefill1(c, st, items, batched).st.pool.hashed)
    ensures var r := Prefill1(c, st, items, batched); KvIdle(c, r.st.pool, holds, r.st.seqs, false)
  {
    assert st.waiting[0] < |st.seqs|;
    hide Inv, WellFormed, KvIdle, NoCollision, Admit, Schedule1;
    var i := st.waiting[0];
    var st1 := Admit(c, st, i).1;
    SchedulePool(c, st1, items);
    AdmitKv(c, st, holds, i);
    forall count: nat ensures var st' := Schedule1(st1, i, count); KvIdle(c, st'.pool, holds, st'.seqs, false) {
      Schedule1Kv(c, st1, holds, i, count);
    }
  }

  lemma SchedulePool(c: Config, st: Sched, items: seq<Item>)
    requires WellFormed(st) && st.waiting != []
    ensures st.waiting[0] < |st.seqs|
    ensures forall count: nat :: Schedule1(st, st.waiting[0], count).pool == st.pool
  {
    hide TableInRange;
  }

  /** Prefill keeps every cached position right, for as long as no chain hashes collide. */
  lemma {:induction false} PrefillKv(c: Config, st: Sched, holds: Holds, items: seq<Item>, batched: nat)
    requires PrefillInv(c, st, items, batched) && WellFormed(st) && FrontIdle(st) && batched <= c.maxNumBatchedTokens
    requires KvIdle(c, st.pool, holds, st.seqs, false) && NoCollision(c, Prefill(c, st, items, batched).1.pool.hashed)
    ensures var st' := Prefill(c, st, items, batched).1; KvIdle(c, st'.pool, holds, st'.seqs, false)
    decreases |st.waiting|
  {
    if st.waiting != [] && |items| < c.maxNumSeqs {
      assert Inv(c, st);
      Prefill1Ok(c, st, items, batched);
      var r := Prefill1(c, st, items, batched);
      hide Prefill1, Admit, PrefillInv, SameText, WellFormed, FrontIdle, FrontBare, Inv, NoCollision, KvIdle;
      if r.again {
        PrefillOk(c, r.st, r.items, r.batched);
        FewerCollide(c, r.st.pool.hashed, Prefill(c, r.st, r.items, r.batched).1.pool.hashed);
        Prefill1Kv(c, st, holds, items, batched);
        PrefillKv(c, r.st, holds, r.items, r.batched);
      } else {
        Prefill1Kv(c, st, holds, items, batched);
      }
    }
  }

  // ---------------------------------------------------------------- the decode loop

  /** Preempting a sequence just taken off the running queue, when the waiting front is bare. */
  lemma PreemptOk(c: Config, st: Sched, i: nat, st0: Sched)
    requires Inv(c, st) && WellFormed(st) && FrontBare(st) && st.running != [] && st.running[0] == i
    requires st0 == st.(running := st.running[1..]) && WellFormed(st0)
    ensures i < |st.seqs|
    ensures var st' := Preempt(st0, i);
      && Inv(c, st') && FrontBare(st') && SameText(st.seqs, st'.seqs)
      && st'.pool.hashed == st.pool.hashed && st'.waiting == [i] + st.waiting && st'.running == st.running[1..]
      && st'.seqs == st.seqs[i := st'.seqs[i]] && st'.seqs[i].scheduled == 0
  {
    hide BlocksIdle, Deallocate, Distinct;
    assert i in st.running;
    var st' := Preempt(st0, i);
    var s := st.seqs[i];
    assert SeqOk(c, s, RoleOf(st, i));
    var (p, t) := Deallocate(st.pool, s);
    DeallocateOk(c, st.pool, st.seqs, i);
    var u := st'.seqs[i];
    assert st.seqs[i := t][i := u] == st.seqs[i := u];
    Recount(c, p, st.seqs[i := t], i, u);
    SameTextUpdate(st.seqs, i, u);
    DistinctTail(st.running);
    DistinctCons(st.waiting, i);
    forall j: nat | j < |st.seqs| && j != i ensures RoleMoves(st.seqs[j], RoleOf(st, j), RoleOf(st', j)) {
    }
    SeqsFrame(c, st, st', i, u);
  }

  lemma PreemptKv(c: Config, st: Sched, holds: Holds, i: nat)
    requires BlocksIdle(c, st.pool, st.seqs) && WellFormed(st) && i < |st.seqs|
    requires KvIdle(c, st.pool, holds, st.seqs, false)
    ensures var st' := Preempt(st, i); KvIdle(c, st'.pool, holds, st'.seqs, false)
  {
    var s := st.seqs[i];
    assert TableInRange(st.pool, s.table);
    var (p, t) := Deallocate(st.pool, s);
    hide BlocksIdle, KvIdle, WellFormed;
    DeallocateKv(c, st.pool, holds, st.seqs, i, false);
    var u := Preempt(st, i).seqs[i];
    RecountKv(c, p, holds, st.seqs[i := t], i, u);
    assert st.seqs[i := t][i := u] == st.seqs[i := u];
  }

  /** The table of a running sequence covers its last token once may_append has run. */
  lemma DecodeTable(c: Config, s: SeqState)
    requires |s.tokens| > 0 && s.cached + 1 == |s.tokens| && |s.table| == NumBlocks(s.cached, c.blockSize)
    ensures NumBlocks(|s.tokens|, c.blockSize) ==
            if (|s.tokens| - 1) / c.blockSize < |s.table| then |s.table| else |s.table| + 1
  {
    NumBlocksSucc(s.cached, c.blockSize);
    NumBlocksBounds(s.cached, c.blockSize);
    NumBlocksMono(s.cached, s.cached + 1, c.blockSize);
  }

  /** One round of the decode loop on a sequence with nothing scheduled: it is preempted, or scheduled
      for its last token with a table that covers it. */
  lemma Decode1Ok(c: Config, st: Sched, items: seq<Item>)
    requires Inv(c, st) && WellFormed(st) && FrontBare(st) && st.running != []
    requires st.seqs[st.running[0]].scheduled == 0 && Matches(st.seqs, items)
    ensures var (st', items', out) := Decode1(c, st, items);
      && Inv(c, st') && FrontBare(st') && Matches(st'.seqs, items')
      && SameText(st.seqs, st'.seqs) && st'.pool.hashed == st.pool.hashed
      && st'.running == (if out then st.running[1..] else st.running[1..] + [st.running[0]])
      && st'.seqs == st.seqs[st.running[0] := st'.seqs[st.running[0]]]
      && (out ==> items' == items) && (!out ==> |items'| == |items| + 1 && items' == items + [Item(st.running[0], |st.seqs[st.running[0]].tokens| - 1, 1)])
  {
    var i := st.running[0];
    var s := st.seqs[i];
    assert i in st.running;
    assert SeqOk(c, s, RoleOf(st, i));
    if !CanAppend(c, st.pool, s) {
      var st0 := st.(running := st.running[1..]);
      PreemptOk(c, st, i, st0);
      hide Inv, WellFormed, FrontBare, Preempt, Matches;
      MatchesFrame(st.seqs, items, i, Preempt(st0, i).seqs[i]);
    } else {
      DecodeTable(c, s);
      DecodeAppends(c, st, items);
    }
  }

  lemma DecodeAppends(c: Config, st: Sched, items: seq<Item>)
    requires Inv(c, st) && WellFormed(st) && FrontBare(st) && st.running != []
    requires st.seqs[st.running[0]].scheduled == 0 && Matches(st.seqs, items)
    requires CanAppend(c, st.pool, st.seqs[st.running[0]])
    ensures var (st', items', out) := Decode1(c, st, items);
      && Inv(c, st') && FrontBare(st') && Matches(st'.seqs, items')
      && SameText(st.seqs, st'.seqs) && st'.pool.hashed == st.pool.hashed && st'.running == st.running[1..] + [st.running[0]]
      && st'.seqs == st.seqs[st.running[0] := st'.seqs[st.running[0]]]
      && !out && items' == items + [Item(st.running[0], |st.seqs[st.running[0]].tokens| - 1, 1)]
  {
    var i := st.running[0];
    var s := st.seqs[i];
    assert i in st.running;
    assert SeqOk(c, s, RoleOf(st, i));
    DecodeTable(c, s);
    hide CanAppend, BlocksIdle, Matches;
    MayAppendOk(c, st.pool, st.seqs, i);
    var (status, p, t) := MayAppend(c, st.pool, s);
    hide MayAppend;
    var (st', items', out) := Decode1(c, st, items);
    var u := t.(scheduled := 1, isPrefill := false);
    assert st'.seqs == st.seqs[i := u] && st'.pool == p;
    assert st.seqs[i := t][i := u] == st.seqs[i := u];
    Recount(c, p, st.seqs[i := t], i, u);
    SameTextUpdate(st.seqs, i, u);
    MatchesAdd(st.seqs, items, i, u);
    Rotated(c, st, st', i, u);
  }

  /** Moving the front of the running queue to its end changes no role. */
  lemma Rotated(c: Config, st: Sched, st': Sched, i: nat, u: SeqState)
    requires QueuesOk(st) && SeqsOk(c, st) && WellFormed(st) && WellFormed(st') && FrontBare(st)
    requires st.running != [] && st.running[0] == i && i < |st.seqs| && SeqOk(c, u, InRunning)
    requires st'.seqs == st.seqs[i := u] && st'.waiting == st.waiting && st'.running == st.running[1..] + [i]
    ensures QueuesOk(st') && SeqsOk(c, st') && FrontBare(st')
  {
    hide SeqsOk, SeqOk;
    DistinctTail(st.running);
    DistinctSnoc(st.running[1..], i);
    hide Distinct;
    assert st.waiting != [] ==> st.waiting[0] in st.waiting;
    assert i in st.running;
    forall j: nat | j < |st.seqs| && j != i ensures RoleMoves(st.seqs[j], RoleOf(st, j), RoleOf(st', j)) {
    }
    SeqsFrame(c, st, st', i, u);
  }

  lemma Decode1Kv(c: Config, st: Sched, holds: Holds, items: seq<Item>)
    requires Inv(c, st) && WellFormed(st) && st.running != [] && KvIdle(c, st.pool, holds, st.seqs, false)
    ensures var st' := Decode1(c, st, items).0; KvIdle(c, st'.pool, holds, st'.seqs, false)
  {
    var i := st.running[0];
    var s := st.seqs[i];
    var st0 := st.(running := st.running[1..]);
    assert WellFormed(st0);
    assert TableInRange(st.pool, s.table);
    hide BlocksIdle, KvIdle, QueuesOk, SeqsOk, Preempt;
    if !CanAppend(c, st.pool, s) {
      PreemptKv(c, st0, holds, i);
    } else {
      hide CanAppend;
      MayAppendOk(c, st.pool, st.seqs, i);
      MayAppendKv(c, st.pool, holds, st.seqs, i);
      var (status, p, t) := MayAppend(c, st.pool, s);
      hide MayAppend, WellFormed;
      var u := t.(scheduled := 1, isPrefill := false);
      RecountKv(c, p, holds, st.seqs[i := t], i, u);
      assert st.seqs[i := t][i := u] == st.seqs[i := u];
    }
  }

  /** Between rounds of the decode loop: the first `left` candidates have nothing scheduled. */
  ghost predicate DecodeInv(c: Config, st: Sched, items: seq<Item>, left: nat) {
    && Inv(c, st) && Matches(st.seqs, items)
    && left <= |st.running|
    && (forall k: nat :: k < left ==> st.running[k] < |st.seqs| && st.seqs[st.running[k]].scheduled == 0)
  }

  lemma DecodeInvStep(c: Config, st: Sched, items: seq<Item>, left: nat)
    requires DecodeInv(c, st, items, left) && WellFormed(st) && FrontBare(st) && left > 0
    ensures var (st', items', out) := Decode1(c, st, items);
      DecodeInv(c, st', items', left - 1) && FrontBare(st') && SameText(st.seqs, st'.seqs) && st'.pool.hashed == st.pool.hashed
  {
    assert Distinct(st.running);
    Decode1Ok(c, st, items);
    hide Inv, Matches, FrontBare, Decode1, SameText, WellFormed;
    var (st', items', out) := Decode1(c, st, items);
    forall k: nat | k < left - 1 ensures st'.running[k] < |st'.seqs| && st'.seqs[st'.running[k]].scheduled == 0 {
      assert st'.running[k] == st.running[k + 1];
      assert st.running[0] != st.running[k + 1];
    }
  }

  /** What the decode loop leaves, however many candidates it has seen. */
  ghost predicate DecodeDone(c: Config, st: Sched, st': Sched, items: seq<Item>) {
    && Inv(c, st') && Matches(st'.seqs, items)
    && WellFormed(st') && FrontBare(st')
    && SameText(st.seqs, st'.seqs) && st'.pool.hashed == st.pool.hashed
  }

  lemma DecodeDoneStart(c: Config, st: Sched, items: seq<Item>, left: nat)
    requires DecodeInv(c, st, items, left) && WellFormed(st) && FrontBare(st)
    ensures DecodeDone(c, st, st, items)
  {
    SameTextSelf(st.seqs);
  }

  lemma DecodeDoneTrans(c: Config, a: Sched, b: Sched, d: Sched, items: seq<Item>)
    requires SameText(a.seqs, b.seqs) && b.pool.hashed == a.pool.hashed && DecodeDone(c, b, d, items)
    ensures DecodeDone(c, a, d, items)
  {
    hide SameText;
    SameTextTrans(a.seqs, b.seqs, d.seqs);
  }

  /** The decode loop: every candidate is scheduled for one token or preempted. */
  lemma {:induction false} DecodeOk(c: Config, st: Sched, items: seq<Item>, left: nat, preempted: bool)
    requires DecodeInv(c, st, items, left) && WellFormed(st) && FrontBare(st)
    requires left <= |st.running|
    ensures DecodeDone(c, st, Decode(c, st, items, left, preempted).0, Decode(c, st, items, left, preempted).1)
    decreases left
  {
    hide DecodeInv, WellFormed, FrontBare, Decode1, SameText, DecodeDone;
    if left == 0 || |items| >= c.maxNumSeqs {
      DecodeDoneStart(c, st, items, left);
    } else {
      DecodeInvStep(c, st, items, left);
      var (st1, items1, out) := Decode1(c, st, items);
      DecodeOk(c, st1, items1, left - 1, preempted || out);
      var r := Decode(c, st1, items1, left - 1, preempted || out);
      DecodeDoneTrans(c, st, st1, r.0, r.1);
    }
  }

  lemma DecodeInvHas(c: Config, st: Sched, items: seq<Item>, left: nat)
    requires DecodeInv(c, st, items, left)
    ensures Inv(c, st) && left <= |st.running|
  {
    hide Inv, Matches;
  }

  lemma {:induction false} DecodeKv(c: Config, st: Sched, holds: Holds, items: seq<Item>, left: nat, preempted: bool)
    requires DecodeInv(c, st, items, left) && WellFormed(st) && FrontBare(st) && KvIdle(c, st.pool, holds, st.seqs, false)
    ensures var st' := Decode(c, st, items, left, preempted).0; KvIdle(c, st'.pool, holds, st'.seqs, false)
    decreases left
  {
    hide DecodeInv, WellFormed, FrontBare, Decode1, SameText, Inv, Matches, KvIdle;
    if left > 0 && |items| < c.maxNumSeqs {
      DecodeInvStep(c, st, items, left);
      DecodeInvHas(c, st, items, left);
      var (st1, items1, out) := Decode1(c, st, items);
      Decode1Kv(c, st, holds, items);
      DecodeKv(c, st1, holds, items1, left - 1, preempted || out);
    }
  }
}
