/** Waiting: how long a running request can be passed over. */
module WaitingProofs {
  import opened Common
  import opened Blocks
  import opened Sequences
  import opened BlockPool
  import opened AllocationProofs
  import opened SchedulerSpec
  import opened SchedulerProofs
  import opened PostprocessProofs
  import opened ScheduleProofs
  import opened Attention
  import opened Transformer
  import opened PagedBatch
  import opened Generation
  import opened EngineSpec
  import opened RequestProofs
  import opened Engine
  import opened EngineProofs
  import opened StepProofs

  /** How the decode loop goes round: the candidates it takes off the front are planned, and go to the
      back of the queue, or preempted. */
  ghost predicate Rotates(running: seq<nat>, left: nat, running': seq<nat>, waiting': seq<nat>, items: seq<Item>, rounds: nat) {
    && rounds <= left <= |running|
    && rounds <= |running| && |running'| >= |running| - rounds && running'[..|running| - rounds] == running[rounds..]
    && (forall i: nat :: i < rounds ==> Planned(items, running[i]) || running[i] in waiting')
  }

  lemma PlannedMore(items: seq<Item>, more: seq<Item>, j: nat)
    requires items <= more && Planned(items, j)
    ensures Planned(more, j)
  {
    var k: nat :| k < |items| && items[k].who == j;
    assert more[k].who == j;
  }

  lemma Decode1Moves(c: Config, st: Sched, items: seq<Item>)
    requires WellFormed(st) && st.running != []
    ensures var (st', items', out) := Decode1(c, st, items);
      && items <= items'
      && (if out then st'.running == st.running[1..] && st'.waiting == [st.running[0]] + st.waiting
          else st'.running == st.running[1..] + [st.running[0]] && st'.waiting == st.waiting && Planned(items', st.running[0]))
  {
    var (st', items', out) := Decode1(c, st, items);
    if !out {
      assert items'[|items|].who == st.running[0];
    }
    hide WellFormed, CanAppend, MayAppend;
  }

  /** The decode loop stops early only with a full plan. */
  lemma {:induction false} DecodeRotates(c: Config, st: Sched, items: seq<Item>, left: nat, preempted: bool) returns (rounds: nat)
    requires WellFormed(st) && left <= |st.running|
    ensures var (st', items', out) := Decode(c, st, items, left, preempted);
      && items <= items' && (forall x :: x in st.waiting ==> x in st'.waiting)
      && Rotates(st.running, left, st'.running, st'.waiting, items', rounds)
      && (rounds < left ==> |items'| >= c.maxNumSeqs && rounds >= |items'| - |items|)
    decreases left
  {
    hide Rotates, Decode1, WellFormed, Planned;
    if left == 0 || |items| >= c.maxNumSeqs {
      rounds := 0;
      RotatesNone(st, items, left);
    } else {
      Decode1Moves(c, st, items);
      var (st1, items1, out) := Decode1(c, st, items);
      var more := DecodeRotates(c, st1, items1, left - 1, preempted || out);
      rounds := more + 1;
      var (st', items', out') := Decode(c, st1, items1, left - 1, preempted || out);
      assert Decode(c, st, items, left, preempted) == (st', items', out');
      hide Decode;
      RotatesStep(st, st1, st', items1, items', left, more);
    }
  }

  lemma RotatesNone(st: Sched, items: seq<Item>, left: nat)
    requires left <= |st.running|
    ensures Rotates(st.running, left, st.running, st.waiting, items, 0)
  {
    assert st.running[..|st.running|] == st.running;
  }

  lemma RotatesStep(st: Sched, st1: Sched, st': Sched, items1: seq<Item>, items': seq<Item>, left: nat, more: nat)
    requires 0 < left <= |st.running| && items1 <= items' && (forall x :: x in st1.waiting ==> x in st'.waiting)
    requires Rotates(st1.running, left - 1, st'.running, st'.waiting, items', more)
    requires (st1.running == st.running[1..] && st.running[0] in st1.waiting) || (st1.running == st.running[1..] + [st.running[0]] && Planned(items1, st.running[0]))
    ensures Rotates(st.running, left, st'.running, st'.waiting, items', more + 1)
  {
    var rounds := more + 1;
    hide Planned;
    var n := |st.running| - rounds;
    assert st'.running[..|st1.running| - more] == st1.running[more..];
    assert st'.running[..n] == st1.running[more..][..n];
    assert st1.running[more..][..n] == st.running[rounds..];
    forall i: nat | i < rounds ensures Planned(items', st.running[i]) || st.running[i] in st'.waiting {
      if i == 0 {
        if Planned(items1, st.running[0]) {
          PlannedMore(items1, items', st.running[0]);
        }
      } else {
        assert st1.running[i - 1] == st.running[i];
      }
    }
  }

  /** Bounded waiting: a decode round of schedule plans or preempts the running sequence at index `i`,
      or moves it at least max_num_seqs places towards the front. */
  lemma DecodeWaits(c: Config, st: Sched, i: nat)
    requires Inv(c, st) && WellFormed(st) && Quiet(st.seqs) && i < |st.running|
    requires Prefill(c, st, [], 0).2 == []
    ensures var (st', items, preempted) := Decode(c, st, [], |st.running|, false);
      || Planned(items, st.running[i])
      || st.running[i] in st'.waiting
      || exists j: nat :: j + c.maxNumSeqs <= i && j < |st'.running| && st'.running[j] == st.running[i]
  {
    DecodePhase(c, st);
    hide *;
    var rounds := DecodeRotates(c, st, [], |st.running|, false);
    var (st', items, preempted) := Decode(c, st, [], |st.running|, false);
    RotatedIndex(st.running, |st.running|, st'.running, st'.waiting, items, rounds, i);
  }

  lemma RotatedIndex(running: seq<nat>, left: nat, running': seq<nat>, waiting': seq<nat>, items: seq<Item>, rounds: nat, i: nat)
    requires Rotates(running, left, running', waiting', items, rounds) && i < |running|
    ensures i < rounds ==> Planned(items, running[i]) || running[i] in waiting'
    ensures i >= rounds ==> i - rounds < |running'| && running'[i - rounds] == running[i]
  {
    hide Planned;
    if i >= rounds {
      var j := i - rounds;
      assert running'[..|running| - rounds][j] == running[rounds..][j];
    }
  }

  // ---------------------------------------------------------------- one schedule

  /** `x` is at some index up to `i`. */
  ghost predicate UpTo(queue: seq<nat>, x: nat, i: int) {
    exists j: nat :: j <= i && j < |queue| && queue[j] == x
  }

  lemma {:induction false} PrefillAppends(c: Config, st: Sched, items: seq<Item>, batched: nat)
    requires WellFormed(st) && batched <= c.maxNumBatchedTokens
    ensures var (status, st', items', batched') := Prefill(c, st, items, batched);
      st.running <= st'.running && items <= items' && forall x :: x in st'.running && x !in st.running ==> Planned(items', x)
    decreases |st.waiting|
  {
    hide Planned, WellFormed, Prefill1;
    if st.waiting != [] && |items| < c.maxNumSeqs {
      var r := Prefill1(c, st, items, batched);
      Prefill1Appends(c, st, items, batched);
      if r.again {
        PrefillAppends(c, r.st, r.items, r.batched);
        var (status, st', items', batched') := Prefill(c, r.st, r.items, r.batched);
        assert Prefill(c, st, items, batched) == (status, st', items', batched');
        hide Prefill;
        forall x | x in st'.running && x !in st.running ensures Planned(items', x) {
          if x in r.st.running {
            PlannedMore(r.items, items', x);
          }
        }
      }
    }
  }

  lemma Prefill1Appends(c: Config, st: Sched, items: seq<Item>, batched: nat)
    requires WellFormed(st) && batched <= c.maxNumBatchedTokens && st.waiting != []
    ensures var r := Prefill1(c, st, items, batched);
      st.running <= r.st.running && items <= r.items && forall x :: x in r.st.running && x !in st.running ==> Planned(r.items, x)
  {
    var r := Prefill1(c, st, items, batched);
    var i := st.waiting[0];
    var (go, st1) := Admit(c, st, i);
    hide Admit;
    if |r.items| > |items| {
      assert r.items[|items|].who == i;
      assert Planned(r.items, i);
    }
    hide Planned, WellFormed;
  }

  /** With nothing running before, whatever runs after a schedule is in its plan. */
  lemma NewlyRunning(c: Config, st: Sched)
    requires Inv(c, st) && WellFormed(st) && Quiet(st.seqs) && st.running == []
    ensures var (status, st', plan) := Schedule(c, st);
      status == Success ==> forall x :: x in st'.running ==> Planned(plan.items, x)
  {
    PrefillAppends(c, st, [], 0);
    RecursionDepth(c, st);
    var (status, st1, items, batched) := Prefill(c, st, [], 0);
    hide Planned, WellFormed, Quiet, Inv, Prefill;
    if status == Success && items == [] {
      assert st1.running == [] by {
        DecodePhase(c, st);
      }
      assert Decode(c, st1, [], |st1.running|, false) == (st1, [], false);
    }
  }

  lemma QueuesDisjoint(c: Config, st: Sched, x: nat)
    requires Inv(c, st)
    ensures x in st.waiting ==> x !in st.running
  {
    hide BlocksIdle, SeqsOk;
  }

  /** After a schedule that succeeds, a sequence that was at index `i` of the running queue is planned,
      or gone from the queue, or no further back; and a decode round moved it forward. */
  lemma ScheduleMoves(c: Config, st: Sched, i: nat)
    requires Inv(c, st) && WellFormed(st) && Quiet(st.seqs) && i < |st.running|
    ensures var (status, st', plan) := Schedule(c, st);
      status == Success && !Planned(plan.items, st.running[i]) && st.running[i] in st'.running ==>
        UpTo(st'.running, st.running[i], if plan.isPrefill || plan.items == [] then i else i - c.maxNumSeqs)
  {
    hide Schedule, Prefill, Decode, Inv, WellFormed, Quiet, Planned, FrontBare, DecodeDone, OneEach;
    var x := st.running[i];
    PrefillAppends(c, st, [], 0);
    ScheduleGoes(c, st);
    var (status, st1, items, batched) := Prefill(c, st, [], 0);
    if status == Success && items != [] {
      assert st1.running[i] == x;
    } else if status == Success {
      DecodePhase(c, st);
      DecodeWaits(c, st, i);
      var (st2, items2, preempted) := Decode(c, st, [], |st.running|, false);
      DecodedInv(c, st, st2, items2);
      if items2 == [] && !IsFinished(st2) && preempted {
        NewlyRunning(c, st2);
      } else if items2 != [] || IsFinished(st2) {
        QueuesDisjoint(c, st2, x);
      }
    }
  }

  lemma DecodedInv(c: Config, st: Sched, st': Sched, items: seq<Item>)
    requires DecodeDone(c, st, st', items)
    ensures Inv(c, st') && WellFormed(st')
  {
  }

  // ---------------------------------------------------------------- whole runs

  /** `x` is running, and the plan under way, if any, is without it. */
  ghost predicate PassedOver(e: State, x: nat) {
    x in e.sched.running && (!e.phase.Idle? ==> !Planned(e.phase.plan.items, x))
  }

  /** `x` is passed over in every state of the run. */
  ghost predicate AlwaysPassedOver(w: World, e: State, events: seq<Event>, x: nat)
    requires EngineInv(w, e) && RightUnlessCollision(w, e)
    decreases |events|
  {
    PassedOver(e, x) &&
    (events != [] && Move(w, e, events[0]).Some? ==>
      (MoveOk(w, e, events[0]);
       AlwaysPassedOver(w, Move(w, e, events[0]).value, events[1..], x)))
  }

  ghost predicate DecodeRound(w: World, e: State, event: Event)
    requires EngineInv(w, e)
  {
    event.DoSchedule? && Move(w, e, event).Some? && Move(w, e, event).value.phase.Scheduled? && !Move(w, e, event).value.phase.plan.isPrefill
  }

  /** How many decode batches a run plans. */
  ghost function DecodeRounds(w: World, e: State, events: seq<Event>): nat
    requires EngineInv(w, e) && RightUnlessCollision(w, e)
    decreases |events|
  {
    if events == [] || Move(w, e, events[0]).None? then 0
    else
      MoveOk(w, e, events[0]);
      DecodeRounds(w, Move(w, e, events[0]).value, events[1..]) + if DecodeRound(w, e, events[0]) then 1 else 0
  }

  lemma {:induction false} WithoutUpTo(queue: seq<nat>, y: nat, x: nat, i: nat)
    requires UpTo(queue, x, i) && x != y
    ensures UpTo(Without(queue, y), x, i)
  {
    var j: nat :| j <= i && j < |queue| && queue[j] == x;
    var rest := Without(queue[1..], y);
    if j > 0 {
      assert queue[1..][j - 1] == x;
      WithoutUpTo(queue[1..], y, x, i - 1);
      var k: nat :| k <= i - 1 && k < |rest| && rest[k] == x;
      assert queue[0] != y ==> Without(queue, y)[k + 1] == x;
      assert queue[0] == y ==> Without(queue, y)[k] == x;
    } else {
      assert Without(queue, y)[0] == x;
    }
  }

  lemma Post1UpTo(c: Config, st: Sched, isPrefill: bool, who: nat, token: Token, isEos: Token -> bool, x: nat, i: nat)
    requires WellFormed(st) && who < |st.seqs| && who != x && UpTo(st.running, x, i)
    ensures UpTo(Post1(c, st, isPrefill, who, token, isEos).1.running, x, i)
  {
    WithoutUpTo(st.running, who, x, i);
    hide HashBlocks, WellFormed, UpTo, Deallocate;
  }

  lemma {:induction false} PostUpTo(c: Config, st: Sched, isPrefill: bool, items: seq<Item>, sampled: seq<Token>, isEos: Token -> bool, x: nat, i: nat)
    requires WellFormed(st) && |sampled| == |items| && forall k :: 0 <= k < |items| ==> items[k].who < |st.seqs|
    requires !Planned(items, x) && UpTo(st.running, x, i)
    ensures UpTo(Post(c, st, isPrefill, items, sampled, isEos).1.running, x, i)
    decreases |items|
  {
    if items != [] {
      assert items[0].who != x;
      assert forall k: nat :: k < |items[1..]| ==> items[1..][k] == items[k + 1];
      assert !Planned(items[1..], x);
      hide Planned, WellFormed, UpTo;
      Post1UpTo(c, st, isPrefill, items[0].who, sampled[0], isEos, x, i);
      var (status, st1) := Post1(c, st, isPrefill, items[0].who, sampled[0], isEos);
      hide Post1;
      if status == Success {
        PostUpTo(c, st1, isPrefill, items[1..], sampled[1..], isEos, x, i);
      }
    }
  }

  /** One event: a decode round moves `x` forward, and nothing moves it back. */
  lemma MoveUpTo(w: World, e: State, event: Event, x: nat, i: nat)
    requires EngineInv(w, e) && Move(w, e, event).Some? && UpTo(e.sched.running, x, i)
    requires PassedOver(e, x) && PassedOver(Move(w, e, event).value, x)
    ensures UpTo(Move(w, e, event).value.sched.running, x, if DecodeRound(w, e, event) then i - w.c.maxNumSeqs else i)
  {
    var e' := Move(w, e, event).value;
    hide UpTo;
    match event
    case Arrival(prompt, sampling) =>
    case DoSchedule =>
      hide Inv, WellFormed, RequestsOk, Numbered, Quiet, Planned;
      ScheduleUpTo(w.c, e.sched, x, i);
    case DoRun =>
    case DoFinish =>
      FinishPhaseOk(w, e);
      hide EngineInv, Planned, AllAdvanced, Collect;
      PostUpTo(w.c, e.sched, e.phase.plan.isPrefill, e.phase.plan.items, e.phase.sampled, w.isEos, x, i);
  }

  lemma ScheduleUpTo(c: Config, st: Sched, x: nat, i: nat)
    requires Inv(c, st) && WellFormed(st) && Quiet(st.seqs) && UpTo(st.running, x, i)
    ensures var (status, st', plan) := Schedule(c, st);
      status == Success && x in st'.running && !Planned(plan.items, x) ==>
        UpTo(st'.running, x, if plan.isPrefill || plan.items == [] then i else i - c.maxNumSeqs)
  {
    var j: nat :| j <= i && j < |st.running| && st.running[j] == x;
    hide Inv, WellFormed, Quiet, Planned;
    ScheduleMoves(c, st, j);
  }

  /** Bounded waiting over any run: a request at index `i` of the running queue that is never planned and
      never preempted has been passed over by at most `i / max_num_seqs` decode batches, so it is served
      or preempted by the next one at the latest. */
  lemma {:induction false} BoundedWaiting(w: World, e: State, events: seq<Event>, e': State, x: nat, i: nat)
    requires EngineInv(w, e) && RightUnlessCollision(w, e) && Reaches(w, e, events, e')
    requires UpTo(e.sched.running, x, i) && AlwaysPassedOver(w, e, events, x)
    ensures DecodeRounds(w, e, events) * w.c.maxNumSeqs <= i
    decreases |events|
  {
    hide *;
    var m := w.c.maxNumSeqs;
    UpToSome(e.sched.running, x, i);
    if events == [] {
      NoRounds(w, e);
    } else {
      FirstOfRun(w, e, events, e', x);
      var e1 := Move(w, e, events[0]).value;
      MoveUpTo(w, e, events[0], x, i);
      var rest := DecodeRounds(w, e1, events[1..]);
      if DecodeRound(w, e, events[0]) {
        UpToSome(e1.sched.running, x, i - m);
        BoundedWaiting(w, e1, events[1..], e', x, i - m);
        OneMore(rest, m, i);
      } else {
        BoundedWaiting(w, e1, events[1..], e', x, i);
      }
    }
  }

  lemma OneMore(rest: nat, m: int, i: int)
    requires rest * m <= i - m
    ensures (rest + 1) * m <= i
  {
  }

  lemma NoRounds(w: World, e: State)
    requires EngineInv(w, e) && RightUnlessCollision(w, e)
    ensures DecodeRounds(w, e, []) == 0
  {
  }

  lemma FirstOfRun(w: World, e: State, events: seq<Event>, e': State, x: nat)
    requires EngineInv(w, e) && RightUnlessCollision(w, e) && events != []
    requires Reaches(w, e, events, e') && AlwaysPassedOver(w, e, events, x)
    ensures Move(w, e, events[0]).Some?
    ensures var e1 := Move(w, e, events[0]).value;
      && EngineInv(w, e1) && RightUnlessCollision(w, e1)
      && Reaches(w, e1, events[1..], e') && AlwaysPassedOver(w, e1, events[1..], x)
      && PassedOver(e, x) && PassedOver(e1, x)
      && DecodeRounds(w, e, events) == DecodeRounds(w, e1, events[1..]) + if DecodeRound(w, e, events[0]) then 1 else 0
  {
    hide EngineInv, RightUnlessCollision, Move, DecodeRound, PassedOver;
    MoveOk(w, e, events[0]);
  }

  lemma UpToSome(queue: seq<nat>, x: nat, i: int)
    requires UpTo(queue, x, i)
    ensures i >= 0
  {
  }
}
