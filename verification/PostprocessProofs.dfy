/** What postprocess keeps, and what it does to the texts. */
module PostprocessProofs {
  import opened Common
  import opened Blocks
  import opened Sequences
  import opened BlockPool
  import opened BlockInvariants
  import opened PrefixCache
  import opened AllocationProofs
  import opened SchedulerSpec
  import opened SchedulerProofs

  ghost predicate Computed(s: SeqState) {
    s.cached + s.scheduled == |s.tokens|
  }

  /** Does a sequence stop once it has been given `token`? */
  ghost predicate Stops(s: SeqState, token: Token, isEos: Token -> bool) {
    || (!s.sampling.ignoreEos && isEos(token))
    || s.(tokens := s.tokens + [token]).ReachedLimit()
  }

  /** A complete sequence got exactly one token more, and finished exactly if that stopped it; one
      that is still in its prompt kept its text. */
  ghost predicate Advanced(s: SeqState, t: SeqState, token: Token, isEos: Token -> bool) {
    && t.id == s.id && t.promptSize == s.promptSize && t.sampling == s.sampling && t.rng == s.rng
    && t.tokens == (if Computed(s) then s.tokens + [token] else s.tokens)
    && (t.status == Finished <==> Computed(s) && Stops(s, token, isEos))
    && t.scheduled == 0
    && (!Computed(s) ==> t.cached == s.cached + s.scheduled && t.table == s.table)
  }

  /** Growing the text of a sequence. */
  lemma GrowBlocks(c: Config, p: Pool, seqs: seq<SeqState>, i: nat, t: SeqState)
    requires BlocksIdle(c, p, seqs) && i < |seqs|
    requires t.table == seqs[i].table && t.cached == seqs[i].cached
    requires |t.tokens| >= |seqs[i].tokens| && t.tokens[..|seqs[i].tokens|] == seqs[i].tokens
    ensures BlocksIdle(c, p, seqs[i := t])
  {
    var k := seqs[i].cached / c.blockSize;
    assert t.cached / c.blockSize == k;
    hide *;
    Enter(c, p, seqs, i);
    Leave(c, p, seqs, i, k, t);
  }

  lemma GrowKv(c: Config, p: Pool, holds: Holds, seqs: seq<SeqState>, i: nat, t: SeqState)
    requires KvIdle(c, p, holds, seqs, true) && i < |seqs|
    requires t.table == seqs[i].table && t.cached == seqs[i].cached && t.scheduled == seqs[i].scheduled
    requires |t.tokens| >= |seqs[i].tokens| && t.tokens[..|seqs[i].tokens|] == seqs[i].tokens
    ensures KvIdle(c, p, holds, seqs[i := t], true)
  {
    assert Ready(t, true) == Ready(seqs[i], true);
    hide *;
    EnterKv(c, p, holds, seqs, i, true);
    LeaveKv(c, p, holds, seqs, i, Ready(seqs[i], true), t, true);
  }

  /** The sequence after its scheduled positions are counted as cached. */
  ghost function Counted(s: SeqState): SeqState {
    s.(cached := s.cached + s.scheduled, scheduled := 0)
  }

  /** The first half of a round: hashing what was computed. */
  lemma HashHalf(c: Config, st: Sched, i: nat)
    requires Inv(c, st) && WellFormed(st) && i < |st.seqs| && st.seqs[i].scheduled > 0
    ensures TableInRange(st.pool, st.seqs[i].table)
    ensures var (status, p) := HashBlocks(c, st.pool, st.seqs[i]);
      && status == Success && st.pool.hashed <= p.hashed && |p.blocks| == |st.pool.blocks|
      && BlocksIdle(c, p, st.seqs[i := Counted(st.seqs[i])])
    ensures i in st.running || (st.waiting != [] && st.waiting[0] == i)
    ensures Computed(st.seqs[i]) <==> i in st.running
    ensures NumBlocks(st.seqs[i].cached + st.seqs[i].scheduled, c.blockSize) <= |st.seqs[i].table|
    ensures st.seqs[i].cached + st.seqs[i].scheduled <= |st.seqs[i].tokens|
  {
    var s := st.seqs[i];
    assert SeqOk(c, s, RoleOf(st, i));
    NumBlocksMono(s.cached + s.scheduled, |s.tokens|, c.blockSize);
    assert s.tokens[..|s.tokens|] == s.tokens;
    hide BlocksIdle, SeqsOk, WellFormed, HashBlocks, NumBlocks;
    HashBlocksOk(c, st.pool, st.seqs, i, Counted(s));
  }

  /** The state between the two halves of a round. */
  ghost function Hashed(c: Config, st: Sched, i: nat): Sched
    requires WellFormed(st) && i < |st.seqs|
  {
    assert TableInRange(st.pool, st.seqs[i].table);
    Put(st, i, HashBlocks(c, st.pool, st.seqs[i]).1, Counted(st.seqs[i]))
  }

  lemma Post1Unroll(c: Config, st: Sched, isPrefill: bool, i: nat, token: Token, isEos: Token -> bool)
    requires WellFormed(st) && i < |st.seqs| && TableInRange(st.pool, st.seqs[i].table)
    requires HashBlocks(c, st.pool, st.seqs[i]).0 == Success && WellFormed(Hashed(c, st, i))
    requires Computed(st.seqs[i]) ==> token >= 0
    requires !isPrefill ==> Computed(st.seqs[i])
    requires st.seqs[i].cached + st.seqs[i].scheduled <= |st.seqs[i].tokens|
    ensures Post1(c, st, isPrefill, i, token, isEos) ==
            (Success, if Computed(st.seqs[i]) then Accept(c, Hashed(c, st, i), i, token, isEos) else Hashed(c, st, i))
  {
    hide HashBlocks, WellFormed, Accept, TableInRange;
  }

  /** The end of a round for a sequence in the middle of its prompt. */
  lemma PartialOk(c: Config, st: Sched, i: nat)
    requires Inv(c, st) && WellFormed(st) && i < |st.seqs| && st.seqs[i].scheduled > 0 && !Computed(st.seqs[i])
    ensures Inv(c, Hashed(c, st, i))
  {
    var s, st' := st.seqs[i], Hashed(c, st, i);
    HashHalf(c, st, i);
    assert SeqOk(c, s, RoleOf(st, i));
    hide BlocksIdle, SeqsOk, HashBlocks, WellFormed, NumBlocks;
    SeqsFrame(c, st, st', i, Counted(s));
  }

  /** The end of a round for a complete sequence that goes on. */
  lemma GoesOnOk(c: Config, st: Sched, i: nat, token: Token, isEos: Token -> bool)
    requires Inv(c, st) && WellFormed(st) && i < |st.seqs| && st.seqs[i].scheduled > 0 && Computed(st.seqs[i])
    requires WellFormed(Hashed(c, st, i)) && !Stops(st.seqs[i], token, isEos)
    ensures var st' := Accept(c, Hashed(c, st, i), i, token, isEos);
      Inv(c, st') && Advanced(st.seqs[i], st'.seqs[i], token, isEos)
      && st'.seqs == st.seqs[i := st'.seqs[i]] && st.pool.hashed <= st'.pool.hashed && st'.waiting == st.waiting
  {
    var s := st.seqs[i];
    HashHalf(c, st, i);
    assert SeqOk(c, s, RoleOf(st, i));
    var p := HashBlocks(c, st.pool, s).1;
    hide BlocksIdle, SeqsOk, HashBlocks, WellFormed, NumBlocks, TableInRange;
    var st1 := Hashed(c, st, i);
    assert st1.pool == p && st1.seqs == st.seqs[i := Counted(s)];
    var t := Counted(s).(tokens := s.tokens + [token]);
    var st' := Accept(c, st1, i, token, isEos);
    assert st.seqs[i := Counted(s)][i := t] == st.seqs[i := t];
    assert st'.seqs == st.seqs[i := t] && st'.pool == p;
    assert t.tokens[..|s.tokens|] == s.tokens;
    GrowBlocks(c, p, st1.seqs, i, t);
    assert SeqOk(c, t, InRunning);
    SeqsFrame(c, st, st', i, t);
  }

  /** The end of a round for a complete sequence that stops: everything is given back. */
  lemma StopsBlocks(c: Config, p: Pool, seqs: seq<SeqState>, i: nat, s: SeqState)
    requires BlocksIdle(c, p, seqs) && i < |seqs| && TableInRange(p, s.table)
    requires s.table == seqs[i].table && s.cached == seqs[i].cached
    requires |s.tokens| >= |seqs[i].tokens| && s.tokens[..|seqs[i].tokens|] == seqs[i].tokens
    ensures var (q, t) := Deallocate(p, s);
      && t == s.(table := [], cached := 0, scheduled := 0)
      && BlocksIdle(c, q, seqs[i := t]) && q.hashed == p.hashed
  {
    GrowBlocks(c, p, seqs, i, s);
    hide BlocksIdle, Deallocate, TableInRange;
    DeallocateOk(c, p, seqs[i := s], i);
    var t := Deallocate(p, s).1;
    assert seqs[i := s][i := t] == seqs[i := t];
  }

  lemma StopsKv(c: Config, p: Pool, holds: Holds, seqs: seq<SeqState>, i: nat, s: SeqState)
    requires BlocksIdle(c, p, seqs) && i < |seqs| && TableInRange(p, s.table) && KvIdle(c, p, holds, seqs, true)
    requires s.table == seqs[i].table && s.cached == seqs[i].cached && s.scheduled == seqs[i].scheduled
    requires |s.tokens| >= |seqs[i].tokens| && s.tokens[..|seqs[i].tokens|] == seqs[i].tokens
    ensures var (q, t) := Deallocate(p, s); KvIdle(c, q, holds, seqs[i := t], true)
  {
    GrowBlocks(c, p, seqs, i, s);
    GrowKv(c, p, holds, seqs, i, s);
    hide BlocksIdle, KvIdle, Deallocate, TableInRange;
    DeallocateKv(c, p, holds, seqs[i := s], i, true);
    var t := Deallocate(p, s).1;
    assert seqs[i := s][i := t] == seqs[i := t];
  }

  /** Dropping a running sequence changes no other role. */
  lemma Dropped(c: Config, st: Sched, st': Sched, i: nat, t: SeqState)
    requires QueuesOk(st) && SeqsOk(c, st) && i in st.running && i < |st.seqs| && SeqOk(c, t, Gone)
    requires st'.seqs == st.seqs[i := t] && st'.waiting == st.waiting && st'.running == Without(st.running, i)
    ensures QueuesOk(st') && SeqsOk(c, st')
  {
    WithoutDistinct(st.running, i);
    hide SeqsOk, SeqOk, Distinct, Without;
    forall j: nat | j in st'.running ensures j in st.running && j != i {
      var y :| 0 <= y < |st'.running| && st'.running[y] == j;
    }
    assert st.waiting != [] ==> st.waiting[0] in st.waiting;
    forall j: nat | j < |st.seqs| && j != i ensures RoleMoves(st.seqs[j], RoleOf(st, j), RoleOf(st', j)) {
    }
    SeqsFrame(c, st, st', i, t);
  }

  lemma StopsOk(c: Config, st: Sched, i: nat, token: Token, isEos: Token -> bool)
    requires Inv(c, st) && WellFormed(st) && i < |st.seqs| && st.seqs[i].scheduled > 0 && Computed(st.seqs[i])
    requires WellFormed(Hashed(c, st, i)) && Stops(st.seqs[i], token, isEos)
    ensures var st' := Accept(c, Hashed(c, st, i), i, token, isEos);
      Inv(c, st') && Advanced(st.seqs[i], st'.seqs[i], token, isEos)
      && st'.seqs == st.seqs[i := st'.seqs[i]] && st.pool.hashed <= st'.pool.hashed && st'.waiting == st.waiting
  {
    var s := st.seqs[i];
    HashHalf(c, st, i);
    var p := HashBlocks(c, st.pool, s).1;
    var st1 := Hashed(c, st, i);
    assert st1.pool == p && st1.seqs == st.seqs[i := Counted(s)];
    assert TableInRange(st1.pool, st1.seqs[i].table);
    hide BlocksIdle, SeqsOk, HashBlocks, WellFormed, NumBlocks, TableInRange, Without, Deallocate, QueuesOk;
    var u := Counted(s).(tokens := s.tokens + [token], status := Finished);
    assert u.tokens[..|s.tokens|] == s.tokens;
    StopsBlocks(c, p, st1.seqs, i, u);
    var (q, t) := Deallocate(p, u);
    var st' := Accept(c, st1, i, token, isEos);
    assert st.seqs[i := Counted(s)][i := t] == st.seqs[i := t];
    assert st'.seqs == st.seqs[i := t] && st'.pool == q;
    Dropped(c, st, st', i, t);
  }

  lemma MatchesDone(seqs: seq<SeqState>, items: seq<Item>, s: SeqState)
    requires Matches(seqs, items) && items != [] && items[0].who < |seqs| && s.scheduled == 0
    ensures Matches(seqs[items[0].who := s], items[1..])
  {
    var i := items[0].who;
    var seqs' := seqs[i := s];
    var rest := items[1..];
    forall k: nat | k < |rest| ensures ItemOk(seqs', rest[k]) {
      assert rest[k] == items[k + 1];
      assert ItemOk(seqs, items[k + 1]);
    }
    forall j: nat | j < |seqs'| && seqs'[j].scheduled > 0 ensures exists k: nat :: k < |rest| && rest[k].who == j {
      var k: nat :| k < |items| && items[k].who == j;
      assert rest[k - 1].who == j;
    }
  }

  /** What one round of postprocess leaves. */
  ghost predicate Post1Done(c: Config, st: Sched, st': Sched, items: seq<Item>, token: Token, isEos: Token -> bool) {
    && items != [] && items[0].who < |st.seqs|
    && Inv(c, st') && WellFormed(st') && Matches(st'.seqs, items[1..])
    && |st'.seqs| == |st.seqs|
    && st'.seqs == st.seqs[items[0].who := st'.seqs[items[0].who]]
    && Advanced(st.seqs[items[0].who], st'.seqs[items[0].who], token, isEos)
    && st.pool.hashed <= st'.pool.hashed && st'.waiting == st.waiting
  }

  lemma HashedOk(c: Config, st: Sched, i: nat)
    requires Inv(c, st) && WellFormed(st) && i < |st.seqs| && st.seqs[i].scheduled > 0
    ensures WellFormed(Hashed(c, st, i)) && Hashed(c, st, i).seqs == st.seqs[i := Counted(st.seqs[i])]
    ensures Hashed(c, st, i).waiting == st.waiting && Hashed(c, st, i).running == st.running
  {
    hide Inv, HashBlocks;
  }

  /** One round of postprocess meets no error. */
  lemma Post1Ok(c: Config, st: Sched, isPrefill: bool, items: seq<Item>, token: Token, isEos: Token -> bool)
    requires Inv(c, st) && WellFormed(st) && Matches(st.seqs, items) && items != [] && items[0].who < |st.seqs|
    requires Computed(st.seqs[items[0].who]) ==> token >= 0
    requires !isPrefill ==> Computed(st.seqs[items[0].who])
    ensures var (status, st') := Post1(c, st, isPrefill, items[0].who, token, isEos);
      status == Success && Post1Done(c, st, st', items, token, isEos)
  {
    var i := items[0].who;
    assert ItemOk(st.seqs, items[0]);
    HashHalf(c, st, i);
    HashedOk(c, st, i);
    hide Inv, WellFormed, HashBlocks, Stops, NumBlocks, Matches;
    Post1Unroll(c, st, isPrefill, i, token, isEos);
    hide Post1;
    if !Computed(st.seqs[i]) {
      PartialOk(c, st, i);
    } else if Stops(st.seqs[i], token, isEos) {
      StopsOk(c, st, i, token, isEos);
    } else {
      GoesOnOk(c, st, i, token, isEos);
    }
    hide Accept, Hashed;
    var st' := Post1(c, st, isPrefill, i, token, isEos).1;
    MatchesDone(st.seqs, items, st'.seqs[i]);
  }

  lemma HashedKv(c: Config, st: Sched, holds: Holds, i: nat)
    requires Inv(c, st) && WellFormed(st) && i < |st.seqs| && st.seqs[i].scheduled > 0
    requires KvIdle(c, st.pool, holds, st.seqs, true)
    ensures var st' := Hashed(c, st, i); KvIdle(c, st'.pool, holds, st'.seqs, true)
  {
    var s := st.seqs[i];
    HashHalf(c, st, i);
    assert s.tokens[..|s.tokens|] == s.tokens;
    hide BlocksIdle, KvIdle, SeqsOk, QueuesOk, HashBlocks, WellFormed, NumBlocks, TableInRange;
    HashBlocksKv(c, st.pool, holds, st.seqs, i, Counted(s));
  }

  lemma AcceptKv(c: Config, st: Sched, holds: Holds, i: nat, token: Token, isEos: Token -> bool)
    requires BlocksIdle(c, st.pool, st.seqs) && WellFormed(st) && i < |st.seqs| && KvIdle(c, st.pool, holds, st.seqs, true)
    ensures var st' := Accept(c, st, i, token, isEos); KvIdle(c, st'.pool, holds, st'.seqs, true)
  {
    var s := st.seqs[i];
    var t := s.(tokens := s.tokens + [token]);
    assert t.tokens[..|s.tokens|] == s.tokens;
    assert TableInRange(st.pool, s.table);
    hide BlocksIdle, KvIdle, WellFormed, TableInRange, Deallocate, Without;
    GrowKv(c, st.pool, holds, st.seqs, i, t);
    StopsKv(c, st.pool, holds, st.seqs, i, t.(status := Finished));
  }

  lemma Post1Kv(c: Config, st: Sched, holds: Holds, isPrefill: bool, items: seq<Item>, token: Token, isEos: Token -> bool)
    requires Inv(c, st) && WellFormed(st) && Matches(st.seqs, items) && items != [] && items[0].who < |st.seqs|
    requires Computed(st.seqs[items[0].who]) ==> token >= 0
    requires !isPrefill ==> Computed(st.seqs[items[0].who])
    requires KvIdle(c, st.pool, holds, st.seqs, true)
    ensures var st' := Post1(c, st, isPrefill, items[0].who, token, isEos).1; KvIdle(c, st'.pool, holds, st'.seqs, true)
  {
    var i := items[0].who;
    assert ItemOk(st.seqs, items[0]);
    HashHalf(c, st, i);
    HashedOk(c, st, i);
    HashedKv(c, st, holds, i);
    hide Inv, WellFormed, HashBlocks, NumBlocks, Matches, KvIdle, BlocksIdle, Accept;
    Post1Unroll(c, st, isPrefill, i, token, isEos);
    if Computed(st.seqs[i]) {
      AcceptKv(c, Hashed(c, st, i), holds, i, token, isEos);
    }
  }

  /** The tokens fit the plan: every complete sequence has one, and a decode plan has only those. */
  ghost predicate TokensFit(seqs: seq<SeqState>, isPrefill: bool, items: seq<Item>, sampled: seq<Token>) {
    && |sampled| == |items|
    && forall k: nat :: k < |items| ==> items[k].who < |seqs| && TokenFits(seqs[items[k].who], isPrefill, sampled[k])
  }

  ghost predicate TokenFits(s: SeqState, isPrefill: bool, token: Token) {
    (Computed(s) ==> token >= 0) && (!isPrefill ==> Computed(s))
  }

  ghost predicate Planned(items: seq<Item>, j: nat) {
    exists k: nat :: k < |items| && items[k].who == j
  }

  /** Every planned sequence advanced by its own token, the others are untouched. */
  ghost predicate AllAdvanced(seqs: seq<SeqState>, seqs': seq<SeqState>, items: seq<Item>, sampled: seq<Token>, isEos: Token -> bool) {
    && |sampled| == |items| && |seqs'| == |seqs|
    && (forall k: nat :: k < |items| ==>
         items[k].who < |seqs| && Advanced(seqs[items[k].who], seqs'[items[k].who], sampled[k], isEos))
    && (forall j: nat :: j < |seqs| && !Planned(items, j) ==> seqs'[j] == seqs[j])
  }

  lemma TokensFitRest(seqs: seq<SeqState>, seqs': seq<SeqState>, isPrefill: bool, items: seq<Item>, sampled: seq<Token>)
    requires Matches(seqs, items) && TokensFit(seqs, isPrefill, items, sampled) && items != []
    requires items[0].who < |seqs| && |seqs'| == |seqs| && seqs' == seqs[items[0].who := seqs'[items[0].who]]
    ensures TokensFit(seqs', isPrefill, items[1..], sampled[1..])
  {
    hide TokenFits, ItemOk;
    forall k: nat | k < |items[1..]|
      ensures items[1..][k].who < |seqs'| && TokenFits(seqs'[items[1..][k].who], isPrefill, sampled[1..][k])
    {
      assert items[1..][k] == items[k + 1] && sampled[1..][k] == sampled[k + 1];
    }
  }

  lemma AllAdvancedCons(a: seq<SeqState>, b: seq<SeqState>, d: seq<SeqState>, items: seq<Item>, sampled: seq<Token>, isEos: Token -> bool)
    requires Matches(a, items) && items != [] && |sampled| == |items| && items[0].who < |a|
    requires |b| == |a| && b == a[items[0].who := b[items[0].who]] && Advanced(a[items[0].who], b[items[0].who], sampled[0], isEos)
    requires AllAdvanced(b, d, items[1..], sampled[1..], isEos)
    ensures AllAdvanced(a, d, items, sampled, isEos)
  {
    hide Advanced, ItemOk;
    var rest := items[1..];
    assert forall y: nat :: y < |rest| ==> rest[y] == items[y + 1];
    forall k: nat | k < |items| ensures items[k].who < |a| && Advanced(a[items[k].who], d[items[k].who], sampled[k], isEos) {
      if k == 0 {
        assert !Planned(rest, items[0].who);
      } else {
        assert rest[k - 1] == items[k] && sampled[1..][k - 1] == sampled[k];
      }
    }
    forall j: nat | j < |a| && !Planned(items, j) ensures d[j] == a[j] {
      assert items[0].who != j;
      assert !Planned(rest, j);
    }
  }

  /** What postprocess leaves after all its rounds. */
  ghost predicate PostDone(c: Config, st: Sched, st': Sched, items: seq<Item>, sampled: seq<Token>, isEos: Token -> bool) {
    && Inv(c, st') && Matches(st'.seqs, [])
    && AllAdvanced(st.seqs, st'.seqs, items, sampled, isEos)
    && st.pool.hashed <= st'.pool.hashed && st'.waiting == st.waiting
  }

  /** Postprocess meets no error: every complete sequence gets its token, hashing included, and
      nothing stays scheduled. */
  lemma {:induction false} PostOk(c: Config, st: Sched, isPrefill: bool, items: seq<Item>, sampled: seq<Token>, isEos: Token -> bool)
    requires Inv(c, st) && WellFormed(st) && Matches(st.seqs, items) && TokensFit(st.seqs, isPrefill, items, sampled)
    requires |sampled| == |items| && forall k :: 0 <= k < |items| ==> items[k].who < |st.seqs|
    ensures Post(c, st, isPrefill, items, sampled, isEos).0 == Success
    ensures PostDone(c, st, Post(c, st, isPrefill, items, sampled, isEos).1, items, sampled, isEos)
    decreases |items|
  {
    if items != [] {
      assert TokenFits(st.seqs[items[0].who], isPrefill, sampled[0]);
      hide Inv, WellFormed, Matches, Advanced, Post1, AllAdvanced;
      Post1Ok(c, st, isPrefill, items, sampled[0], isEos);
      var st1 := Post1(c, st, isPrefill, items[0].who, sampled[0], isEos).1;
      TokensFitRest(st.seqs, st1.seqs, isPrefill, items, sampled);
      PostOk(c, st1, isPrefill, items[1..], sampled[1..], isEos);
      AllAdvancedCons(st.seqs, st1.seqs, Post(c, st1, isPrefill, items[1..], sampled[1..], isEos).1.seqs, items, sampled, isEos);
    }
  }

  lemma {:induction false} PostKv(c: Config, st: Sched, holds: Holds, isPrefill: bool, items: seq<Item>, sampled: seq<Token>, isEos: Token -> bool)
    requires Inv(c, st) && WellFormed(st) && Matches(st.seqs, items) && TokensFit(st.seqs, isPrefill, items, sampled)
    requires |sampled| == |items| && forall k :: 0 <= k < |items| ==> items[k].who < |st.seqs|
    requires KvIdle(c, st.pool, holds, st.seqs, true)
    ensures var st' := Post(c, st, isPrefill, items, sampled, isEos).1; KvIdle(c, st'.pool, holds, st'.seqs, true)
    decreases |items|
  {
    if items != [] {
      assert TokenFits(st.seqs[items[0].who], isPrefill, sampled[0]);
      hide Inv, WellFormed, Matches, Advanced, Post1, KvIdle;
      Post1Ok(c, st, isPrefill, items, sampled[0], isEos);
      Post1Kv(c, st, holds, isPrefill, items, sampled[0], isEos);
      var st1 := Post1(c, st, isPrefill, items[0].who, sampled[0], isEos).1;
      TokensFitRest(st.seqs, st1.seqs, isPrefill, items, sampled);
      PostKv(c, st1, holds, isPrefill, items[1..], sampled[1..], isEos);
    }
  }

  /** With nothing scheduled, what the run promised is just what is cached. */
  lemma SettledKv(c: Config, p: Pool, holds: Holds, seqs: seq<SeqState>, a: bool, b: bool)
    requires KvIdle(c, p, holds, seqs, a) && forall i: nat :: i < |seqs| ==> seqs[i].scheduled == 0
    ensures KvIdle(c, p, holds, seqs, b)
  {
    hide OriginKv, SeqKv;
    forall j: nat | j < |seqs| ensures SeqKv(c, holds, seqs[j], ReadyBound(seqs, |seqs|, 0, b, j)) {
      assert SeqKv(c, holds, seqs[j], ReadyBound(seqs, |seqs|, 0, a, j));
    }
  }
}
