/** can_allocate, allocate, deallocate, may_append and hash_blocks as wholes. */
module AllocationProofs {
  import opened Common
  import opened Blocks
  import opened Sequences
  import opened BlockPool
  import opened BlockInvariants
  import opened PrefixCache

  // ---------------------------------------------------------------- can_allocate

  /** The run stops before the last block, all its blocks match, and it cannot be longer. */
  lemma {:induction false} CachedRunMaximal(c: Config, p: Pool, tokens: seq<Token>, i: nat)
    requires InRange(p) && (i == 0 || i + 1 <= NumBlocks(|tokens|, c.blockSize))
    ensures var run := CachedRun(c, p, tokens, i);
      && i <= run
      && (forall j: nat :: i <= j < run ==> Hit(c, p, tokens, j))
      && (run == 0 || run + 1 <= NumBlocks(|tokens|, c.blockSize))
      && (run + 1 >= NumBlocks(|tokens|, c.blockSize) || !Hit(c, p, tokens, run))
    decreases NumBlocks(|tokens|, c.blockSize) - i
  {
    if i + 1 < NumBlocks(|tokens|, c.blockSize) {
      WholeBlock(c, tokens, i);
      if Hit(c, p, tokens, i) {
        hide Hit;
        CachedRunMaximal(c, p, tokens, i + 1);
      }
    }
  }

  /** Every block but the last is full. */
  lemma WholeBlock(c: Config, tokens: seq<Token>, i: nat)
    requires i + 1 < NumBlocks(|tokens|, c.blockSize)
    ensures |BlockTokens(tokens, i, c.blockSize)| == c.blockSize
    ensures (i + 1) * c.blockSize < |tokens|
  {
    NumBlocksBounds(|tokens|, c.blockSize);
    MulMono(i + 1, NumBlocks(|tokens|, c.blockSize) - 1, c.blockSize);
    MulMono(0, i, c.blockSize);
    assert (i + 1) * c.blockSize == i * c.blockSize + c.blockSize;
    FullBlock(tokens, i, c.blockSize);
  }

  lemma {:induction false} CanAllocateLoop(c: Config, p: Pool, tokens: seq<Token>, i: nat, newBlocks: int)
    requires InRange(p) && (forall j: nat :: j < i ==> Hit(c, p, tokens, j))
    requires i == 0 || i + 1 <= NumBlocks(|tokens|, c.blockSize)
    ensures forall j: nat :: j < CachedRun(c, p, tokens, i) ==> Hit(c, p, tokens, j)
    ensures CanAllocateFrom(c, p, tokens, i, newBlocks) ==
            (|p.free| >= newBlocks - (InUse(c, p, tokens, CachedRun(c, p, tokens, i)) - InUse(c, p, tokens, i)), CachedRun(c, p, tokens, i))
    decreases NumBlocks(|tokens|, c.blockSize) - i
  {
    hide Chain, BlockTokens;
    if i + 1 < NumBlocks(|tokens|, c.blockSize) && |BlockTokens(tokens, i, c.blockSize)| == c.blockSize && Hit(c, p, tokens, i) {
      CanAllocateLoop(c, p, tokens, i + 1,
                      if p.blocks[p.index[Chain(c, tokens, i + 1)]].refCount > 0 then newBlocks - 1 else newBlocks);
    }
  }

  /** can_allocate reports the longest run of full cached blocks short of the last block, and says
      yes exactly when the free blocks cover what that run does not bring along in use. */
  lemma CanAllocateMeaning(c: Config, p: Pool, tokens: seq<Token>)
    requires InRange(p)
    ensures var (fits, run) := CanAllocate(c, p, tokens);
      && (forall j: nat :: j < run ==> Hit(c, p, tokens, j))
      && (run == 0 || run + 1 <= NumBlocks(|tokens|, c.blockSize))
      && (run + 1 >= NumBlocks(|tokens|, c.blockSize) || !Hit(c, p, tokens, run))
      && (fits <==> |p.free| >= NumBlocks(|tokens|, c.blockSize) - InUse(c, p, tokens, run))
  {
    hide Hit;
    CachedRunMaximal(c, p, tokens, 0);
    CanAllocateLoop(c, p, tokens, 0, NumBlocks(|tokens|, c.blockSize));
  }

  // ---------------------------------------------------------------- the sharing loop of allocate

  /** The pool during the sharing loop, compared with the pool at its start. */
  ghost predicate MoreShared(p0: Pool, p: Pool) {
    && p.index == p0.index
    && p.origin == p0.origin
    && p0.hashed <= p.hashed
    && |p.blocks| == |p0.blocks|
    && (forall b: nat :: b < |p.blocks| ==> SameContent(p0.blocks[b], p.blocks[b]) && p0.blocks[b].refCount <= p.blocks[b].refCount)
  }

  lemma HitShared(c: Config, p0: Pool, p: Pool, tokens: seq<Token>, i: nat)
    requires InRange(p0) && InRange(p) && MoreShared(p0, p)
    ensures Hit(c, p, tokens, i) == Hit(c, p0, tokens, i)
  {
    hide Chain, BlockTokens;
  }

  /** How many blocks are still to be taken from the free set, by can_allocate's count. */
  ghost function Need(c: Config, p0: Pool, tokens: seq<Token>, run: nat, i: nat): int
    requires InRange(p0) && i <= run && forall j: nat :: j < run ==> Hit(c, p0, tokens, j)
  {
    NumBlocks(|tokens|, c.blockSize) - i - (InUse(c, p0, tokens, run) - InUse(c, p0, tokens, i))
  }

  /** One round of the sharing loop, on everything the invariants speak of. */
  lemma ShareStep(c: Config, p0: Pool, p: Pool, seqs: seq<SeqState>, i: nat, k: nat, run: nat)
    requires BlocksOk(c, p, seqs, i, k) && i < |seqs| && |seqs[i].table| == k && k < run
    requires (k + 1) * c.blockSize <= |seqs[i].tokens|
    requires InRange(p0) && InRange(p) && MoreShared(p0, p)
    requires forall j: nat :: j < run ==> Hit(c, p0, seqs[i].tokens, j)
    requires |p.free| >= Need(c, p0, seqs[i].tokens, run, k)
    ensures Hit(c, p, seqs[i].tokens, k)
    ensures p.blocks[p.index[Chain(c, seqs[i].tokens, k + 1)]].refCount == 0 ==> p.index[Chain(c, seqs[i].tokens, k + 1)] in p.free
    ensures var q := Shared(c, p, seqs[i], k);
      && BlocksOk(c, q, seqs[i := Sharing(c, p, seqs[i], k)], i, k + 1)
      && InRange(q) && MoreShared(p0, q) && p.hashed <= q.hashed
      && |q.free| >= Need(c, p0, seqs[i].tokens, run, k + 1)
  {
    var tokens := seqs[i].tokens;
    HitShared(c, p0, p, tokens, k);
    assert Hit(c, p0, tokens, k);
    ShareOk(c, p, seqs, i, k);
    hide CountsOk, OriginsOk, TablesOk, Chain, BlockTokens, Prefix, Occ;
    assert PoolOk(c, p, seqs);
  }

  lemma ShareUnroll(c: Config, p: Pool, s: SeqState, k: nat, run: nat)
    requires InRange(p) && k < run <= NumBlocks(|s.tokens|, c.blockSize) && Hit(c, p, s.tokens, k)
    requires var b := p.index[Chain(c, s.tokens, k + 1)]; p.blocks[b].refCount == 0 ==> b in p.free
    ensures InRange(Shared(c, p, s, k))
    ensures ShareFrom(c, p, s, k, run) == ShareFrom(c, Shared(c, p, s, k), Sharing(c, p, s, k), k + 1, run)
  {
    hide Chain, BlockTokens, Prefix;
  }

  lemma ShareNone(c: Config, p: Pool, s: SeqState, run: nat)
    requires InRange(p) && run <= NumBlocks(|s.tokens|, c.blockSize)
    ensures ShareFrom(c, p, s, run, run) == (Success, p, s)
  {
  }

  lemma NeedDone(c: Config, p: Pool, tokens: seq<Token>, run: nat)
    requires InRange(p) && forall j: nat :: j < run ==> Hit(c, p, tokens, j)
    ensures Need(c, p, tokens, run, run) == NumBlocks(|tokens|, c.blockSize) - run
  {
    hide NumBlocks, InUse, Hit;
  }

  lemma BlocksParts(c: Config, p: Pool, seqs: seq<SeqState>, i: nat, k: nat)
    requires BlocksOk(c, p, seqs, i, k)
    ensures IndexOk(p) && OriginsOk(c, p)
  {
  }

  /** The sharing loop succeeds on the run can_allocate found. */
  lemma {:induction false} ShareLoop(c: Config, p0: Pool, p: Pool, seqs: seq<SeqState>, i: nat, k: nat, run: nat)
    requires BlocksOk(c, p, seqs, i, k) && i < |seqs| && |seqs[i].table| == k && k <= run
    requires run <= NumBlocks(|seqs[i].tokens|, c.blockSize) && run * c.blockSize <= |seqs[i].tokens|
    requires InRange(p0) && InRange(p) && MoreShared(p0, p)
    requires forall j: nat :: j < run ==> Hit(c, p0, seqs[i].tokens, j)
    requires |p.free| >= Need(c, p0, seqs[i].tokens, run, k)
    ensures var (status, q, t) := ShareFrom(c, p, seqs[i], k, run);
      && status == Success && InRange(q) && MoreShared(p0, q)
      && t == seqs[i].(table := t.table) && |t.table| == run
      && BlocksOk(c, q, seqs[i := t], i, run)
      && |q.free| >= NumBlocks(|seqs[i].tokens|, c.blockSize) - run
      && q.hashed >= p.hashed
    decreases run - k
  {
    hide BlocksOk, MoreShared, Chain, BlockTokens, InUse, ShareFrom, Need, InRange;
    if k == run {
      ShareNone(c, p, seqs[i], run);
      NeedDone(c, p0, seqs[i].tokens, run);
      assert seqs[i := seqs[i]] == seqs;
    } else {
      MulMono(k + 1, run, c.blockSize);
      ShareStep(c, p0, p, seqs, i, k, run);
      ShareUnroll(c, p, seqs[i], k, run);
      var q, s := Shared(c, p, seqs[i], k), Sharing(c, p, seqs[i], k);
      ShareLoop(c, p0, q, seqs[i := s], i, k + 1, run);
      assert seqs[i := s][i := ShareFrom(c, q, s, k + 1, run).2] == seqs[i := ShareFrom(c, q, s, k + 1, run).2];
    }
  }

  /** The sharing loop keeps the contents right and makes the whole run readable. */
  lemma {:induction false} ShareLoopKv(c: Config, p0: Pool, p: Pool, holds: Holds, seqs: seq<SeqState>, i: nat, k: nat, run: nat, ran: bool)
    requires BlocksOk(c, p, seqs, i, k) && i < |seqs| && |seqs[i].table| == k && k <= run
    requires run <= NumBlocks(|seqs[i].tokens|, c.blockSize) && run * c.blockSize <= |seqs[i].tokens|
    requires InRange(p0) && InRange(p) && MoreShared(p0, p)
    requires forall j: nat :: j < run ==> Hit(c, p0, seqs[i].tokens, j)
    requires |p.free| >= Need(c, p0, seqs[i].tokens, run, k)
    requires NoCollision(c, ShareFrom(c, p, seqs[i], k, run).1.hashed)
    requires 0 <= k * c.blockSize && KvOk(c, p, holds, seqs, i, k * c.blockSize, ran)
    ensures var (_, q, t) := ShareFrom(c, p, seqs[i], k, run);
      0 <= run * c.blockSize && KvOk(c, q, holds, seqs[i := t], i, run * c.blockSize, ran)
    decreases run - k
  {
    hide BlocksOk, MoreShared, Chain, BlockTokens, InUse, ShareFrom, Need, InRange, NoCollision, KvOk, IndexOk, OriginsOk, Prefix;
    if k == run {
      ShareNone(c, p, seqs[i], run);
      assert seqs[i := seqs[i]] == seqs;
    } else {
      MulMono(k + 1, run, c.blockSize);
      BlocksParts(c, p, seqs, i, k);
      ShareStep(c, p0, p, seqs, i, k, run);
      ShareUnroll(c, p, seqs[i], k, run);
      var q, s := Shared(c, p, seqs[i], k), Sharing(c, p, seqs[i], k);
      ShareLoop(c, p0, q, seqs[i := s], i, k + 1, run);
      var last := ShareFrom(c, q, s, k + 1, run);
      FewerCollide(c, q.hashed, last.1.hashed);
      ShareKv(c, p, holds, seqs, i, k, ran);
      ShareLoopKv(c, p0, q, holds, seqs[i := s], i, k + 1, run, ran);
      assert seqs[i := s][i := last.2] == seqs[i := last.2];
    }
  }

  // ---------------------------------------------------------------- the fresh-block loop of allocate

  /** The fresh-block loop succeeds when enough blocks are free. */
  lemma {:induction false} TakeLoop(c: Config, p: Pool, seqs: seq<SeqState>, i: nat, k: nat)
    requires BlocksOk(c, p, seqs, i, k) && i < |seqs|
    requires InRange(p) && TableInRange(p, seqs[i].table)
    requires |seqs[i].table| <= NumBlocks(|seqs[i].tokens|, c.blockSize)
    requires |p.free| >= NumBlocks(|seqs[i].tokens|, c.blockSize) - |seqs[i].table|
    ensures var (status, q, t) := TakeFrom(c, p, seqs[i], |seqs[i].table|);
      && status == Success && InRange(q)
      && t == seqs[i].(table := t.table) && |t.table| == NumBlocks(|seqs[i].tokens|, c.blockSize)
      && BlocksOk(c, q, seqs[i := t], i, k)
      && |q.free| == |p.free| - (NumBlocks(|seqs[i].tokens|, c.blockSize) - |seqs[i].table|)
      && q.hashed == p.hashed
    decreases NumBlocks(|seqs[i].tokens|, c.blockSize) - |seqs[i].table|
  {
    hide BlocksOk, TakeBlock, NumBlocks;
    if |seqs[i].table| == NumBlocks(|seqs[i].tokens|, c.blockSize) {
      assert seqs[i := seqs[i]] == seqs;
    } else {
      TakeOk(c, p, seqs, i, k);
      var (id, q) := TakeBlock(p);
      var seqs' := seqs[i := Push(seqs[i], id)];
      InRangeOk(c, q, seqs', i, k);
      assert TableInRange(q, seqs'[i].table);
      TakeLoop(c, q, seqs', i, k);
      var t := TakeFrom(c, p, seqs[i], |seqs[i].table|).2;
      assert seqs'[i := t] == seqs[i := t];
    }
  }

  lemma {:induction false} TakeLoopKv(c: Config, p: Pool, holds: Holds, seqs: seq<SeqState>, i: nat, k: nat, n: nat, ran: bool)
    requires BlocksOk(c, p, seqs, i, k) && i < |seqs|
    requires InRange(p) && TableInRange(p, seqs[i].table)
    requires |seqs[i].table| <= NumBlocks(|seqs[i].tokens|, c.blockSize)
    requires |p.free| >= NumBlocks(|seqs[i].tokens|, c.blockSize) - |seqs[i].table|
    requires KvOk(c, p, holds, seqs, i, n, ran)
    ensures var (_, q, t) := TakeFrom(c, p, seqs[i], |seqs[i].table|);
      KvOk(c, q, holds, seqs[i := t], i, n, ran)
    decreases NumBlocks(|seqs[i].tokens|, c.blockSize) - |seqs[i].table|
  {
    if |seqs[i].table| == NumBlocks(|seqs[i].tokens|, c.blockSize) {
      assert seqs[i := seqs[i]] == seqs;
    } else {
      TakeOk(c, p, seqs, i, k);
      var (id, q) := TakeBlock(p);
      var seqs' := seqs[i := Push(seqs[i], id)];
      hide BlocksOk, TakeBlock, OriginKv, SeqsKv;
      TakeKv(c, p, holds, id);
      PushSeqsKv(c, holds, seqs, i, n, id, ran);
      assert KvOk(c, q, holds, seqs', i, n, ran);
      hide KvOk;
      TakeLoopKv(c, q, holds, seqs', i, k, n, ran);
      var t := TakeFrom(c, p, seqs[i], |seqs[i].table|).2;
      assert seqs'[i := t] == seqs[i := t];
    }
  }

  lemma PushSeqsKv(c: Config, holds: Holds, seqs: seq<SeqState>, i: nat, n: nat, b: nat, ran: bool)
    requires SeqsKv(c, holds, seqs, i, n, ran) && i < |seqs|
    ensures SeqsKv(c, holds, seqs[i := Push(seqs[i], b)], i, n, ran)
  {
    assert SeqKv(c, holds, seqs[i], ReadyBound(seqs, i, n, ran, i));
    hide SeqsKv, SeqKv;
    PushKv(c, holds, seqs[i], n, b);
    SeqsKvUpdate(c, holds, seqs, i, n, Push(seqs[i], b), n, ran);
  }

  // ---------------------------------------------------------------- between operations

  ghost predicate BlocksIdle(c: Config, p: Pool, seqs: seq<SeqState>) {
    BlocksOk(c, p, seqs, |seqs|, 0)
  }

  ghost predicate KvIdle(c: Config, p: Pool, holds: Holds, seqs: seq<SeqState>, ran: bool) {
    KvOk(c, p, holds, seqs, |seqs|, 0, ran)
  }

  lemma Enter(c: Config, p: Pool, seqs: seq<SeqState>, i: nat)
    requires BlocksIdle(c, p, seqs) && i < |seqs|
    ensures BlocksOk(c, p, seqs, i, seqs[i].cached / c.blockSize)
  {
    hide PoolOk, SeqBlocks;
    var k := seqs[i].cached / c.blockSize;
    forall j: nat | j < |seqs| ensures SeqBlocks(c, p.blocks, seqs[j], Bound(c, seqs, i, k, j)) {
      assert Bound(c, seqs, i, k, j) == Bound(c, seqs, |seqs|, 0, j);
    }
  }

  lemma SameTableBlocks(c: Config, blocks: seq<Block>, s: SeqState, t: SeqState, k: nat)
    requires SeqBlocks(c, blocks, s, k) && t.table == s.table
    requires |t.tokens| >= |s.tokens| && t.tokens[..|s.tokens|] == s.tokens
    ensures SeqBlocks(c, blocks, t, k)
  {
    hide Chain, BlockTokens;
    forall j: nat | j < |t.table| ensures if j < k then HashedEntry(c, blocks, t, j) else OwnEntry(blocks, t, j) {
      assert if j < k then HashedEntry(c, blocks, s, j) else OwnEntry(blocks, s, j);
      if j < k {
        GrownTokens(c, s.tokens, t.tokens, j, k);
      }
    }
  }

  lemma GrownTokens(c: Config, a: seq<Token>, b: seq<Token>, j: nat, k: nat)
    requires j < k && k * c.blockSize <= |a| <= |b| && b[..|a|] == a
    ensures BlockTokens(a, j, c.blockSize) == BlockTokens(b, j, c.blockSize) && Chain(c, a, j + 1) == Chain(c, b, j + 1)
  {
    hide Chain;
    MulMono(j + 1, k, c.blockSize);
    MulMono(0, j, c.blockSize);
    var n := (j + 1) * c.blockSize;
    assert n == j * c.blockSize + c.blockSize;
    assert a[..|a|] == b[..|a|];
    PrefixOfPrefix(a, b, n, |a|);
    BlockTokensOfPrefix(a, b, j, c.blockSize);
    ChainPrefix(c, a, b, j + 1);
  }

  /** An operation on sequence `i` ends when its counters say what its table holds; the tokens may
      have grown. */
  lemma Leave(c: Config, p: Pool, seqs: seq<SeqState>, i: nat, k: nat, t: SeqState)
    requires BlocksOk(c, p, seqs, i, k) && i < |seqs| && t.table == seqs[i].table && t.cached / c.blockSize == k
    requires |t.tokens| >= |seqs[i].tokens| && t.tokens[..|seqs[i].tokens|] == seqs[i].tokens
    ensures BlocksIdle(c, p, seqs[i := t])
  {
    var seqs' := seqs[i := t];
    hide SeqBlocks, Occ, FreeOk, IndexOk, OriginsOk;
    OccSameTable(seqs, i, t);
    assert SeqBlocks(c, p.blocks, seqs[i], Bound(c, seqs, i, k, i));
    SameTableBlocks(c, p.blocks, seqs[i], t, k);
    forall j: nat | j < |seqs'| ensures SeqBlocks(c, p.blocks, seqs'[j], Bound(c, seqs', |seqs'|, 0, j)) {
      if j != i {
        assert SeqBlocks(c, p.blocks, seqs[j], Bound(c, seqs, i, k, j));
      }
    }
  }

  lemma EnterKv(c: Config, p: Pool, holds: Holds, seqs: seq<SeqState>, i: nat, ran: bool)
    requires KvIdle(c, p, holds, seqs, ran) && i < |seqs|
    ensures KvOk(c, p, holds, seqs, i, Ready(seqs[i], ran), ran)
  {
    hide OriginKv, SeqKv;
    forall j: nat | j < |seqs| ensures SeqKv(c, holds, seqs[j], ReadyBound(seqs, i, Ready(seqs[i], ran), ran, j)) {
      assert SeqKv(c, holds, seqs[j], ReadyBound(seqs, |seqs|, 0, ran, j));
    }
  }

  lemma SameTableKv(c: Config, holds: Holds, s: SeqState, t: SeqState, n: nat)
    requires SeqKv(c, holds, s, n) && t.table == s.table
    requires |t.tokens| >= |s.tokens| && t.tokens[..|s.tokens|] == s.tokens
    ensures SeqKv(c, holds, t, n)
  {
    forall pos: nat | pos < n ensures pos / c.blockSize < |t.table| && holds(SlotOf(c.blockSize, t.table, pos), t.tokens[..pos + 1]) {
      assert holds(SlotOf(c.blockSize, s.table, pos), s.tokens[..pos + 1]);
      assert t.tokens[..pos + 1] == s.tokens[..pos + 1];
    }
  }

  lemma LeaveKv(c: Config, p: Pool, holds: Holds, seqs: seq<SeqState>, i: nat, n: nat, t: SeqState, ran: bool)
    requires KvOk(c, p, holds, seqs, i, n, ran) && i < |seqs| && t.table == seqs[i].table && Ready(t, ran) == n
    requires |t.tokens| >= |seqs[i].tokens| && t.tokens[..|seqs[i].tokens|] == seqs[i].tokens
    ensures KvIdle(c, p, holds, seqs[i := t], ran)
  {
    hide OriginKv, SeqKv;
    var seqs' := seqs[i := t];
    assert SeqKv(c, holds, seqs[i], ReadyBound(seqs, i, n, ran, i));
    SameTableKv(c, holds, seqs[i], t, n);
    forall j: nat | j < |seqs'| ensures SeqKv(c, holds, seqs'[j], ReadyBound(seqs', |seqs'|, 0, ran, j)) {
      if j != i {
        assert SeqKv(c, holds, seqs[j], ReadyBound(seqs, i, n, ran, j));
      }
    }
  }

  // ---------------------------------------------------------------- allocate

  lemma InRangeOk(c: Config, p: Pool, seqs: seq<SeqState>, i: nat, k: nat)
    requires BlocksOk(c, p, seqs, i, k)
    ensures InRange(p)
    ensures forall j: nat :: j < |seqs| ==> TableInRange(p, seqs[j].table)
  {
    hide Occ, OriginsOk, SeqBlocks;
    forall j: nat, y: nat | j < |seqs| && y < |seqs[j].table| ensures seqs[j].table[y] < |p.blocks| {
      assert SeqBlocks(c, p.blocks, seqs[j], Bound(c, seqs, i, k, j));
      EntryInRange(c, p.blocks, seqs[j], Bound(c, seqs, i, k, j), y);
    }
  }

  lemma RunFits(c: Config, tokens: seq<Token>, run: nat)
    requires run == 0 || run + 1 <= NumBlocks(|tokens|, c.blockSize)
    ensures 0 <= run * c.blockSize <= |tokens| && (|tokens| > 0 ==> run * c.blockSize < |tokens|)
    ensures run * c.blockSize / c.blockSize == run && run <= NumBlocks(|tokens|, c.blockSize)
  {
    if run > 0 {
      WholeBlock(c, tokens, run - 1);
    }
    MulMono(0, run, c.blockSize);
    DivUnique(run * c.blockSize, run, c.blockSize);
  }

  /** Allocate puts its two loops together. */
  lemma {:induction false} AllocateLoops(c: Config, p: Pool, s: SeqState, run: nat, p': Pool, s': SeqState, q: Pool, t: SeqState)
    requires InRange(p) && s.table == [] && run <= NumBlocks(|s.tokens|, c.blockSize)
    requires ShareFrom(c, p, s, 0, run) == (Success, p', s')
    requires InRange(p') && TableInRange(p', s'.table)
    requires TakeFrom(c, p', s', run) == (Success, q, t)
    ensures Allocate(c, p, s, run) == (Success, q, t.(cached := Positions(run, c.blockSize)))
  {
    hide ShareFrom, TakeFrom, InRange, NumBlocks, Positions, Completed;
    CompletedIs(c, q, t, run);
  }

  lemma CompletedIs(c: Config, q: Pool, t: SeqState, run: nat)
    ensures Completed(c, (Success, q, t), run) == (Success, q, t.(cached := Positions(run, c.blockSize)))
  {
  }

  lemma MoreSharedSelf(p: Pool)
    ensures MoreShared(p, p)
  {
  }

  /** What the two loops of allocate do after a successful can_allocate: the first leaves `p'` and
      `s'`, the second `q` and `t`. */
  ghost predicate Allocating(c: Config, p: Pool, seqs: seq<SeqState>, i: nat, run: nat, p': Pool, s': SeqState, q: Pool, t: SeqState)
    requires i < |seqs| && InRange(p)
  {
    && (run == 0 || run + 1 <= NumBlocks(|seqs[i].tokens|, c.blockSize))
    && (forall j: nat :: j < run ==> Hit(c, p, seqs[i].tokens, j))
    && 0 <= run * c.blockSize && run * c.blockSize / c.blockSize == run && run * c.blockSize <= |seqs[i].tokens|
    && run <= NumBlocks(|seqs[i].tokens|, c.blockSize) && |p.free| >= Need(c, p, seqs[i].tokens, run, 0)
    && ShareFrom(c, p, seqs[i], 0, run) == (Success, p', s') && s' == seqs[i].(table := s'.table) && |s'.table| == run
    && InRange(p') && TableInRange(p', s'.table)
    && BlocksOk(c, p', seqs[i := s'], i, run) && |p'.free| >= NumBlocks(|s'.tokens|, c.blockSize) - run
    && TakeFrom(c, p', s', run) == (Success, q, t) && t == seqs[i].(table := t.table)
    && |t.table| == NumBlocks(|t.tokens|, c.blockSize) && BlocksOk(c, q, seqs[i := t], i, run)
    && p.hashed <= p'.hashed == q.hashed
    && |q.free| == |p'.free| - (NumBlocks(|t.tokens|, c.blockSize) - run)
    && Allocate(c, p, seqs[i], run) == (Success, q, t.(cached := run * c.blockSize))
  }

  lemma {:induction false} AllocatingOk(c: Config, p: Pool, seqs: seq<SeqState>, i: nat, run: nat, p': Pool, s': SeqState, q: Pool, t: SeqState)
    requires i < |seqs| && InRange(p) && Allocating(c, p, seqs, i, run, p', s', q, t)
    ensures run == 0 || run + 1 <= NumBlocks(|seqs[i].tokens|, c.blockSize)
    ensures forall j: nat :: j < run ==> Hit(c, p, seqs[i].tokens, j)
    ensures 0 <= run * c.blockSize && run * c.blockSize / c.blockSize == run && run * c.blockSize <= |seqs[i].tokens|
    ensures run <= NumBlocks(|seqs[i].tokens|, c.blockSize) && |p.free| >= Need(c, p, seqs[i].tokens, run, 0)
    ensures ShareFrom(c, p, seqs[i], 0, run) == (Success, p', s') && s' == seqs[i].(table := s'.table) && |s'.table| == run
    ensures InRange(p') && TableInRange(p', s'.table)
    ensures BlocksOk(c, p', seqs[i := s'], i, run) && |p'.free| >= NumBlocks(|s'.tokens|, c.blockSize) - run
    ensures TakeFrom(c, p', s', run) == (Success, q, t) && t == seqs[i].(table := t.table)
    ensures |t.table| == NumBlocks(|t.tokens|, c.blockSize) && BlocksOk(c, q, seqs[i := t], i, run)
    ensures p.hashed <= p'.hashed == q.hashed
    ensures |q.free| == |p'.free| - (NumBlocks(|t.tokens|, c.blockSize) - run)
    ensures Allocate(c, p, seqs[i], run) == (Success, q, t.(cached := run * c.blockSize))
  {
    hide ShareFrom, TakeFrom, InRange, NumBlocks, Allocate, Need, BlocksOk, Hit, TableInRange;
  }

  lemma {:induction false} AllocatingIs(c: Config, p: Pool, seqs: seq<SeqState>, i: nat, run: nat, p': Pool, s': SeqState, q: Pool, t: SeqState)
    requires i < |seqs| && InRange(p)
    requires run == 0 || run + 1 <= NumBlocks(|seqs[i].tokens|, c.blockSize)
    requires forall j: nat :: j < run ==> Hit(c, p, seqs[i].tokens, j)
    requires 0 <= run * c.blockSize && run * c.blockSize / c.blockSize == run && run * c.blockSize <= |seqs[i].tokens|
    requires run <= NumBlocks(|seqs[i].tokens|, c.blockSize) && |p.free| >= Need(c, p, seqs[i].tokens, run, 0)
    requires ShareFrom(c, p, seqs[i], 0, run) == (Success, p', s') && s' == seqs[i].(table := s'.table) && |s'.table| == run
    requires InRange(p') && TableInRange(p', s'.table)
    requires BlocksOk(c, p', seqs[i := s'], i, run) && |p'.free| >= NumBlocks(|s'.tokens|, c.blockSize) - run
    requires TakeFrom(c, p', s', run) == (Success, q, t) && t == seqs[i].(table := t.table)
    requires |t.table| == NumBlocks(|t.tokens|, c.blockSize) && BlocksOk(c, q, seqs[i := t], i, run)
    requires p.hashed <= p'.hashed == q.hashed
    requires |q.free| == |p'.free| - (NumBlocks(|t.tokens|, c.blockSize) - run)
    requires Allocate(c, p, seqs[i], run) == (Success, q, t.(cached := run * c.blockSize))
    ensures Allocating(c, p, seqs, i, run, p', s', q, t)
  {
    hide ShareFrom, TakeFrom, InRange, NumBlocks, Allocate, Need, BlocksOk, Hit, TableInRange;
  }

  /** The two loops of allocate, run after a successful can_allocate. */
  lemma AllocateRuns(c: Config, p: Pool, seqs: seq<SeqState>, i: nat, run: nat) returns (p': Pool, s': SeqState, q: Pool, t: SeqState)
    requires BlocksOk(c, p, seqs, i, 0) && i < |seqs| && seqs[i].table == []
    requires InRange(p) && CanAllocate(c, p, seqs[i].tokens) == (true, run)
    ensures Allocating(c, p, seqs, i, run, p', s', q, t)
  {
    hide *;
    CanAllocateMeaning(c, p, seqs[i].tokens);
    RunFits(c, seqs[i].tokens, run);
    MoreSharedSelf(p);
    NeedAtStart(c, p, seqs[i].tokens, run);
    ShareLoop(c, p, p, seqs, i, 0, run);
    var r := ShareFrom(c, p, seqs[i], 0, run);
    p', s' := r.1, r.2;
    InRangeOk(c, p', seqs[i := s'], i, run);
    assert TableInRange(p', seqs[i := s'][i].table);
    TakeLoop(c, p', seqs[i := s'], i, run);
    var r' := TakeFrom(c, p', s', run);
    q, t := r'.1, r'.2;
    assert seqs[i := s'][i := t] == seqs[i := t];
    AllocateLoops(c, p, seqs[i], run, p', s', q, t);
    PositionsIs(c, run);
    AllocatingIs(c, p, seqs, i, run, p', s', q, t);
  }

  lemma PositionsIs(c: Config, run: nat)
    ensures Positions(run, c.blockSize) == run * c.blockSize
  {
  }

  lemma NeedAtStart(c: Config, p: Pool, tokens: seq<Token>, run: nat)
    requires InRange(p) && forall j: nat :: j < run ==> Hit(c, p, tokens, j)
    ensures Need(c, p, tokens, run, 0) == NumBlocks(|tokens|, c.blockSize) - InUse(c, p, tokens, run)
  {
  }

  /** When can_allocate says yes, allocate succeeds: the sequence gets a full table, keeps its other
      fields, and counts exactly the shared run as cached. */
  lemma AllocateOk(c: Config, p: Pool, seqs: seq<SeqState>, i: nat, run: nat)
    requires BlocksIdle(c, p, seqs) && i < |seqs| && seqs[i].table == [] && seqs[i].cached == 0
    requires InRange(p) && CanAllocate(c, p, seqs[i].tokens) == (true, run)
    ensures var (status, q, t) := Allocate(c, p, seqs[i], run);
      && status == Success
      && (run == 0 || run + 1 <= NumBlocks(|seqs[i].tokens|, c.blockSize))
      && 0 <= run * c.blockSize <= |t.tokens| && (|t.tokens| > 0 ==> run * c.blockSize < |t.tokens|)
      && t == seqs[i].(table := t.table, cached := run * c.blockSize)
      && |t.table| == NumBlocks(|t.tokens|, c.blockSize)
      && BlocksIdle(c, q, seqs[i := t]) && p.hashed <= q.hashed
  {
    DivUnique(0, 0, c.blockSize);
    hide *;
    Enter(c, p, seqs, i);
    var p', s', q, s'' := AllocateRuns(c, p, seqs, i, run);
    AllocatingOk(c, p, seqs, i, run, p', s', q, s'');
    RunFits(c, seqs[i].tokens, run);
    var t := s''.(cached := run * c.blockSize);
    assert t.tokens[..|t.tokens|] == t.tokens;
    Leave(c, q, seqs[i := s''], i, run, t);
    assert seqs[i := s''][i := t] == seqs[i := t];
  }

  /** Without collisions the cached positions of an allocated sequence hold its own prefixes. */
  lemma AllocateKv(c: Config, p: Pool, holds: Holds, seqs: seq<SeqState>, i: nat, run: nat)
    requires BlocksIdle(c, p, seqs) && i < |seqs| && seqs[i].table == [] && seqs[i].cached == 0
    requires InRange(p) && CanAllocate(c, p, seqs[i].tokens) == (true, run)
    requires NoCollision(c, Allocate(c, p, seqs[i], run).1.hashed)
    requires KvIdle(c, p, holds, seqs, false)
    ensures var (_, q, t) := Allocate(c, p, seqs[i], run);
      KvIdle(c, q, holds, seqs[i := t], false)
  {
    DivUnique(0, 0, c.blockSize);
    assert Ready(seqs[i], false) == 0;
    hide *;
    Enter(c, p, seqs, i);
    EnterKv(c, p, holds, seqs, i, false);
    var p', s', q, s'' := AllocateRuns(c, p, seqs, i, run);
    AllocatingOk(c, p, seqs, i, run, p', s', q, s'');
    var t := s''.(cached := run * c.blockSize);
    AllocatedKv(c, p, holds, seqs, i, run, p', s', q, s'');
    assert t.tokens[..|t.tokens|] == t.tokens;
    ReadyCached(t);
    LeaveKv(c, q, holds, seqs[i := s''], i, run * c.blockSize, t, false);
    assert seqs[i := s''][i := t] == seqs[i := t];
  }

  lemma {:induction false} AllocatedKv(c: Config, p: Pool, holds: Holds, seqs: seq<SeqState>, i: nat, run: nat, p': Pool, s': SeqState, q: Pool, t: SeqState)
    requires BlocksOk(c, p, seqs, i, 0) && i < |seqs| && seqs[i].table == [] && KvOk(c, p, holds, seqs, i, 0, false)
    requires InRange(p) && forall j: nat :: j < run ==> Hit(c, p, seqs[i].tokens, j)
    requires 0 <= run * c.blockSize <= |seqs[i].tokens|
    requires run <= NumBlocks(|seqs[i].tokens|, c.blockSize) && |p.free| >= Need(c, p, seqs[i].tokens, run, 0)
    requires ShareFrom(c, p, seqs[i], 0, run) == (Success, p', s') && s' == seqs[i].(table := s'.table) && |s'.table| == run
    requires InRange(p') && TableInRange(p', s'.table)
    requires BlocksOk(c, p', seqs[i := s'], i, run) && |p'.free| >= NumBlocks(|s'.tokens|, c.blockSize) - run
    requires TakeFrom(c, p', s', run) == (Success, q, t) && NoCollision(c, p'.hashed)
    ensures KvOk(c, q, holds, seqs[i := t], i, run * c.blockSize, false)
  {
    hide *;
    MoreSharedSelf(p);
    ShareLoopKv(c, p, p, holds, seqs, i, 0, run, false);
    TakeLoopKv(c, p', holds, seqs[i := s'], i, run, run * c.blockSize, false);
    assert seqs[i := s'][i := t] == seqs[i := t];
  }

  lemma ReadyCached(s: SeqState)
    ensures Ready(s, false) == s.cached && Ready(s, true) == s.cached + s.scheduled
  {
  }

  /** The block that matches block `j` of a sequence. */
  ghost function HitBlock(c: Config, p: Pool, tokens: seq<Token>, j: nat): nat
    requires InRange(p) && Hit(c, p, tokens, j)
  {
    p.index[Chain(c, tokens, j + 1)]
  }

  /** Different blocks of the run have different chain hashes. */
  ghost predicate DistinctChain(c: Config, tokens: seq<Token>, run: nat) {
    forall a: nat, b: nat :: 1 <= a < b <= run ==> Chain(c, tokens, a) != Chain(c, tokens, b)
  }

  /** The blocks the sharing loop has not reached yet are as they were at its start. */
  ghost predicate Untouched(c: Config, p0: Pool, p: Pool, tokens: seq<Token>, k: nat, run: nat)
    requires InRange(p0) && |p.blocks| == |p0.blocks| && forall j: nat :: j < run ==> Hit(c, p0, tokens, j)
  {
    forall j: nat :: k <= j < run ==>
      p.blocks[HitBlock(c, p0, tokens, j)].refCount == p0.blocks[HitBlock(c, p0, tokens, j)].refCount
  }

  lemma HitsApart(c: Config, p0: Pool, tokens: seq<Token>, k: nat, j: nat)
    requires InRange(p0) && IndexOk(p0) && Hit(c, p0, tokens, k) && Hit(c, p0, tokens, j)
    requires Chain(c, tokens, j + 1) != Chain(c, tokens, k + 1)
    ensures HitBlock(c, p0, tokens, j) != HitBlock(c, p0, tokens, k)
  {
    hide Chain, BlockTokens;
  }

  lemma HitInRange(c: Config, p: Pool, tokens: seq<Token>, j: nat)
    requires InRange(p) && Hit(c, p, tokens, j)
    ensures HitBlock(c, p, tokens, j) < |p.blocks|
  {
    hide Chain, BlockTokens;
  }

  lemma SharedBlocks(c: Config, p0: Pool, p: Pool, s: SeqState, k: nat)
    requires InRange(p0) && InRange(p) && MoreShared(p0, p) && Hit(c, p0, s.tokens, k)
    ensures Hit(c, p, s.tokens, k) && HitBlock(c, p0, s.tokens, k) < |p.blocks|
    ensures var b := HitBlock(c, p0, s.tokens, k);
      Shared(c, p, s, k).blocks == p.blocks[b := p.blocks[b].(refCount := p.blocks[b].refCount + 1)]
    ensures |Shared(c, p, s, k).blocks| == |p.blocks|
  {
    hide Chain, BlockTokens, Prefix;
    HitShared(c, p0, p, s.tokens, k);
  }

  lemma UntouchedStep(c: Config, p0: Pool, p: Pool, s: SeqState, k: nat, run: nat)
    requires InRange(p0) && InRange(p) && IndexOk(p0) && MoreShared(p0, p) && k < run
    requires forall j: nat :: j < run ==> Hit(c, p0, s.tokens, j)
    requires DistinctChain(c, s.tokens, run) && Untouched(c, p0, p, s.tokens, k, run)
    ensures Hit(c, p, s.tokens, k)
    ensures Untouched(c, p0, Shared(c, p, s, k), s.tokens, k + 1, run)
  {
    hide SameContent, Shared, Chain, BlockTokens, IndexOk;
    SharedBlocks(c, p0, p, s, k);
    var b := HitBlock(c, p0, s.tokens, k);
    forall j: nat | k + 1 <= j < run
      ensures Shared(c, p, s, k).blocks[HitBlock(c, p0, s.tokens, j)].refCount == p0.blocks[HitBlock(c, p0, s.tokens, j)].refCount
    {
      HitInRange(c, p0, s.tokens, j);
      HitsApart(c, p0, s.tokens, k, j);
    }
  }

  lemma NeedStep(c: Config, p0: Pool, p: Pool, s: SeqState, k: nat, run: nat)
    requires InRange(p0) && InRange(p) && FreeOk(p) && MoreShared(p0, p) && k < run
    requires forall j: nat :: j < run ==> Hit(c, p0, s.tokens, j)
    requires Untouched(c, p0, p, s.tokens, k, run) && forall b: nat :: b < |p.blocks| ==> p.blocks[b].refCount >= 0
    ensures Hit(c, p, s.tokens, k)
    ensures |Shared(c, p, s, k).free| - Need(c, p0, s.tokens, run, k + 1) == |p.free| - Need(c, p0, s.tokens, run, k)
  {
    HitShared(c, p0, p, s.tokens, k);
    assert Hit(c, p0, s.tokens, k);
    assert p.blocks[HitBlock(c, p0, s.tokens, k)].refCount == p0.blocks[HitBlock(c, p0, s.tokens, k)].refCount;
    hide Chain, BlockTokens, Prefix, SameContent, Untouched, NumBlocks;
  }

  lemma {:induction false} ShareLoopExact(c: Config, p0: Pool, p: Pool, seqs: seq<SeqState>, i: nat, k: nat, run: nat)
    requires BlocksOk(c, p, seqs, i, k) && i < |seqs| && |seqs[i].table| == k && k <= run
    requires run <= NumBlocks(|seqs[i].tokens|, c.blockSize) && run * c.blockSize <= |seqs[i].tokens|
    requires InRange(p0) && InRange(p) && MoreShared(p0, p) && IndexOk(p0)
    requires forall j: nat :: j < run ==> Hit(c, p0, seqs[i].tokens, j)
    requires |p.free| >= Need(c, p0, seqs[i].tokens, run, k)
    requires DistinctChain(c, seqs[i].tokens, run) && Untouched(c, p0, p, seqs[i].tokens, k, run)
    ensures |ShareFrom(c, p, seqs[i], k, run).1.free| ==
            |p.free| - Need(c, p0, seqs[i].tokens, run, k) + NumBlocks(|seqs[i].tokens|, c.blockSize) - run
    decreases run - k
  {
    if k < run {
      MulMono(k + 1, run, c.blockSize);
      assert FreeOk(p) && CountsOk(p.blocks, seqs);
      assert forall b: nat :: b < |p.blocks| ==> p.blocks[b].refCount >= 0;
      ShareStep(c, p0, p, seqs, i, k, run);
      var q, s := Shared(c, p, seqs[i], k), Sharing(c, p, seqs[i], k);
      assert s.tokens == seqs[i].tokens && |s.table| == k + 1;
      hide *;
      UntouchedStep(c, p0, p, seqs[i], k, run);
      NeedStep(c, p0, p, seqs[i], k, run);
      ShareUnroll(c, p, seqs[i], k, run);
      ShareLoopExact(c, p0, q, seqs[i := s], i, k + 1, run);
    }
  }

  /** With distinct chain hashes, allocate takes from the free set exactly the blocks it needs less
      the shared ones that were in use already. */
  lemma AllocateExact(c: Config, p: Pool, seqs: seq<SeqState>, i: nat, run: nat)
    requires BlocksIdle(c, p, seqs) && i < |seqs| && seqs[i].table == [] && seqs[i].cached == 0
    requires InRange(p) && CanAllocate(c, p, seqs[i].tokens) == (true, run)
    requires DistinctChain(c, seqs[i].tokens, run)
    ensures forall j: nat :: j < run ==> Hit(c, p, seqs[i].tokens, j)
    ensures |Allocate(c, p, seqs[i], run).1.free| ==
            |p.free| - (NumBlocks(|seqs[i].tokens|, c.blockSize) - InUse(c, p, seqs[i].tokens, run))
  {
    assert IndexOk(p);
    DivUnique(0, 0, c.blockSize);
    hide *;
    Enter(c, p, seqs, i);
    var p', s', q, t := AllocateRuns(c, p, seqs, i, run);
    AllocatingOk(c, p, seqs, i, run, p', s', q, t);
    MoreSharedSelf(p);
    UntouchedSelf(c, p, seqs[i].tokens, run);
    NeedAtStart(c, p, seqs[i].tokens, run);
    ShareLoopExact(c, p, p, seqs, i, 0, run);
  }

  lemma UntouchedSelf(c: Config, p: Pool, tokens: seq<Token>, run: nat)
    requires InRange(p) && forall j: nat :: j < run ==> Hit(c, p, tokens, j)
    ensures Untouched(c, p, p, tokens, 0, run)
  {
  }

  // ---------------------------------------------------------------- deallocate

  lemma {:induction false} ReleaseLoop(c: Config, p: Pool, seqs: seq<SeqState>, i: nat, k: nat)
    requires BlocksOk(c, p, seqs, i, k) && i < |seqs|
    requires TableInRange(p, seqs[i].table)
    ensures var q := ReleaseAll(p, seqs[i].table);
      && BlocksOk(c, q, seqs[i := seqs[i].(table := [])], i, 0)
      && q.hashed == p.hashed && q.origin == p.origin && |q.blocks| == |p.blocks|
      && (forall b: nat :: b < |q.blocks| && q.blocks[b].hashValid ==> p.blocks[b].hashValid)
    decreases |seqs[i].table|
  {
    hide BlocksOk;
    var s := seqs[i];
    if s.table == [] {
      EmptyTableBound(c, p, seqs, i, k);
      assert seqs[i := s.(table := [])] == seqs;
    } else {
      var n := |s.table| - 1;
      ReleaseOk(c, p, seqs, i, k);
      var q := ReleaseBlock(p, s.table[n]);
      ReleaseLoop(c, q, seqs[i := Pop(s)], i, Cap(k, n));
      assert seqs[i := Pop(s)][i := Pop(s).(table := [])] == seqs[i := s.(table := [])];
    }
  }

  lemma EmptyTableBound(c: Config, p: Pool, seqs: seq<SeqState>, i: nat, k: nat)
    requires BlocksOk(c, p, seqs, i, k) && i < |seqs| && seqs[i].table == []
    ensures k == 0
  {
    assert SeqBlocks(c, p.blocks, seqs[i], Bound(c, seqs, i, k, i));
  }

  /** deallocate gives everything back and keeps the cached contents for later hits. */
  lemma DeallocateOk(c: Config, p: Pool, seqs: seq<SeqState>, i: nat)
    requires BlocksIdle(c, p, seqs) && i < |seqs|
    ensures TableInRange(p, seqs[i].table)
    ensures var (q, t) := Deallocate(p, seqs[i]);
      && t == seqs[i].(table := [], cached := 0, scheduled := 0)
      && BlocksIdle(c, q, seqs[i := t])
      && q.hashed == p.hashed && q.origin == p.origin && |q.blocks| == |p.blocks|
      && (forall b: nat :: b < |q.blocks| && q.blocks[b].hashValid ==> p.blocks[b].hashValid)
  {
    var s := seqs[i];
    DivUnique(0, 0, c.blockSize);
    Enter(c, p, seqs, i);
    InRangeOk(c, p, seqs, i, s.cached / c.blockSize);
    ReleaseLoop(c, p, seqs, i, s.cached / c.blockSize);
    var (q, t) := Deallocate(p, s);
    var u := s.(table := []);
    hide *;
    assert t.tokens[..|t.tokens|] == t.tokens;
    Leave(c, q, seqs[i := u], i, 0, t);
    assert seqs[i := u][i := t] == seqs[i := t];
  }

  lemma DeallocateKv(c: Config, p: Pool, holds: Holds, seqs: seq<SeqState>, i: nat, ran: bool)
    requires BlocksIdle(c, p, seqs) && i < |seqs| && KvIdle(c, p, holds, seqs, ran)
    requires TableInRange(p, seqs[i].table)
    ensures var (q, t) := Deallocate(p, seqs[i]); KvIdle(c, q, holds, seqs[i := t], ran)
  {
    var (q, t) := Deallocate(p, seqs[i]);
    DeallocateOk(c, p, seqs, i);
    hide BlocksIdle, Deallocate, OriginKv;
    SameOriginKv(c, p, q, holds);
    assert SeqKv(c, holds, t, 0);
    hide SeqKv;
    var seqs' := seqs[i := t];
    forall j: nat | j < |seqs'| ensures SeqKv(c, holds, seqs'[j], ReadyBound(seqs', |seqs|, 0, ran, j)) {
      assert SeqKv(c, holds, seqs[j], ReadyBound(seqs, |seqs|, 0, ran, j));
    }
  }

  // ---------------------------------------------------------------- may_append

  /** A new block for the next token: the table grows by a block only this sequence holds. */
  lemma MayAppendOk(c: Config, p: Pool, seqs: seq<SeqState>, i: nat)
    requires BlocksIdle(c, p, seqs) && i < |seqs| && InRange(p) && CanAppend(c, p, seqs[i])
    ensures var (status, q, t) := MayAppend(c, p, seqs[i]);
      && status == Success && t == seqs[i].(table := t.table)
      && |t.table| == (if (|seqs[i].tokens| - 1) / c.blockSize < |seqs[i].table| then |seqs[i].table| else |seqs[i].table| + 1)
      && BlocksIdle(c, q, seqs[i := t]) && q.hashed == p.hashed
  {
    var s := seqs[i];
    if (|s.tokens| - 1) / c.blockSize < |s.table| {
      assert seqs[i := s] == seqs;
    } else {
      Enter(c, p, seqs, i);
      var k := s.cached / c.blockSize;
      TakeOk(c, p, seqs, i, k);
      var (id, q) := TakeBlock(p);
      var t := Push(s, id);
      assert MayAppend(c, p, s) == (Success, q, t);
      assert t.tokens[..|t.tokens|] == t.tokens;
      hide *;
      Leave(c, q, seqs[i := t], i, k, t);
      assert seqs[i := t][i := t] == seqs[i := t];
    }
  }

  lemma MayAppendKv(c: Config, p: Pool, holds: Holds, seqs: seq<SeqState>, i: nat)
    requires BlocksIdle(c, p, seqs) && i < |seqs| && InRange(p) && CanAppend(c, p, seqs[i])
    requires KvIdle(c, p, holds, seqs, false)
    ensures var (_, q, t) := MayAppend(c, p, seqs[i]); KvIdle(c, q, holds, seqs[i := t], false)
  {
    var s := seqs[i];
    if (|s.tokens| - 1) / c.blockSize < |s.table| {
      assert seqs[i := s] == seqs;
    } else {
      Enter(c, p, seqs, i);
      TakeOk(c, p, seqs, i, s.cached / c.blockSize);
      var (id, q) := TakeBlock(p);
      var t := Push(s, id);
      assert MayAppend(c, p, s) == (Success, q, t);
      assert t.tokens[..|t.tokens|] == t.tokens;
      assert Ready(t, false) == Ready(s, false);
      EnterKv(c, p, holds, seqs, i, false);
      TakeKv(c, p, holds, id);
      PushSeqsKv(c, holds, seqs, i, Ready(s, false), id, false);
      assert KvOk(c, q, holds, seqs[i := t], i, Ready(s, false), false);
      hide *;
      LeaveKv(c, q, holds, seqs[i := t], i, Ready(s, false), t, false);
      assert seqs[i := t][i := t] == seqs[i := t];
    }
  }

  // ---------------------------------------------------------------- hash_blocks

  /** The pool after block `k` of a sequence was hashed for the sequence's own prefix. */
  ghost function Hashing(c: Config, p: Pool, s: SeqState, k: nat): Pool
    requires k < |s.table| && s.table[k] < |p.blocks|
  {
    HashBlock(p, s.table[k], Chain(c, s.tokens, k + 1), BlockTokens(s.tokens, k, c.blockSize), Prefix(s.tokens, (k + 1) * c.blockSize))
  }

  lemma HashUnroll(c: Config, p: Pool, s: SeqState, k: nat, end: nat)
    requires k < end <= |s.table| && TableInRange(p, s.table)
    requires (k + 1) * c.blockSize <= |s.tokens|
    ensures HashFrom(c, p, s, k, end, Chain(c, s.tokens, k)) == HashFrom(c, Hashing(c, p, s, k), s, k + 1, end, Chain(c, s.tokens, k + 1))
    ensures p.hashed <= Hashing(c, p, s, k).hashed && |Hashing(c, p, s, k).blocks| == |p.blocks|
  {
    MulMono(0, k, c.blockSize);
    assert (k + 1) * c.blockSize == k * c.blockSize + c.blockSize;
    FullBlock(s.tokens, k, c.blockSize);
    hide BlockTokens, Prefix;
  }

  lemma {:induction false} HashLoop(c: Config, p: Pool, seqs: seq<SeqState>, i: nat, k: nat, end: nat)
    requires BlocksOk(c, p, seqs, i, k) && i < |seqs| && k <= end <= |seqs[i].table|
    requires TableInRange(p, seqs[i].table)
    requires end * c.blockSize <= |seqs[i].tokens|
    ensures var (status, q) := HashFrom(c, p, seqs[i], k, end, Chain(c, seqs[i].tokens, k));
      && status == Success && BlocksOk(c, q, seqs, i, end) && p.hashed <= q.hashed && |q.blocks| == |p.blocks|
    decreases end - k
  {
    if k < end {
      hide *;
      MulMono(k + 1, end, c.blockSize);
      HashUnroll(c, p, seqs[i], k, end);
      HashStep(c, p, seqs, i, k);
      HashLoop(c, Hashing(c, p, seqs[i], k), seqs, i, k + 1, end);
    }
  }

  lemma HashStep(c: Config, p: Pool, seqs: seq<SeqState>, i: nat, k: nat)
    requires BlocksOk(c, p, seqs, i, k) && i < |seqs| && k < |seqs[i].table| && (k + 1) * c.blockSize <= |seqs[i].tokens|
    ensures seqs[i].table[k] < |p.blocks| && BlocksOk(c, Hashing(c, p, seqs[i], k), seqs, i, k + 1)
  {
    hide BlocksOk;
    HashOk(c, p, seqs, i, k);
  }

  lemma HashingKv(c: Config, p: Pool, holds: Holds, s: SeqState, n: nat, k: nat)
    requires OriginKv(c, p, holds) && SeqKv(c, holds, s, n) && k < |s.table| && s.table[k] < |p.blocks|
    requires (k + 1) * c.blockSize <= n
    ensures OriginKv(c, Hashing(c, p, s, k), holds)
  {
    hide OriginKv, SeqKv;
    HashKv(c, p, holds, s, n, k, Chain(c, s.tokens, k + 1), BlockTokens(s.tokens, k, c.blockSize));
  }

  lemma {:induction false} HashLoopKv(c: Config, p: Pool, holds: Holds, s: SeqState, n: nat, k: nat, end: nat)
    requires OriginKv(c, p, holds) && SeqKv(c, holds, s, n) && k <= end <= |s.table| && end * c.blockSize <= n <= |s.tokens|
    requires TableInRange(p, s.table)
    ensures OriginKv(c, HashFrom(c, p, s, k, end, Chain(c, s.tokens, k)).1, holds)
    decreases end - k
  {
    if k < end {
      hide *;
      MulMono(k + 1, end, c.blockSize);
      HashUnroll(c, p, s, k, end);
      HashingKv(c, p, holds, s, n, k);
      HashLoopKv(c, Hashing(c, p, s, k), holds, s, n, k + 1, end);
    }
  }

  /** The hash hash_blocks continues from is the chain hash of the blocks before. */
  lemma PrefixHash(c: Config, p: Pool, seqs: seq<SeqState>, i: nat, k: nat)
    requires BlocksOk(c, p, seqs, i, k) && i < |seqs|
    ensures k <= |seqs[i].table| && k * c.blockSize <= |seqs[i].tokens|
    ensures k > 0 ==> seqs[i].table[k - 1] < |p.blocks| && p.blocks[seqs[i].table[k - 1]].hashValid
                      && p.blocks[seqs[i].table[k - 1]].hash == Chain(c, seqs[i].tokens, k)
  {
    hide PoolOk, BlockTokens;
    assert SeqBlocks(c, p.blocks, seqs[i], Bound(c, seqs, i, k, i));
    if k > 0 {
      assert HashedEntry(c, p.blocks, seqs[i], k - 1);
    }
  }

  /** hash_blocks is one run of its loop from the first unhashed block. */
  lemma HashBlocksRun(c: Config, p: Pool, seqs: seq<SeqState>, i: nat)
    requires BlocksIdle(c, p, seqs) && i < |seqs|
    requires seqs[i].cached + seqs[i].scheduled <= |seqs[i].tokens|
    requires NumBlocks(seqs[i].cached + seqs[i].scheduled, c.blockSize) <= |seqs[i].table|
    ensures TableInRange(p, seqs[i].table)
    ensures var k, end := seqs[i].cached / c.blockSize, (seqs[i].cached + seqs[i].scheduled) / c.blockSize;
      && k <= end <= |seqs[i].table| && end * c.blockSize <= seqs[i].cached + seqs[i].scheduled
      && HashBlocks(c, p, seqs[i]) == HashFrom(c, p, seqs[i], k, end, Chain(c, seqs[i].tokens, k))
  {
    var s := seqs[i];
    var k, end := s.cached / c.blockSize, (s.cached + s.scheduled) / c.blockSize;
    Enter(c, p, seqs, i);
    InRangeOk(c, p, seqs, i, k);
    PrefixHash(c, p, seqs, i, k);
    DivMono(s.cached, s.cached + s.scheduled, c.blockSize);
    DivBounds(s.cached + s.scheduled, c.blockSize);
    NumBlocksBounds(s.cached + s.scheduled, c.blockSize);
    hide BlocksOk, BlocksIdle, NumBlocks;
  }

  /** hash_blocks meets none of its errors, and afterwards the hashed blocks are those the computed
      positions fill. */
  lemma HashBlocksOk(c: Config, p: Pool, seqs: seq<SeqState>, i: nat, t: SeqState)
    requires BlocksIdle(c, p, seqs) && i < |seqs|
    requires seqs[i].cached + seqs[i].scheduled <= |seqs[i].tokens|
    requires NumBlocks(seqs[i].cached + seqs[i].scheduled, c.blockSize) <= |seqs[i].table|
    requires t.table == seqs[i].table && t.cached == seqs[i].cached + seqs[i].scheduled
    requires |t.tokens| >= |seqs[i].tokens| && t.tokens[..|seqs[i].tokens|] == seqs[i].tokens
    ensures TableInRange(p, seqs[i].table)
    ensures var (status, q) := HashBlocks(c, p, seqs[i]);
      && status == Success && BlocksIdle(c, q, seqs[i := t]) && p.hashed <= q.hashed && |q.blocks| == |p.blocks|
  {
    var k, end := seqs[i].cached / c.blockSize, (seqs[i].cached + seqs[i].scheduled) / c.blockSize;
    hide *;
    HashBlocksRun(c, p, seqs, i);
    Enter(c, p, seqs, i);
    HashLoop(c, p, seqs, i, k, end);
    Leave(c, HashBlocks(c, p, seqs[i]).1, seqs, i, end, t);
  }

  /** The newly hashed blocks hold the prefixes they are hashed for. */
  lemma HashBlocksKv(c: Config, p: Pool, holds: Holds, seqs: seq<SeqState>, i: nat, t: SeqState)
    requires BlocksIdle(c, p, seqs) && i < |seqs|
    requires seqs[i].cached + seqs[i].scheduled <= |seqs[i].tokens|
    requires NumBlocks(seqs[i].cached + seqs[i].scheduled, c.blockSize) <= |seqs[i].table|
    requires t.table == seqs[i].table && t.cached == seqs[i].cached + seqs[i].scheduled && t.scheduled == 0
    requires |t.tokens| >= |seqs[i].tokens| && t.tokens[..|seqs[i].tokens|] == seqs[i].tokens
    requires KvIdle(c, p, holds, seqs, true)
    requires TableInRange(p, seqs[i].table)
    ensures KvIdle(c, HashBlocks(c, p, seqs[i]).1, holds, seqs[i := t], true)
  {
    HashBlocksRun(c, p, seqs, i);
    var n := seqs[i].cached + seqs[i].scheduled;
    var k, end := seqs[i].cached / c.blockSize, n / c.blockSize;
    EnterKv(c, p, holds, seqs, i, true);
    assert SeqKv(c, holds, seqs[i], ReadyBound(seqs, i, n, true, i));
    hide SeqKv, OriginKv, HashBlocks, HashFrom, BlocksIdle;
    HashLoopKv(c, p, holds, seqs[i], n, k, end);
    assert KvOk(c, HashBlocks(c, p, seqs[i]).1, holds, seqs, i, n, true);
    hide *;
    ReadyCached(t);
    LeaveKv(c, HashBlocks(c, p, seqs[i]).1, holds, seqs, i, n, t, true);
  }
}
