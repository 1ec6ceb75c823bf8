/** What the pool and the block tables keep at every moment, and the elementary changes that keep it:
    taking a block, sharing a cached one, giving one back, hashing one. */
module BlockInvariants {
  import opened Common
  import opened Blocks
  import opened Sequences
  import opened BlockPool

  /** How often block `b` occurs in the tables of all sequences. */
  ghost function Occ(seqs: seq<SeqState>, b: nat): nat {
    if |seqs| == 0 then 0
    else Occ(seqs[..|seqs| - 1], b) + multiset(seqs[|seqs| - 1].table)[b]
  }

  function ChainOf(c: Config, prefix: seq<Token>): Hash {
    Chain(c, prefix, |prefix| / c.blockSize)
  }

  /** A valid hash was computed from the recorded prefix, whose last block the block stores. */
  ghost predicate OriginOk(c: Config, block: Block, origin: seq<Token>) {
    && |origin| / c.blockSize >= 1
    && |origin| / c.blockSize * c.blockSize == |origin|
    && ChainOf(c, origin) == block.hash
    && block.tokens == BlockTokens(origin, |origin| / c.blockSize - 1, c.blockSize)
  }

  ghost predicate FreeOk(p: Pool) {
    forall b: nat :: b in p.free <==> b < |p.blocks| && p.blocks[b].refCount == 0
  }

  ghost predicate CountsOk(blocks: seq<Block>, seqs: seq<SeqState>) {
    forall b: nat :: b < |blocks| ==> blocks[b].refCount == Occ(seqs, b)
  }

  ghost predicate IndexOk(p: Pool) {
    forall h :: h in p.index ==> p.index[h] < |p.blocks| && p.blocks[p.index[h]].hashValid && p.blocks[p.index[h]].hash == h
  }

  ghost predicate OriginsOk(c: Config, p: Pool) {
    forall b: nat :: b < |p.blocks| && p.blocks[b].hashValid ==>
      b in p.origin && p.origin[b] in p.hashed && OriginOk(c, p.blocks[b], p.origin[b])
  }

  /** Ref counts are occurrences, the free set is the zero counts, every index entry points at a
      valid block with that hash. */
  ghost predicate PoolOk(c: Config, p: Pool, seqs: seq<SeqState>) {
    && |p.blocks| == c.numKvBlocks
    && FreeOk(p)
    && CountsOk(p.blocks, seqs)
    && IndexOk(p)
    && OriginsOk(c, p)
  }

  ghost predicate HashedEntry(c: Config, blocks: seq<Block>, s: SeqState, j: nat)
    requires j < |s.table|
  {
    && s.table[j] < |blocks|
    && blocks[s.table[j]].hashValid
    && blocks[s.table[j]].tokens == BlockTokens(s.tokens, j, c.blockSize)
    && blocks[s.table[j]].hash == Chain(c, s.tokens, j + 1)
  }

  ghost predicate OwnEntry(blocks: seq<Block>, s: SeqState, j: nat)
    requires j < |s.table|
  {
    && s.table[j] < |blocks|
    && !blocks[s.table[j]].hashValid
    && blocks[s.table[j]].refCount == 1
  }

  /** The first `k` blocks of the table are hashed for this sequence's own tokens, the others are
      held by this sequence alone and unhashed. */
  ghost predicate SeqBlocks(c: Config, blocks: seq<Block>, s: SeqState, k: nat) {
    && k <= |s.table|
    && k * c.blockSize <= |s.tokens|
    && (forall j: nat :: j < |s.table| ==> if j < k then HashedEntry(c, blocks, s, j) else OwnEntry(blocks, s, j))
  }

  /** The number of hashed blocks of sequence `j`: by its cached count, except that sequence `i` is in
      the middle of an operation and has `k` of them. An `i` out of range means no operation. */
  ghost function Bound(c: Config, seqs: seq<SeqState>, i: nat, k: nat, j: nat): nat
    requires j < |seqs|
  {
    if j == i then k else seqs[j].cached / c.blockSize
  }

  ghost predicate TablesOk(c: Config, blocks: seq<Block>, seqs: seq<SeqState>, i: nat, k: nat) {
    forall j: nat :: j < |seqs| ==> SeqBlocks(c, blocks, seqs[j], Bound(c, seqs, i, k, j))
  }

  ghost predicate BlocksOk(c: Config, p: Pool, seqs: seq<SeqState>, i: nat, k: nat) {
    PoolOk(c, p, seqs) && TablesOk(c, p.blocks, seqs, i, k)
  }

  // ---------------------------------------------------------------- occurrences

  lemma {:induction false} OccUpdate(seqs: seq<SeqState>, i: nat, s: SeqState, b: nat)
    requires i < |seqs|
    ensures Occ(seqs[i := s], b) == Occ(seqs, b) - multiset(seqs[i].table)[b] + multiset(s.table)[b]
  {
    var n := |seqs| - 1;
    if i == n {
      assert seqs[i := s][..n] == seqs[..n];
    } else {
      OccUpdate(seqs[..n], i, s, b);
      assert seqs[i := s][..n] == seqs[..n][i := s];
    }
  }

  lemma OccSameTable(seqs: seq<SeqState>, i: nat, s: SeqState)
    requires i < |seqs| && s.table == seqs[i].table
    ensures forall b: nat :: Occ(seqs[i := s], b) == Occ(seqs, b)
  {
    forall b: nat ensures Occ(seqs[i := s], b) == Occ(seqs, b) {
      OccUpdate(seqs, i, s, b);
    }
  }

  lemma {:induction false} OccAtLeast(seqs: seq<SeqState>, i: nat, b: nat)
    requires i < |seqs|
    ensures Occ(seqs, b) >= multiset(seqs[i].table)[b]
  {
    if i < |seqs| - 1 {
      OccAtLeast(seqs[..|seqs| - 1], i, b);
    }
  }

  lemma {:induction false} OccAtLeastTwo(seqs: seq<SeqState>, i: nat, j: nat, b: nat)
    requires i < j < |seqs|
    ensures Occ(seqs, b) >= multiset(seqs[i].table)[b] + multiset(seqs[j].table)[b]
  {
    if j < |seqs| - 1 {
      OccAtLeastTwo(seqs[..|seqs| - 1], i, j, b);
    } else {
      OccAtLeast(seqs[..|seqs| - 1], i, b);
    }
  }

  lemma {:induction false} OccEmpty(seqs: seq<SeqState>, b: nat)
    requires forall j: nat :: j < |seqs| ==> seqs[j].table == []
    ensures Occ(seqs, b) == 0
  {
    if |seqs| > 0 {
      assert forall j: nat :: j < |seqs| - 1 ==> seqs[..|seqs| - 1][j] == seqs[j];
      OccEmpty(seqs[..|seqs| - 1], b);
      assert seqs[|seqs| - 1].table == [];
    }
  }

  lemma TwicePresent(s: seq<nat>, x: nat, y: nat)
    requires x < y < |s| && s[x] == s[y]
    ensures multiset(s)[s[x]] >= 2
  {
    assert s == s[..y] + s[y..];
    assert multiset(s) == multiset(s[..y]) + multiset(s[y..]);
    assert s[x] == s[..y][x] && s[y] == s[y..][0];
  }

  /** Two different places in the block tables count twice. */
  lemma OccPlaces(seqs: seq<SeqState>, i: nat, x: nat, j: nat, y: nat)
    requires i < |seqs| && x < |seqs[i].table| && j < |seqs| && y < |seqs[j].table|
    requires seqs[i].table[x] == seqs[j].table[y] && (i != j || x != y)
    ensures Occ(seqs, seqs[i].table[x]) >= 2
  {
    var b := seqs[i].table[x];
    if i < j {
      OccAtLeastTwo(seqs, i, j, b);
    } else if j < i {
      OccAtLeastTwo(seqs, j, i, b);
    } else {
      OccAtLeast(seqs, i, b);
      TwicePresent(seqs[i].table, if x < y then x else y, if x < y then y else x);
    }
  }

  lemma OccZero(seqs: seq<SeqState>, j: nat, y: nat, b: nat)
    requires j < |seqs| && y < |seqs[j].table| && Occ(seqs, b) == 0
    ensures seqs[j].table[y] != b
  {
    OccAtLeast(seqs, j, b);
  }

  // ---------------------------------------------------------------- chain hashes

  lemma PrefixOfPrefix<T>(a: seq<T>, b: seq<T>, m: nat, n: nat)
    requires m <= n <= |a| && n <= |b| && a[..n] == b[..n]
    ensures a[..m] == b[..m]
  {
    assert a[..m] == a[..n][..m];
    assert b[..m] == b[..n][..m];
  }

  lemma {:induction false} ChainPrefix(c: Config, a: seq<Token>, b: seq<Token>, n: nat)
    requires n * c.blockSize <= |a| && n * c.blockSize <= |b|
    requires a[..n * c.blockSize] == b[..n * c.blockSize]
    ensures Chain(c, a, n) == Chain(c, b, n)
    decreases n
  {
    if n > 0 {
      var m := (n - 1) * c.blockSize;
      MulMono(0, n - 1, c.blockSize);
      assert m + c.blockSize == n * c.blockSize;
      PrefixOfPrefix(a, b, m, n * c.blockSize);
      ChainPrefix(c, a, b, n - 1);
      BlockTokensOfPrefix(a, b, n - 1, c.blockSize);
    }
  }

  /** A prefix of `n` whole blocks has the chain hash the loops compute block by block. */
  lemma ChainOfPrefix(c: Config, tokens: seq<Token>, n: nat)
    requires n * c.blockSize <= |tokens|
    ensures 0 <= n * c.blockSize
    ensures Prefix(tokens, n * c.blockSize) == tokens[..n * c.blockSize]
    ensures |tokens[..n * c.blockSize]| / c.blockSize == n
    ensures ChainOf(c, tokens[..n * c.blockSize]) == Chain(c, tokens, n)
  {
    hide Chain;
    MulMono(0, n, c.blockSize);
    DivUnique(n * c.blockSize, n, c.blockSize);
    ChainPrefix(c, tokens[..n * c.blockSize], tokens, n);
  }

  // ---------------------------------------------------------------- framing

  /** Equal but for the ref count. */
  ghost predicate SameContent(a: Block, b: Block) {
    a.hashValid == b.hashValid && a.hash == b.hash && a.tokens == b.tokens
  }

  /** What a change of the blocks must leave alone for a sequence to keep its SeqBlocks. */
  ghost predicate Spared(blocks: seq<Block>, blocks': seq<Block>, s: SeqState, k: nat) {
    && |blocks'| == |blocks|
    && forall y: nat :: y < |s.table| && s.table[y] < |blocks| ==>
         if y < k then SameContent(blocks[s.table[y]], blocks'[s.table[y]]) else blocks[s.table[y]] == blocks'[s.table[y]]
  }

  lemma SeqBlocksFrame(c: Config, blocks: seq<Block>, blocks': seq<Block>, s: SeqState, k: nat)
    requires SeqBlocks(c, blocks, s, k) && Spared(blocks, blocks', s, k)
    ensures SeqBlocks(c, blocks', s, k)
  {
    forall j: nat | j < |s.table|
      ensures if j < k then HashedEntry(c, blocks', s, j) else OwnEntry(blocks', s, j)
    {
      assert if j < k then HashedEntry(c, blocks, s, j) else OwnEntry(blocks, s, j);
    }
  }

  /** The other sequences keep their blocks when sequence `i` changes and theirs are spared. */
  lemma TablesFrame(c: Config, blocks: seq<Block>, blocks': seq<Block>, seqs: seq<SeqState>, i: nat, k: nat, s: SeqState, k': nat)
    requires i < |seqs| && TablesOk(c, blocks, seqs, i, k)
    requires SeqBlocks(c, blocks', s, k')
    requires forall j: nat :: j < |seqs| && j != i ==> Spared(blocks, blocks', seqs[j], Bound(c, seqs, i, k, j))
    ensures TablesOk(c, blocks', seqs[i := s], i, k')
  {
    hide SeqBlocks, Spared;
    var seqs' := seqs[i := s];
    forall j: nat | j < |seqs'| ensures SeqBlocks(c, blocks', seqs'[j], Bound(c, seqs', i, k', j)) {
      if j != i {
        SeqBlocksFrame(c, blocks, blocks', seqs[j], Bound(c, seqs, i, k, j));
      }
    }
  }

  /** A change of one block spares every sequence that does not hold it. */
  lemma SparedElsewhere(blocks: seq<Block>, b: nat, block: Block, s: SeqState, k: nat)
    requires b < |blocks| && forall y: nat :: y < |s.table| ==> s.table[y] != b
    ensures Spared(blocks, blocks[b := block], s, k)
  {
  }

  /** A change of a ref count spares every sequence that holds the block only among its hashed ones. */
  lemma SparedContent(blocks: seq<Block>, b: nat, n: int, s: SeqState, k: nat)
    requires b < |blocks| && forall y: nat :: k <= y < |s.table| ==> s.table[y] != b
    ensures Spared(blocks, blocks[b := blocks[b].(refCount := n)], s, k)
  {
  }

  /** The sequence with one more block at the end of its table. */
  ghost function Push(s: SeqState, b: nat): SeqState {
    s.(table := s.table + [b])
  }

  ghost function Pop(s: SeqState): SeqState
    requires |s.table| > 0
  {
    s.(table := s.table[..|s.table| - 1])
  }

  lemma PushOcc(seqs: seq<SeqState>, i: nat, b: nat, x: nat)
    requires i < |seqs|
    ensures Occ(seqs[i := Push(seqs[i], b)], x) == Occ(seqs, x) + if x == b then 1 else 0
  {
    hide Occ;
    OccUpdate(seqs, i, Push(seqs[i], b), x);
  }

  lemma PopOcc(seqs: seq<SeqState>, i: nat, x: nat)
    requires i < |seqs| && |seqs[i].table| > 0
    ensures Occ(seqs[i := Pop(seqs[i])], x) == Occ(seqs, x) - if x == seqs[i].table[|seqs[i].table| - 1] then 1 else 0
  {
    hide Occ;
    var t := seqs[i].table;
    assert t == t[..|t| - 1] + [t[|t| - 1]];
    OccUpdate(seqs, i, Pop(seqs[i]), x);
  }

  lemma PushOwn(c: Config, blocks: seq<Block>, s: SeqState, k: nat, b: nat)
    requires SeqBlocks(c, blocks, s, k) && b < |blocks| && !blocks[b].hashValid && blocks[b].refCount == 1
    ensures SeqBlocks(c, blocks, Push(s, b), k)
  {
    var t := Push(s, b);
    forall j: nat | j < |t.table| ensures if j < k then HashedEntry(c, blocks, t, j) else OwnEntry(blocks, t, j) {
      if j < |s.table| {
        assert if j < k then HashedEntry(c, blocks, s, j) else OwnEntry(blocks, s, j);
      }
    }
  }

  lemma PushHashed(c: Config, blocks: seq<Block>, s: SeqState, k: nat, b: nat)
    requires SeqBlocks(c, blocks, s, k) && |s.table| == k && (k + 1) * c.blockSize <= |s.tokens|
    requires b < |blocks| && blocks[b].hashValid && blocks[b].tokens == BlockTokens(s.tokens, k, c.blockSize)
    requires blocks[b].hash == Chain(c, s.tokens, k + 1)
    ensures SeqBlocks(c, blocks, Push(s, b), k + 1)
  {
    hide Chain, BlockTokens;
    var t := Push(s, b);
    forall j: nat | j < |t.table| ensures HashedEntry(c, blocks, t, j) {
      if j < |s.table| {
        assert HashedEntry(c, blocks, s, j);
      }
    }
  }

  // ---------------------------------------------------------------- taking a free block

  lemma NotHeld(seqs: seq<SeqState>, b: nat)
    requires Occ(seqs, b) == 0
    ensures forall j: nat, y: nat :: j < |seqs| && y < |seqs[j].table| ==> seqs[j].table[y] != b
  {
    hide Occ;
    forall j: nat, y: nat | j < |seqs| && y < |seqs[j].table| ensures seqs[j].table[y] != b {
      OccZero(seqs, j, y, b);
    }
  }

  lemma TakeTables(c: Config, blocks: seq<Block>, seqs: seq<SeqState>, i: nat, k: nat, b: nat)
    requires TablesOk(c, blocks, seqs, i, k) && i < |seqs| && b < |blocks| && Occ(seqs, b) == 0
    ensures TablesOk(c, blocks[b := Block(1, false, 0, [])], seqs[i := Push(seqs[i], b)], i, k)
  {
    hide Occ, SeqBlocks, Spared;
    var blocks' := blocks[b := Block(1, false, 0, [])];
    NotHeld(seqs, b);
    forall j: nat | j < |seqs| ensures Spared(blocks, blocks', seqs[j], Bound(c, seqs, i, k, j)) {
      SparedElsewhere(blocks, b, Block(1, false, 0, []), seqs[j], Bound(c, seqs, i, k, j));
    }
    assert SeqBlocks(c, blocks, seqs[i], Bound(c, seqs, i, k, i));
    SeqBlocksFrame(c, blocks, blocks', seqs[i], k);
    PushOwn(c, blocks', seqs[i], k, b);
    TablesFrame(c, blocks, blocks', seqs, i, k, Push(seqs[i], b), k);
  }

  lemma PushCounts(blocks: seq<Block>, seqs: seq<SeqState>, i: nat, b: nat, block: Block)
    requires CountsOk(blocks, seqs) && i < |seqs| && b < |blocks| && block.refCount == blocks[b].refCount + 1
    ensures CountsOk(blocks[b := block], seqs[i := Push(seqs[i], b)])
  {
    hide Occ;
    var blocks' := blocks[b := block];
    forall x: nat | x < |blocks'| ensures blocks'[x].refCount == Occ(seqs[i := Push(seqs[i], b)], x) {
      PushOcc(seqs, i, b, x);
    }
  }

  lemma TakePool(c: Config, p: Pool)
    requires FreeOk(p) && IndexOk(p) && OriginsOk(c, p) && p.free != {}
    ensures InRange(p)
    ensures var (id, q) := TakeBlock(p);
      && id >= 0 && id in p.free && q.free == p.free - {id as nat}
      && q.hashed == p.hashed && q.origin == p.origin
      && id < |p.blocks| && q.blocks == p.blocks[id := Block(1, false, 0, [])]
      && FreeOk(q) && IndexOk(q) && OriginsOk(c, q)
  {
    hide OriginOk;
  }

  /** Taking a free block: it becomes an unhashed block of sequence `i` alone. */
  lemma TakeOk(c: Config, p: Pool, seqs: seq<SeqState>, i: nat, k: nat)
    requires BlocksOk(c, p, seqs, i, k) && i < |seqs| && p.free != {}
    ensures InRange(p)
    ensures var (id, q) := TakeBlock(p);
      && id >= 0 && id in p.free && q.free == p.free - {id as nat}
      && q.hashed == p.hashed && q.origin == p.origin
      && id < |p.blocks| && q.blocks == p.blocks[id := Block(1, false, 0, [])]
      && BlocksOk(c, q, seqs[i := Push(seqs[i], id)], i, k)
  {
    TakePool(c, p);
    var (id, q) := TakeBlock(p);
    hide TakeBlock, IndexOk, OriginsOk, Occ, TablesOk;
    assert p.blocks[id].refCount == 0;
    PushCounts(p.blocks, seqs, i, id, Block(1, false, 0, []));
    TakeTables(c, p.blocks, seqs, i, k, id);
  }

  // ---------------------------------------------------------------- sharing a cached block

  lemma SharePool(c: Config, p: Pool, b: nat, prefix: seq<Token>)
    requires FreeOk(p) && IndexOk(p) && OriginsOk(c, p) && b < |p.blocks| && p.blocks[b].refCount >= 0
    ensures var q := ShareBlock(p, b, prefix);
      && q.blocks == p.blocks[b := p.blocks[b].(refCount := p.blocks[b].refCount + 1)]
      && FreeOk(q) && IndexOk(q) && OriginsOk(c, q)
  {
    hide ChainOf, BlockTokens;
  }

  lemma ShareTables(c: Config, blocks: seq<Block>, seqs: seq<SeqState>, i: nat, k: nat, b: nat)
    requires TablesOk(c, blocks, seqs, i, k) && i < |seqs| && |seqs[i].table| == k && (k + 1) * c.blockSize <= |seqs[i].tokens|
    requires b < |blocks| && blocks[b].hashValid && blocks[b].tokens == BlockTokens(seqs[i].tokens, k, c.blockSize)
    requires blocks[b].hash == Chain(c, seqs[i].tokens, k + 1)
    ensures TablesOk(c, blocks[b := blocks[b].(refCount := blocks[b].refCount + 1)], seqs[i := Push(seqs[i], b)], i, k + 1)
  {
    hide Spared, Chain, BlockTokens;
    var n := blocks[b].refCount + 1;
    var blocks' := blocks[b := blocks[b].(refCount := n)];
    forall j: nat | j < |seqs| ensures Spared(blocks, blocks', seqs[j], Bound(c, seqs, i, k, j)) {
      HeldHashed(c, blocks, seqs[j], Bound(c, seqs, i, k, j), b);
      SparedContent(blocks, b, n, seqs[j], Bound(c, seqs, i, k, j));
    }
    hide SeqBlocks;
    assert SeqBlocks(c, blocks, seqs[i], Bound(c, seqs, i, k, i));
    SeqBlocksFrame(c, blocks, blocks', seqs[i], k);
    PushHashed(c, blocks', seqs[i], k, b);
    TablesFrame(c, blocks, blocks', seqs, i, k, Push(seqs[i], b), k + 1);
  }

  lemma HeldHashed(c: Config, blocks: seq<Block>, s: SeqState, k: nat, b: nat)
    requires SeqBlocks(c, blocks, s, k) && b < |blocks| && blocks[b].hashValid
    ensures forall y: nat :: k <= y < |s.table| ==> s.table[y] != b
  {
    forall y: nat | k <= y < |s.table| ensures s.table[y] != b {
      assert OwnEntry(blocks, s, y);
    }
  }

  /** The sequence after one round of the sharing loop. */
  ghost function Sharing(c: Config, p: Pool, s: SeqState, k: nat): SeqState
    requires Chain(c, s.tokens, k + 1) in p.index
  {
    Push(s, p.index[Chain(c, s.tokens, k + 1)])
  }

  /** The pool after one round of the sharing loop. */
  ghost function Shared(c: Config, p: Pool, s: SeqState, k: nat): Pool
    requires InRange(p) && Chain(c, s.tokens, k + 1) in p.index
  {
    ShareBlock(p, p.index[Chain(c, s.tokens, k + 1)], Prefix(s.tokens, (k + 1) * c.blockSize))
  }

  /** Sharing the cached block that matches block `k`: it becomes hashed block `k` of sequence `i`. */
  lemma ShareOk(c: Config, p: Pool, seqs: seq<SeqState>, i: nat, k: nat)
    requires BlocksOk(c, p, seqs, i, k) && i < |seqs| && |seqs[i].table| == k
    requires (k + 1) * c.blockSize <= |seqs[i].tokens|
    requires InRange(p) && Hit(c, p, seqs[i].tokens, k)
    ensures var b := p.index[Chain(c, seqs[i].tokens, k + 1)];
      var q := Shared(c, p, seqs[i], k);
      && q.blocks == p.blocks[b := p.blocks[b].(refCount := p.blocks[b].refCount + 1)]
      && BlocksOk(c, q, seqs[i := Sharing(c, p, seqs[i], k)], i, k + 1)
  {
    hide Chain, BlockTokens, TablesOk, Occ, OriginsOk;
    var b := p.index[Chain(c, seqs[i].tokens, k + 1)];
    SharePool(c, p, b, Prefix(seqs[i].tokens, (k + 1) * c.blockSize));
    hide ShareBlock, FreeOk;
    PushCounts(p.blocks, seqs, i, b, p.blocks[b].(refCount := p.blocks[b].refCount + 1));
    ShareTables(c, p.blocks, seqs, i, k, b);
  }

  // ---------------------------------------------------------------- giving a block back

  lemma ReleasePool(c: Config, p: Pool, b: nat)
    requires FreeOk(p) && IndexOk(p) && OriginsOk(c, p) && b < |p.blocks| && p.blocks[b].refCount >= 1
    ensures var q := ReleaseBlock(p, b);
      && q.blocks == p.blocks[b := p.blocks[b].(refCount := p.blocks[b].refCount - 1)]
      && FreeOk(q) && IndexOk(q) && OriginsOk(c, q)
  {
    hide ChainOf, BlockTokens;
  }

  lemma PopCounts(blocks: seq<Block>, seqs: seq<SeqState>, i: nat)
    requires CountsOk(blocks, seqs) && i < |seqs| && |seqs[i].table| > 0
    requires seqs[i].table[|seqs[i].table| - 1] < |blocks|
    ensures var b := seqs[i].table[|seqs[i].table| - 1];
      blocks[b].refCount >= 1 && CountsOk(blocks[b := blocks[b].(refCount := blocks[b].refCount - 1)], seqs[i := Pop(seqs[i])])
  {
    hide Occ;
    var b := seqs[i].table[|seqs[i].table| - 1];
    OccAtLeast(seqs, i, b);
    var blocks' := blocks[b := blocks[b].(refCount := blocks[b].refCount - 1)];
    forall x: nat | x < |blocks'| ensures blocks'[x].refCount == Occ(seqs[i := Pop(seqs[i])], x) {
      PopOcc(seqs, i, x);
    }
  }

  ghost function Cap(k: nat, n: nat): nat {
    if k < n then k else n
  }

  lemma PopBlocks(c: Config, blocks: seq<Block>, s: SeqState, k: nat)
    requires SeqBlocks(c, blocks, s, k) && |s.table| > 0
    ensures SeqBlocks(c, blocks, Pop(s), Cap(k, |s.table| - 1))
  {
    hide BlockTokens, Chain;
    var t := Pop(s);
    var k' := Cap(k, |s.table| - 1);
    MulMono(k', k, c.blockSize);
    forall j: nat | j < |t.table| ensures if j < k' then HashedEntry(c, blocks, t, j) else OwnEntry(blocks, t, j) {
      assert if j < k then HashedEntry(c, blocks, s, j) else OwnEntry(blocks, s, j);
    }
  }

  /** No other sequence holds the last block of sequence `i` among its own blocks. */
  lemma OwnApart(c: Config, blocks: seq<Block>, seqs: seq<SeqState>, i: nat, k: nat, j: nat)
    requires CountsOk(blocks, seqs) && TablesOk(c, blocks, seqs, i, k) && i < |seqs| && |seqs[i].table| > 0 && j < |seqs|
    ensures forall y: nat :: Bound(c, seqs, i, k, j) <= y < |seqs[j].table| && (j != i || y < |seqs[i].table| - 1) ==>
              seqs[j].table[y] != seqs[i].table[|seqs[i].table| - 1]
  {
    hide Occ;
    var b := seqs[i].table[|seqs[i].table| - 1];
    assert SeqBlocks(c, blocks, seqs[j], Bound(c, seqs, i, k, j));
    forall y: nat | Bound(c, seqs, i, k, j) <= y < |seqs[j].table| && (j != i || y < |seqs[i].table| - 1) ensures seqs[j].table[y] != b {
      assert OwnEntry(blocks, seqs[j], y);
      if seqs[j].table[y] == b {
        OccPlaces(seqs, j, y, i, |seqs[i].table| - 1);
      }
    }
  }

  lemma ReleaseTables(c: Config, blocks: seq<Block>, seqs: seq<SeqState>, i: nat, k: nat)
    requires CountsOk(blocks, seqs) && TablesOk(c, blocks, seqs, i, k) && i < |seqs| && |seqs[i].table| > 0
    requires seqs[i].table[|seqs[i].table| - 1] < |blocks|
    ensures var b := seqs[i].table[|seqs[i].table| - 1];
      TablesOk(c, blocks[b := blocks[b].(refCount := blocks[b].refCount - 1)], seqs[i := Pop(seqs[i])], i, Cap(k, |seqs[i].table| - 1))
  {
    hide Spared, CountsOk, SeqBlocks;
    var b := seqs[i].table[|seqs[i].table| - 1];
    var n := blocks[b].refCount - 1;
    var blocks' := blocks[b := blocks[b].(refCount := n)];
    forall j: nat | j < |seqs| && j != i ensures Spared(blocks, blocks', seqs[j], Bound(c, seqs, i, k, j)) {
      OwnApart(c, blocks, seqs, i, k, j);
      SparedContent(blocks, b, n, seqs[j], Bound(c, seqs, i, k, j));
    }
    var k' := Cap(k, |seqs[i].table| - 1);
    OwnApart(c, blocks, seqs, i, k, i);
    assert SeqBlocks(c, blocks, seqs[i], Bound(c, seqs, i, k, i));
    PopBlocks(c, blocks, seqs[i], k);
    SparedContent(blocks, b, n, Pop(seqs[i]), k');
    SeqBlocksFrame(c, blocks, blocks', Pop(seqs[i]), k');
    TablesFrame(c, blocks, blocks', seqs, i, k, Pop(seqs[i]), k');
  }

  lemma EntryInRange(c: Config, blocks: seq<Block>, s: SeqState, k: nat, j: nat)
    requires SeqBlocks(c, blocks, s, k) && j < |s.table|
    ensures s.table[j] < |blocks|
  {
    assert if j < k then HashedEntry(c, blocks, s, j) else OwnEntry(blocks, s, j);
  }

  /** Giving back the last block of sequence `i`. */
  lemma ReleaseOk(c: Config, p: Pool, seqs: seq<SeqState>, i: nat, k: nat)
    requires BlocksOk(c, p, seqs, i, k) && i < |seqs| && |seqs[i].table| > 0
    ensures var n := |seqs[i].table| - 1;
      && seqs[i].table[n] < |p.blocks|
      && BlocksOk(c, ReleaseBlock(p, seqs[i].table[n]), seqs[i := Pop(seqs[i])], i, Cap(k, n))
  {
    var n := |seqs[i].table| - 1;
    assert SeqBlocks(c, p.blocks, seqs[i], Bound(c, seqs, i, k, i));
    EntryInRange(c, p.blocks, seqs[i], k, n);
    hide TablesOk, SeqBlocks, Occ, OriginsOk, FreeOk, IndexOk, CountsOk;
    PopCounts(p.blocks, seqs, i);
    ReleasePool(c, p, seqs[i].table[n]);
    ReleaseTables(c, p.blocks, seqs, i, k);
  }

  // ---------------------------------------------------------------- hashing a block

  lemma HashPool(c: Config, p: Pool, b: nat, hash: Hash, tokens: seq<Token>, prefix: seq<Token>)
    requires FreeOk(p) && IndexOk(p) && OriginsOk(c, p) && b < |p.blocks| && !p.blocks[b].hashValid
    requires OriginOk(c, p.blocks[b].(hash := hash, tokens := tokens), prefix)
    ensures var q := HashBlock(p, b, hash, tokens, prefix);
      FreeOk(q) && IndexOk(q) && OriginsOk(c, q)
  {
    hide ChainOf, BlockTokens;
    var q := HashBlock(p, b, hash, tokens, prefix);
    assert OriginOk(c, q.blocks[b], prefix);
    hide OriginOk;
    forall x: nat | x < |q.blocks| && q.blocks[x].hashValid
      ensures x in q.origin && q.origin[x] in q.hashed && OriginOk(c, q.blocks[x], q.origin[x])
    {
    }
  }

  lemma HashedBlock(c: Config, blocks: seq<Block>, s: SeqState, k: nat)
    requires SeqBlocks(c, blocks, s, k) && k < |s.table| && (k + 1) * c.blockSize <= |s.tokens|
    requires forall y: nat :: y < |s.table| && y != k ==> s.table[y] != s.table[k]
    ensures s.table[k] < |blocks|
    ensures SeqBlocks(c, blocks[s.table[k] := blocks[s.table[k]].(hash := Chain(c, s.tokens, k + 1), hashValid := true,
                        tokens := BlockTokens(s.tokens, k, c.blockSize))], s, k + 1)
  {
    hide BlockTokens, Chain;
    assert OwnEntry(blocks, s, k);
    var b := s.table[k];
    var blocks' := blocks[b := blocks[b].(hash := Chain(c, s.tokens, k + 1), hashValid := true, tokens := BlockTokens(s.tokens, k, c.blockSize))];
    forall j: nat | j < |s.table| ensures if j < k + 1 then HashedEntry(c, blocks', s, j) else OwnEntry(blocks', s, j) {
      assert if j < k then HashedEntry(c, blocks, s, j) else OwnEntry(blocks, s, j);
    }
  }

  /** A block that a sequence owns occurs nowhere else. */
  lemma OwnAlone(c: Config, blocks: seq<Block>, seqs: seq<SeqState>, i: nat, k: nat, j: nat)
    requires CountsOk(blocks, seqs) && TablesOk(c, blocks, seqs, i, k) && i < |seqs| && k < |seqs[i].table| && j < |seqs|
    ensures seqs[i].table[k] < |blocks| && !blocks[seqs[i].table[k]].hashValid
    ensures forall y: nat :: y < |seqs[j].table| && (j != i || y != k) ==> seqs[j].table[y] != seqs[i].table[k]
  {
    hide Occ;
    assert SeqBlocks(c, blocks, seqs[i], Bound(c, seqs, i, k, i));
    assert OwnEntry(blocks, seqs[i], k);
    forall y: nat | y < |seqs[j].table| && (j != i || y != k) ensures seqs[j].table[y] != seqs[i].table[k] {
      if seqs[j].table[y] == seqs[i].table[k] {
        OccPlaces(seqs, i, k, j, y);
      }
    }
  }

  lemma HashTables(c: Config, blocks: seq<Block>, seqs: seq<SeqState>, i: nat, k: nat, b: nat, block: Block)
    requires CountsOk(blocks, seqs) && TablesOk(c, blocks, seqs, i, k) && i < |seqs| && k < |seqs[i].table|
    requires (k + 1) * c.blockSize <= |seqs[i].tokens| && b == seqs[i].table[k] && b < |blocks|
    requires block == blocks[b].(hash := Chain(c, seqs[i].tokens, k + 1), hashValid := true, tokens := BlockTokens(seqs[i].tokens, k, c.blockSize))
    ensures TablesOk(c, blocks[b := block], seqs, i, k + 1)
  {
    hide Spared, CountsOk, Chain, BlockTokens, SeqBlocks;
    forall j: nat | j < |seqs| && j != i ensures Spared(blocks, blocks[b := block], seqs[j], Bound(c, seqs, i, k, j)) {
      OwnAlone(c, blocks, seqs, i, k, j);
      SparedElsewhere(blocks, b, block, seqs[j], Bound(c, seqs, i, k, j));
    }
    OwnAlone(c, blocks, seqs, i, k, i);
    assert SeqBlocks(c, blocks, seqs[i], Bound(c, seqs, i, k, i));
    HashedBlock(c, blocks, seqs[i], k);
    TablesFrame(c, blocks, blocks[b := block], seqs, i, k, seqs[i], k + 1);
    assert seqs[i := seqs[i]] == seqs;
  }

  lemma SameCounts(blocks: seq<Block>, seqs: seq<SeqState>, b: nat, block: Block)
    requires CountsOk(blocks, seqs) && b < |blocks| && block.refCount == blocks[b].refCount
    ensures CountsOk(blocks[b := block], seqs)
  {
    hide Occ;
  }

  /** The prefix of `k + 1` whole blocks is what block `k`'s chain hash was computed from. */
  lemma OriginOfPrefix(c: Config, tokens: seq<Token>, k: nat, block: Block)
    requires (k + 1) * c.blockSize <= |tokens|
    requires block.hash == Chain(c, tokens, k + 1) && block.tokens == BlockTokens(tokens, k, c.blockSize)
    ensures OriginOk(c, block, Prefix(tokens, (k + 1) * c.blockSize))
  {
    hide Chain, ChainOf;
    var n := (k + 1) * c.blockSize;
    ChainOfPrefix(c, tokens, k + 1);
    MulMono(0, k, c.blockSize);
    assert n == k * c.blockSize + c.blockSize;
    assert tokens[..n][..n] == tokens[..n];
    BlockTokensOfPrefix(tokens, tokens[..n], k, c.blockSize);
  }

  /** Hashing block `k` of sequence `i`, the first one not hashed yet. */
  lemma HashOk(c: Config, p: Pool, seqs: seq<SeqState>, i: nat, k: nat)
    requires BlocksOk(c, p, seqs, i, k) && i < |seqs| && k < |seqs[i].table|
    requires (k + 1) * c.blockSize <= |seqs[i].tokens|
    ensures seqs[i].table[k] < |p.blocks|
    ensures BlocksOk(c, HashBlock(p, seqs[i].table[k], Chain(c, seqs[i].tokens, k + 1), BlockTokens(seqs[i].tokens, k, c.blockSize),
                                  Prefix(seqs[i].tokens, (k + 1) * c.blockSize)), seqs, i, k + 1)
  {
    hide TablesOk, Occ, OriginsOk, FreeOk, IndexOk, CountsOk, Chain, BlockTokens, Prefix, OriginOk;
    var s := seqs[i];
    var b := s.table[k];
    OwnAlone(c, p.blocks, seqs, i, k, i);
    var hash, tokens := Chain(c, s.tokens, k + 1), BlockTokens(s.tokens, k, c.blockSize);
    var block := p.blocks[b].(hash := hash, hashValid := true, tokens := tokens);
    OriginOfPrefix(c, s.tokens, k, p.blocks[b].(hash := hash, tokens := tokens));
    HashPool(c, p, b, hash, tokens, Prefix(s.tokens, (k + 1) * c.blockSize));
    SameCounts(p.blocks, seqs, b, block);
    HashTables(c, p.blocks, seqs, i, k, b, block);
  }
}
