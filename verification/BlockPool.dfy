/** The block pool as a value, and the operations of engine/src/block_manager.cpp as functions on it.
    The class in BlockManager.dfy is proved to compute these functions. */
module BlockPool {
  import opened Common
  import opened Counting
  import opened Blocks
  import opened Sequences

  /** A block's id is its index in the pool. */
  datatype Block = Block(refCount: int, hashValid: bool, hash: Hash, tokens: seq<Token>)

  /** `origin` and `hashed` are history: the prefix each block was hashed for, and every prefix
      whose chain hash was stored or matched so far. No operation reads them. */
  datatype Pool = Pool(
    blocks: seq<Block>,
    free: set<nat>,
    index: map<Hash, nat>,
    origin: map<nat, seq<Token>>,
    hashed: set<seq<Token>>)

  function EmptyPool(c: Config): Pool {
    Pool(seq(c.numKvBlocks, i => Block(0, false, 0, [])), Ids(c.numKvBlocks), map[], map[], {})
  }

  /** The chain hash of the first `count` blocks. */
  function Chain(c: Config, tokens: seq<Token>, count: nat): Hash {
    if count == 0 then 0
    else c.computeHash(BlockTokens(tokens, count - 1, c.blockSize), Chain(c, tokens, count - 1))
  }

  predicate InRange(p: Pool) {
    && (forall b :: b in p.free ==> b < |p.blocks|)
    && (forall h :: h in p.index ==> p.index[h] < |p.blocks|)
  }

  predicate TableInRange(p: Pool, table: seq<nat>) {
    forall j :: 0 <= j < |table| ==> table[j] < |p.blocks|
  }

  /** Does block `i` of the sequence match a block of the hash index? */
  predicate Hit(c: Config, p: Pool, tokens: seq<Token>, i: nat)
    requires InRange(p)
  {
    var h := Chain(c, tokens, i + 1);
    && h in p.index
    && p.blocks[p.index[h]].hashValid
    && p.blocks[p.index[h]].tokens == BlockTokens(tokens, i, c.blockSize)
  }

  /** The number of blocks can_allocate accepts, continuing from block `i`. */
  function CachedRun(c: Config, p: Pool, tokens: seq<Token>, i: nat): nat
    requires InRange(p)
    decreases NumBlocks(|tokens|, c.blockSize) - i
  {
    if i + 1 < NumBlocks(|tokens|, c.blockSize) && |BlockTokens(tokens, i, c.blockSize)| == c.blockSize && Hit(c, p, tokens, i)
    then CachedRun(c, p, tokens, i + 1)
    else i
  }

  /** How many of the first `n` matched blocks are in use by some sequence. */
  function InUse(c: Config, p: Pool, tokens: seq<Token>, n: nat): nat
    requires InRange(p)
    requires forall i: nat :: i < n ==> Hit(c, p, tokens, i)
  {
    if n == 0 then 0
    else assert Hit(c, p, tokens, n - 1); InUse(c, p, tokens, n - 1) + if p.blocks[p.index[Chain(c, tokens, n)]].refCount > 0 then 1 else 0
  }

  /** BlockManager::can_allocate, the accumulator loop from block `i` on. */
  function CanAllocateFrom(c: Config, p: Pool, tokens: seq<Token>, i: nat, newBlocks: int): (bool, nat)
    requires InRange(p)
    decreases NumBlocks(|tokens|, c.blockSize) - i
  {
    if i + 1 < NumBlocks(|tokens|, c.blockSize) && |BlockTokens(tokens, i, c.blockSize)| == c.blockSize && Hit(c, p, tokens, i)
    then CanAllocateFrom(c, p, tokens, i + 1,
                         if p.blocks[p.index[Chain(c, tokens, i + 1)]].refCount > 0 then newBlocks - 1 else newBlocks)
    else (|p.free| >= newBlocks, i)
  }

  function CanAllocate(c: Config, p: Pool, tokens: seq<Token>): (bool, nat)
    requires InRange(p)
  {
    CanAllocateFrom(c, p, tokens, 0, NumBlocks(|tokens|, c.blockSize))
  }

  lemma LeastOfBoth(s: set<nat>, y: nat, m: nat)
    requires y in s && m in s && forall x :: x in s - {y} ==> m <= x
    ensures exists r :: r in s && forall x :: x in s ==> r <= x
  {
    var r := if y < m then y else m;
    forall x | x in s ensures r <= x {
      assert x == y || x in s - {y};
    }
    assert r in s;
  }

  lemma MinExists(s: set<nat>)
    requires s != {}
    ensures exists m :: m in s && forall x :: x in s ==> m <= x
  {
    var y :| y in s;
    var rest := s - {y};
    if rest == {} {
      assert forall x :: x in s ==> x == y || x in rest;
      assert forall x :: x in s ==> y <= x;
    } else {
      MinExists(rest);
      var m :| m in rest && forall x :: x in rest ==> m <= x;
      LeastOfBoth(s, y, m);
    }
  }

  /** std::set::begin: the least free id. */
  function Least(s: set<nat>): (m: nat)
    requires s != {}
    ensures m in s && forall x :: x in s ==> m <= x
  {
    MinExists(s);
    var m :| m in s && forall x :: x in s ==> m <= x;
    m
  }

  /** BlockManager::allocate_block: -1 when no block is free. The stale index entry goes only if
      it still points at this block. */
  function TakeBlock(p: Pool): (r: (int, Pool))
    requires InRange(p)
  {
    if p.free == {} then (-1, p) else
      var id: int := Least(p.free);
      var block := p.blocks[id];
      var stale := block.hashValid && block.hash in p.index && p.index[block.hash] == id;
      (id, p.(free := p.free - {id},
              index := if stale then p.index - {block.hash} else p.index,
              blocks := p.blocks[id := Block(1, false, 0, [])]))
  }

  /** One round of allocate's first loop, which shares the cached block of position `i`. */
  function ShareBlock(p: Pool, b: nat, prefix: seq<Token>): Pool
    requires b < |p.blocks|
  {
    var block := p.blocks[b];
    p.(free := if block.refCount == 0 then p.free - {b} else p.free,
       blocks := p.blocks[b := block.(refCount := if block.refCount == 0 then 1 else block.refCount + 1)],
       hashed := p.hashed + {prefix})
  }

  /** The first loop of BlockManager::allocate. */
  function ShareFrom(c: Config, p: Pool, s: SeqState, i: nat, cached: nat): (r: (Status, Pool, SeqState))
    requires InRange(p) && i <= cached <= NumBlocks(|s.tokens|, c.blockSize)
    ensures InRange(r.1) && |r.1.blocks| == |p.blocks| && (TableInRange(p, s.table) ==> TableInRange(r.1, r.2.table))
    decreases cached - i
  {
    if i == cached then (Success, p, s) else
      var h := Chain(c, s.tokens, i + 1);
      if h !in p.index then (Failure(PrefixBlockDisappeared), p, s) else
      var b := p.index[h];
      if !p.blocks[b].hashValid || p.blocks[b].tokens != BlockTokens(s.tokens, i, c.blockSize)
      then (Failure(PrefixHashCollided), p, s)
      else if p.blocks[b].refCount == 0 && b !in p.free then (Failure(FreeListBroken), p, s)
      else ShareFrom(c, ShareBlock(p, b, Prefix(s.tokens, (i + 1) * c.blockSize)), s.(table := s.table + [b]), i + 1, cached)
  }

  function Prefix(tokens: seq<Token>, n: int): seq<Token> {
    if 0 <= n <= |tokens| then tokens[..n] else tokens
  }

  /** The second loop of BlockManager::allocate; a pool that runs out gives everything back. */
  function TakeFrom(c: Config, p: Pool, s: SeqState, i: nat): (r: (Status, Pool, SeqState))
    requires InRange(p) && TableInRange(p, s.table)
    ensures InRange(r.1) && |r.1.blocks| == |p.blocks| && TableInRange(r.1, r.2.table)
    decreases NumBlocks(|s.tokens|, c.blockSize) - i
  {
    if i >= NumBlocks(|s.tokens|, c.blockSize) then (Success, p, s) else
      var (id, p') := TakeBlock(p);
      if id < 0 then
        var (q, t) := Deallocate(p', s);
        (Failure(PoolRanOut), q, t)
      else TakeFrom(c, p', s.(table := s.table + [id]), i + 1)
  }

  /** BlockManager::release_block. */
  function ReleaseBlock(p: Pool, b: nat): (q: Pool)
    requires b < |p.blocks|
    ensures |q.blocks| == |p.blocks| && (InRange(p) ==> InRange(q))
  {
    var block := p.blocks[b];
    if block.refCount <= 0 then p else
      p.(blocks := p.blocks[b := block.(refCount := block.refCount - 1)],
         free := if block.refCount == 1 then p.free + {b} else p.free)
  }

  /** The loop of BlockManager::deallocate, last block first. */
  function ReleaseAll(p: Pool, table: seq<nat>): (q: Pool)
    requires TableInRange(p, table)
    ensures |q.blocks| == |p.blocks| && (InRange(p) ==> InRange(q))
    decreases |table|
  {
    if table == [] then p
    else ReleaseAll(ReleaseBlock(p, table[|table| - 1]), table[..|table| - 1])
  }

  function Deallocate(p: Pool, s: SeqState): (r: (Pool, SeqState))
    requires TableInRange(p, s.table)
    ensures |r.0.blocks| == |p.blocks| && (InRange(p) ==> InRange(r.0)) && r.1.table == []
  {
    (ReleaseAll(p, s.table), s.(table := [], cached := 0, scheduled := 0))
  }

  /** BlockManager::allocate. */
  function Allocate(c: Config, p: Pool, s: SeqState, cached: int): (r: (Status, Pool, SeqState))
    requires InRange(p)
    ensures InRange(r.1) && |r.1.blocks| == |p.blocks| && (TableInRange(p, s.table) ==> TableInRange(r.1, r.2.table))
  {
    if s.table != [] then (Failure(AlreadyAllocated), p, s)
    else if cached < 0 || cached > NumBlocks(|s.tokens|, c.blockSize) then (Failure(CachedCountOutOfRange), p, s)
    else
      var (status, p', s') := ShareFrom(c, p, s, 0, cached);
      if status.Failure? then (status, p', s') else Completed(c, TakeFrom(c, p', s', cached), cached)
  }

  /** The end of allocate: the shared blocks count as computed, if all the others could be had. */
  function Completed(c: Config, r: (Status, Pool, SeqState), cached: nat): (Status, Pool, SeqState) {
    if r.0.Failure? then r else (Success, r.1, r.2.(cached := Positions(cached, c.blockSize)))
  }

  /** BlockManager::can_append. */
  predicate CanAppend(c: Config, p: Pool, s: SeqState) {
    |s.tokens| > 0 && ((|s.tokens| - 1) / c.blockSize < |s.table| || p.free != {})
  }

  /** BlockManager::may_append. */
  function MayAppend(c: Config, p: Pool, s: SeqState): (r: (Status, Pool, SeqState))
    requires InRange(p)
    ensures InRange(r.1) && |r.1.blocks| == |p.blocks| && (TableInRange(p, s.table) ==> TableInRange(r.1, r.2.table))
  {
    if |s.tokens| == 0 then (Failure(EmptySequence), p, s)
    else if (|s.tokens| - 1) / c.blockSize < |s.table| then (Success, p, s)
    else
      var (id, p') := TakeBlock(p);
      if id < 0 then (Failure(NoBlockForNextToken), p', s)
      else (Success, p', s.(table := s.table + [id]))
  }

  /** One round of the loop of BlockManager::hash_blocks. */
  function HashBlock(p: Pool, b: nat, hash: Hash, tokens: seq<Token>, prefix: seq<Token>): (q: Pool)
    requires b < |p.blocks|
  {
    p.(blocks := p.blocks[b := p.blocks[b].(hash := hash, hashValid := true, tokens := tokens)],
       index := p.index[hash := b],
       origin := p.origin[b := prefix],
       hashed := p.hashed + {prefix})
  }

  function HashFrom(c: Config, p: Pool, s: SeqState, i: nat, end: nat, prefixHash: Hash): (r: (Status, Pool))
    requires i <= end <= |s.table| && TableInRange(p, s.table)
    ensures |r.1.blocks| == |p.blocks| && (InRange(p) ==> InRange(r.1))
    decreases end - i
  {
    if i == end then (Success, p) else
      var tokens := BlockTokens(s.tokens, i, c.blockSize);
      if |tokens| != c.blockSize then (Failure(PartialBlock), p) else
        var hash := c.computeHash(tokens, prefixHash);
        HashFrom(c, HashBlock(p, s.table[i], hash, tokens, Prefix(s.tokens, (i + 1) * c.blockSize)), s, i + 1, end, hash)
  }

  /** BlockManager::hash_blocks. */
  function HashBlocks(c: Config, p: Pool, s: SeqState): (r: (Status, Pool))
    requires TableInRange(p, s.table)
    ensures |r.1.blocks| == |p.blocks| && (InRange(p) ==> InRange(r.1))
  {
    var start := s.cached / c.blockSize;
    var end := (s.cached + s.scheduled) / c.blockSize;
    if start >= end then (Success, p)
    else if end > |s.table| then (Failure(TableTooShort), p)
    else if start > 0 && !p.blocks[s.table[start - 1]].hashValid then (Failure(PrefixNotComplete), p)
    else HashFrom(c, p, s, start, end, if start > 0 then p.blocks[s.table[start - 1]].hash else 0)
  }
}
