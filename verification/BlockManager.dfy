/** The classes of engine/src/sequence.cpp and engine/src/block_manager.cpp. Every method is proved to
    leave exactly the state that the functions of BlockPool give. */
module BlockManagers {
  import opened Common
  import opened Counting
  import opened Blocks
  import opened Sequences
  import opened BlockPool

  class Sequence {
    const id: nat
    const promptSize: nat
    const blockSize: int
    const sampling: Sampling
    var tokens: seq<Token>
    var rng: Rng
    var status: SequenceStatus
    var table: seq<nat>
    var cached: nat
    var scheduled: nat
    var isPrefill: bool

    constructor (id: nat, prompt: seq<Token>, sampling: Sampling, blockSize: int)
      ensures V() == NewSequence(id, prompt, sampling) && this.blockSize == blockSize
    {
      this.id, this.promptSize, this.blockSize, this.sampling := id, |prompt|, blockSize, sampling;
      tokens, rng := prompt, Rng(if sampling.seed == 0 then id else sampling.seed, 0);
      status, table, cached, scheduled, isPrefill := Waiting, [], 0, 0, true;
    }

    /** The sequence as a value. */
    ghost function V(): SeqState
      reads this
    {
      SeqState(id, tokens, promptSize, sampling, rng, status, table, cached, scheduled, isPrefill)
    }

    method AppendToken(token: Token)
      modifies this`tokens
      ensures V() == old(V()).(tokens := old(tokens) + [token])
    {
      tokens := tokens + [token];
    }
  }

  class BlockManager {
    const c: Config
    var blocks: seq<Block>
    var free: set<nat>
    var index: map<Hash, nat>
    ghost var origin: map<nat, seq<Token>>
    ghost var hashed: set<seq<Token>>

    ghost function P(): Pool
      reads this
    {
      Pool(blocks, free, index, origin, hashed)
    }

    /** Every id the manager holds is that of a block. */
    ghost predicate Valid()
      reads this
    {
      InRange(P())
    }

    constructor (c: Config)
      ensures Valid() && P() == EmptyPool(c) && this.c == c
    {
      this.c := c;
      blocks := seq(c.numKvBlocks, i => Block(0, false, 0, []));
      free, index := {}, map[];
      origin, hashed := map[], {};
      new;
      var id := 0;
      while id < c.numKvBlocks
        invariant 0 <= id <= c.numKvBlocks && free == Ids(id) && P() == EmptyPool(c).(free := Ids(id))
      {
        free := free + {id};
        id := id + 1;
      }
    }

    /** How many leading blocks are cached, and whether the rest can be had. */
    method CanAllocate(s: Sequence) returns (fits: bool, cached: nat)
      requires Valid()
      ensures (fits, cached) == BlockPool.CanAllocate(c, P(), s.tokens)
    {
      cached := 0;
      var numBlocks: int := NumBlocks(|s.tokens|, c.blockSize);
      var newBlocks := numBlocks;
      var prefixHash: Hash := 0;
      var i := 0;
      while i + 1 < numBlocks
        invariant 0 <= i && cached == i && prefixHash == Chain(c, s.tokens, i)
        invariant BlockPool.CanAllocate(c, P(), s.tokens) == CanAllocateFrom(c, P(), s.tokens, i, newBlocks)
        decreases numBlocks - i
      {
        var tokens := BlockTokens(s.tokens, i, c.blockSize);
        if |tokens| != c.blockSize {
          break;
        }
        prefixHash := c.computeHash(tokens, prefixHash);
        if prefixHash !in index {
          break;
        }
        var block := blocks[index[prefixHash]];
        if !block.hashValid || block.tokens != tokens {
          break;
        }
        cached := cached + 1;
        if block.refCount > 0 {
          newBlocks := newBlocks - 1;
        }
        i := i + 1;
      }
      fits := |free| >= newBlocks;
    }

    method AllocateBlock() returns (id: int)
      requires Valid()
      modifies this
      ensures Valid() && (id, P()) == TakeBlock(old(P()))
    {
      if free == {} {
        return -1;
      }
      id := Least(free);
      free := free - {id};
      var block := blocks[id];
      if block.hashValid && block.hash in index && index[block.hash] == id {
        index := index - {block.hash};
      }
      blocks := blocks[id := Block(1, false, 0, [])];
    }

    method Allocate(s: Sequence, cached: int) returns (status: Status)
      requires Valid()
      modifies this, s`table, s`cached, s`scheduled
      ensures Valid() && (status, P(), s.V()) == BlockPool.Allocate(c, old(P()), old(s.V()), cached)
    {
      if s.table != [] {
        return Failure(AlreadyAllocated);
      }
      if cached < 0 || cached > NumBlocks(|s.tokens|, c.blockSize) {
        return Failure(CachedCountOutOfRange);
      }
      status := ShareCached(s, cached);
      if status.Failure? {
        return;
      }
      status := TakeRest(s, cached);
      if status.Failure? {
        return;
      }
      s.cached := cached * c.blockSize;
    }

    /** The first loop of allocate. */
    method ShareCached(s: Sequence, cached: nat) returns (status: Status)
      requires Valid() && cached <= NumBlocks(|s.tokens|, c.blockSize)
      modifies this, s`table
      ensures Valid() && (status, P(), s.V()) == ShareFrom(c, old(P()), old(s.V()), 0, cached)
    {
      var prefixHash: Hash := 0;
      var i := 0;
      while i < cached
        invariant i <= cached && prefixHash == Chain(c, s.tokens, i) && Valid() && s.tokens == old(s.tokens)
        invariant ShareFrom(c, old(P()), old(s.V()), 0, cached) == ShareFrom(c, P(), s.V(), i, cached)
      {
        var tokens := BlockTokens(s.tokens, i, c.blockSize);
        prefixHash := c.computeHash(tokens, prefixHash);
        if prefixHash !in index {
          return Failure(PrefixBlockDisappeared);
        }
        var id := index[prefixHash];
        if !blocks[id].hashValid || blocks[id].tokens != tokens {
          return Failure(PrefixHashCollided);
        }
        if blocks[id].refCount == 0 {
          if id !in free {
            return Failure(FreeListBroken);
          }
          free := free - {id};
          blocks := blocks[id := blocks[id].(refCount := 1)];
        } else {
          blocks := blocks[id := blocks[id].(refCount := blocks[id].refCount + 1)];
        }
        hashed := hashed + {Prefix(s.tokens, (i + 1) * c.blockSize)};
        s.table := s.table + [id];
        i := i + 1;
      }
      return Success;
    }

    /** The second loop of allocate. */
    method TakeRest(s: Sequence, cached: nat) returns (status: Status)
      requires Valid() && TableInRange(P(), s.table)
      modifies this, s`table, s`cached, s`scheduled
      ensures Valid() && (status, P(), s.V()) == TakeFrom(c, old(P()), old(s.V()), cached)
    {
      var i := cached;
      while i < NumBlocks(|s.tokens|, c.blockSize)
        invariant Valid() && TableInRange(P(), s.table) && s.tokens == old(s.tokens)
        invariant TakeFrom(c, old(P()), old(s.V()), cached) == TakeFrom(c, P(), s.V(), i)
      {
        var id := AllocateBlock();
        if id < 0 {
          Deallocate(s);
          return Failure(PoolRanOut);
        }
        s.table := s.table + [id];
        i := i + 1;
      }
      return Success;
    }

    method ReleaseBlock(b: nat)
      requires Valid() && b < |blocks|
      modifies this
      ensures Valid() && P() == BlockPool.ReleaseBlock(old(P()), b)
    {
      if blocks[b].refCount <= 0 {
        return;
      }
      blocks := blocks[b := blocks[b].(refCount := blocks[b].refCount - 1)];
      if blocks[b].refCount == 0 {
        free := free + {b};
      }
    }

    method Deallocate(s: Sequence)
      requires Valid() && TableInRange(P(), s.table)
      modifies this, s`table, s`cached, s`scheduled
      ensures Valid() && (P(), s.V()) == BlockPool.Deallocate(old(P()), old(s.V()))
    {
      var i := |s.table|;
      assert s.table[..i] == s.table;
      while i > 0
        invariant 0 <= i <= |s.table| && Valid() && s.V() == old(s.V())
        invariant TableInRange(P(), s.table[..i]) && |blocks| == |old(blocks)|
        invariant ReleaseAll(old(P()), s.table) == ReleaseAll(P(), s.table[..i])
      {
        i := i - 1;
        assert s.table[..i + 1][..i] == s.table[..i];
        ReleaseBlock(s.table[i]);
      }
      s.table, s.cached, s.scheduled := [], 0, 0;
    }

    method CanAppend(s: Sequence) returns (can: bool)
      ensures can == BlockPool.CanAppend(c, P(), s.V()) && (can ==> |s.tokens| > 0)
    {
      if |s.tokens| == 0 {
        return false;
      }
      var position := |s.tokens| - 1;
      var blockIndex := position / c.blockSize;
      return blockIndex < |s.table| || free != {};
    }

    method MayAppend(s: Sequence) returns (status: Status)
      requires Valid()
      modifies this, s`table
      ensures Valid() && (status, P(), s.V()) == BlockPool.MayAppend(c, old(P()), old(s.V()))
    {
      if |s.tokens| == 0 {
        return Failure(EmptySequence);
      }
      var position := |s.tokens| - 1;
      var blockIndex := position / c.blockSize;
      if blockIndex < |s.table| {
        return Success;
      }
      var id := AllocateBlock();
      if id < 0 {
        return Failure(NoBlockForNextToken);
      }
      s.table := s.table + [id];
      return Success;
    }

    method HashBlocks(s: Sequence) returns (status: Status)
      requires Valid() && TableInRange(P(), s.table)
      modifies this
      ensures Valid() && (status, P()) == BlockPool.HashBlocks(c, old(P()), s.V())
    {
      DivBounds(s.cached, c.blockSize);
      DivBounds(s.cached + s.scheduled, c.blockSize);
      var start := s.cached / c.blockSize;
      var end := (s.cached + s.scheduled) / c.blockSize;
      assert BlockPool.HashBlocks(c, P(), s.V()) ==
        if start >= end then (Success, P())
        else if end > |s.table| then (Failure(TableTooShort), P())
        else if start > 0 && !blocks[s.table[start - 1]].hashValid then (Failure(PrefixNotComplete), P())
        else HashFrom(c, P(), s.V(), start, end, if start > 0 then blocks[s.table[start - 1]].hash else 0);
      hide BlockPool.HashBlocks, HashFrom;
      if start >= end {
        return Success;
      }
      if end > |s.table| {
        return Failure(TableTooShort);
      }
      var prefixHash: Hash := 0;
      if start > 0 {
        var previous := blocks[s.table[start - 1]];
        if !previous.hashValid {
          return Failure(PrefixNotComplete);
        }
        prefixHash := previous.hash;
      }
      status := HashFull(s, start, end, prefixHash);
    }

    /** The loop of hash_blocks. */
    method HashFull(s: Sequence, start: nat, end: nat, firstHash: Hash) returns (status: Status)
      requires Valid() && TableInRange(P(), s.table) && start <= end <= |s.table|
      modifies this
      ensures Valid() && (status, P()) == HashFrom(c, old(P()), s.V(), start, end, firstHash)
    {
      var prefixHash := firstHash;
      var i := start;
      while i < end
        invariant start <= i <= end && Valid() && TableInRange(P(), s.table)
        invariant HashFrom(c, old(P()), s.V(), start, end, firstHash) == HashFrom(c, P(), s.V(), i, end, prefixHash)
      {
        var id := s.table[i];
        var tokens := BlockTokens(s.tokens, i, c.blockSize);
        if |tokens| != c.blockSize {
          return Failure(PartialBlock);
        }
        var hash := c.computeHash(tokens, prefixHash);
        blocks := blocks[id := blocks[id].(hash := hash, hashValid := true, tokens := tokens)];
        index := index[hash := id];
        origin := origin[id := Prefix(s.tokens, (i + 1) * c.blockSize)];
        hashed := hashed + {Prefix(s.tokens, (i + 1) * c.blockSize)};
        prefixHash := hash;
        i := i + 1;
      }
      return Success;
    }
  }
}
