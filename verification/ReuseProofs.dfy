/** What the prefix cache is for: chain hashes tell prefixes apart if the hash does, the index loses nothing but
    what is overwritten, and a prefix that has been hashed is found again. */
module ReuseProofs {
  import opened Common
  import opened Blocks
  import opened Sequences
  import opened BlockPool
  import opened BlockInvariants
  import opened PrefixCache
  import opened AllocationProofs

  // ---------------------------------------------------------------- blocks of a text

  /** The first `n` blocks of a text, one after the other. */
  function Joined(tokens: seq<Token>, n: nat, size: int): seq<Token>
    requires size > 0
  {
    if n == 0 then [] else Joined(tokens, n - 1, size) + BlockTokens(tokens, n - 1, size)
  }

  lemma {:induction false} JoinedPrefix(tokens: seq<Token>, n: nat, size: int)
    requires size > 0 && 0 <= n * size
    ensures Joined(tokens, n, size) == tokens[..if n * size < |tokens| then n * size else |tokens|]
    decreases n
  {
    if n > 0 {
      MulMonoStrict(n - 1, n, size);
      MulMono(0, n - 1, size);
      JoinedPrefix(tokens, n - 1, size);
      var begin: nat := (n - 1) * size;
      assert begin + size == n * size;
      BlockIs(tokens, begin, n - 1, size);
      hide BlockTokens;
      OneMoreBlock(tokens, begin, size);
    }
  }

  lemma OneMoreBlock(tokens: seq<Token>, begin: nat, size: int)
    requires size > 0
    ensures tokens[..if begin < |tokens| then begin else |tokens|]
          + (if begin >= |tokens| then [] else tokens[begin..if begin + size < |tokens| then begin + size else |tokens|])
         == tokens[..if begin + size < |tokens| then begin + size else |tokens|]
  {
  }

  lemma BlockIs(tokens: seq<Token>, begin: nat, index: nat, size: int)
    requires size > 0 && begin == index * size
    ensures BlockTokens(tokens, index, size) ==
      if begin >= |tokens| then [] else tokens[begin..if begin + size < |tokens| then begin + size else |tokens|]
  {
  }

  /** The blocks of a text are the text, cut up. */
  lemma BlocksJoin(tokens: seq<Token>, size: int)
    requires size > 0
    ensures Joined(tokens, NumBlocks(|tokens|, size), size) == tokens
  {
    NumBlocksBounds(|tokens|, size);
    JoinedPrefix(tokens, NumBlocks(|tokens|, size), size);
  }

  // ---------------------------------------------------------------- chain hashes

  /** The hash tells blocks and prefixes apart, and never gives the value that stands for no prefix. */
  ghost predicate TellsApart(h: (seq<Token>, Hash) -> Hash) {
    && (forall a: seq<Token>, x: Hash, b: seq<Token>, y: Hash :: h(a, x) == h(b, y) ==> a == b && x == y)
    && forall a: seq<Token>, x: Hash :: h(a, x) != 0
  }

  lemma {:induction false} ChainsTellApart(c: Config, a: seq<Token>, m: nat, b: seq<Token>, n: nat)
    requires TellsApart(c.computeHash) && m * c.blockSize <= |a| && n * c.blockSize <= |b|
    requires Chain(c, a, m) == Chain(c, b, n)
    ensures m == n && 0 <= m * c.blockSize && a[..m * c.blockSize] == b[..n * c.blockSize]
    decreases m
  {
    MulMono(0, m, c.blockSize);
    if m > 0 && n > 0 {
      MulMonoStrict(m - 1, m, c.blockSize);
      MulMonoStrict(n - 1, n, c.blockSize);
      MulMono(0, m - 1, c.blockSize);
      assert c.computeHash(BlockTokens(a, m - 1, c.blockSize), Chain(c, a, m - 1)) == c.computeHash(BlockTokens(b, n - 1, c.blockSize), Chain(c, b, n - 1));
      ChainsTellApart(c, a, m - 1, b, n - 1);
      assert (m - 1) * c.blockSize + c.blockSize == m * c.blockSize;
      FullBlock(a, m - 1, c.blockSize);
      FullBlock(b, m - 1, c.blockSize);
      var k := (m - 1) * c.blockSize;
      assert a[..k + c.blockSize] == a[..k] + a[k..k + c.blockSize] && b[..k + c.blockSize] == b[..k] + b[k..k + c.blockSize];
    }
  }

  /** Then no two different prefixes of whole blocks collide, whatever was hashed. */
  lemma NeverCollide(c: Config, hashed: set<seq<Token>>)
    requires TellsApart(c.computeHash)
    requires forall p :: p in hashed ==> |p| / c.blockSize * c.blockSize == |p|
    ensures NoCollision(c, hashed)
  {
    hide TellsApart;
    forall a, b | a in hashed && b in hashed && ChainOf(c, a) == ChainOf(c, b) ensures a == b {
      DivBounds(|a|, c.blockSize);
      DivBounds(|b|, c.blockSize);
      ChainsTellApart(c, a, |a| / c.blockSize, b, |b| / c.blockSize);
      assert a[..|a|] == a && b[..|b|] == b;
    }
  }

  // ---------------------------------------------------------------- the index

  /** Taking a block takes the least free one, and the index loses the entries that point to it and no
      other. */
  lemma TakeKeeps(p: Pool)
    requires InRange(p) && IndexOk(p) && p.free != {}
    ensures var (id, q) := TakeBlock(p);
      && id in p.free && (forall b :: b in p.free ==> id <= b) && q.free == p.free - {id}
      && |q.blocks| == |p.blocks| && q.blocks[id].refCount == 1 && !q.blocks[id].hashValid
      && (forall b: nat :: b < |p.blocks| && b != id ==> q.blocks[b] == p.blocks[b])
      && q.index == map h | h in p.index && p.index[h] != id :: p.index[h]
  {
    var (id, q) := TakeBlock(p);
    forall h | h in p.index ensures p.index[h] == id <==> (p.blocks[id].hashValid && p.blocks[id].hash == h && p.index[h] == id) {
    }
  }

  /** Giving a block back touches neither the index nor what blocks hold. */
  lemma ReleaseKeeps(p: Pool, b: nat)
    requires b < |p.blocks|
    ensures var q := ReleaseBlock(p, b);
      && q.index == p.index && |q.blocks| == |p.blocks|
      && forall x: nat :: x < |p.blocks| ==> q.blocks[x] == p.blocks[x].(refCount := q.blocks[x].refCount)
  {
  }

  // ---------------------------------------------------------------- reuse

  /** Block `j` of the text is in the index, in the block that the table names. */
  ghost predicate Indexed(c: Config, p: Pool, s: SeqState, j: nat)
    requires j < |s.table|
  {
    && s.table[j] < |p.blocks|
    && Chain(c, s.tokens, j + 1) in p.index && p.index[Chain(c, s.tokens, j + 1)] == s.table[j]
    && p.blocks[s.table[j]].hashValid && p.blocks[s.table[j]].tokens == BlockTokens(s.tokens, j, c.blockSize)
  }

  ghost predicate TableDistinct(table: seq<nat>) {
    forall a: nat, b: nat :: a < b < |table| ==> table[a] != table[b]
  }

  lemma IndexedStep(c: Config, p: Pool, s: SeqState, k: nat, j: nat, end: nat)
    requires TableInRange(p, s.table) && TableDistinct(s.table) && DistinctChain(c, s.tokens, end) && j <= k < end <= |s.table|
    requires j < k ==> Indexed(c, p, s, j)
    ensures TableInRange(Hashing(c, p, s, k), s.table) && Indexed(c, Hashing(c, p, s, k), s, j)
  {
    hide Chain, BlockTokens;
    if j < k {
      assert s.table[j] != s.table[k];
      assert Chain(c, s.tokens, j + 1) != Chain(c, s.tokens, k + 1);
    }
  }

  lemma {:induction false} HashingIndexes(c: Config, p: Pool, s: SeqState, k: nat, end: nat)
    requires TableInRange(p, s.table) && TableDistinct(s.table) && DistinctChain(c, s.tokens, end)
    requires k <= end <= |s.table| && end * c.blockSize <= |s.tokens|
    requires forall j: nat :: j < k ==> Indexed(c, p, s, j)
    ensures var (status, q) := HashFrom(c, p, s, k, end, Chain(c, s.tokens, k));
      status == Success && forall j: nat :: j < end ==> Indexed(c, q, s, j)
    decreases end - k
  {
    hide Indexed, Chain, DistinctChain, TableDistinct;
    if k < end {
      MulMono(k + 1, end, c.blockSize);
      HashUnroll(c, p, s, k, end);
      forall j: nat | j <= k ensures TableInRange(Hashing(c, p, s, k), s.table) && Indexed(c, Hashing(c, p, s, k), s, j) {
        IndexedStep(c, p, s, k, j, end);
      }
      hide Hashing, HashFrom, TableInRange;
      HashingIndexes(c, Hashing(c, p, s, k), s, k + 1, end);
    }
  }

  /** An indexed block is a hit for every text that agrees so far. */
  lemma IndexedHits(c: Config, p: Pool, s: SeqState, tokens: seq<Token>, j: nat)
    requires InRange(p) && j < |s.table| && Indexed(c, p, s, j)
    requires 0 <= (j + 1) * c.blockSize <= |s.tokens| && (j + 1) * c.blockSize <= |tokens|
    requires tokens[..(j + 1) * c.blockSize] == s.tokens[..(j + 1) * c.blockSize]
    ensures Hit(c, p, tokens, j)
  {
    hide Chain, BlockTokens;
    var n := (j + 1) * c.blockSize;
    assert j * c.blockSize + c.blockSize == n;
    MulMono(0, j, c.blockSize);
    BlockTokensOfPrefix(s.tokens, tokens, j, c.blockSize);
    SameChain(c, s.tokens, tokens, j + 1);
  }

  lemma {:induction false} SameChain(c: Config, a: seq<Token>, b: seq<Token>, n: nat)
    requires 0 <= n * c.blockSize <= |a| && n * c.blockSize <= |b| && a[..n * c.blockSize] == b[..n * c.blockSize]
    ensures Chain(c, a, n) == Chain(c, b, n)
    decreases n
  {
    if n > 0 {
      MulMonoStrict(n - 1, n, c.blockSize);
      MulMono(0, n - 1, c.blockSize);
      var k := (n - 1) * c.blockSize;
      assert k + c.blockSize == n * c.blockSize;
      assert a[..k] == a[..n * c.blockSize][..k] && b[..k] == b[..n * c.blockSize][..k];
      SameChain(c, a, b, n - 1);
      BlockTokensOfPrefix(a, b, n - 1, c.blockSize);
    }
  }

  /** Prefixes are shared: once a sequence has computed its first blocks, can_allocate finds all of them for
      every text that starts alike, its last block excepted. */
  lemma PrefixFound(c: Config, p: Pool, s: SeqState, tokens: seq<Token>, end: nat)
    requires InRange(p) && TableInRange(p, s.table) && TableDistinct(s.table) && s.cached == 0
    requires end == s.scheduled / c.blockSize && end <= |s.table| && end * c.blockSize <= |s.tokens| && DistinctChain(c, s.tokens, end)
    requires 0 <= end * c.blockSize <= |tokens| && tokens[..end * c.blockSize] == s.tokens[..end * c.blockSize]
    ensures var (status, q) := HashBlocks(c, p, s);
      && status == Success && InRange(q)
      && var run := CanAllocate(c, q, tokens).1;
         run >= end || run + 1 >= NumBlocks(|tokens|, c.blockSize)
  {
    DivUnique(0, 0, c.blockSize);
    HashingIndexes(c, p, s, 0, end);
    var q := HashBlocks(c, p, s).1;
    assert forall j: nat :: j < end ==> Indexed(c, q, s, j);
    var run := CanAllocate(c, q, tokens).1;
    CanAllocateMeaning(c, q, tokens);
    hide HashBlocks, HashFrom, CanAllocate, Indexed, NumBlocks, Hit, InRange, TableInRange;
    if run < end {
      var n := (run + 1) * c.blockSize;
      MulMono(run + 1, end, c.blockSize);
      MulMono(0, run + 1, c.blockSize);
      assert tokens[..n] == tokens[..end * c.blockSize][..n] && s.tokens[..n] == s.tokens[..end * c.blockSize][..n];
      IndexedHits(c, q, s, tokens, run);
    }
  }
}
