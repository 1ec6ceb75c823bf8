/** Types shared by the engine modules. */
module Common {

  type Token = int

  /** A 64-bit chain hash in the program; any integer here, so that nothing below
      depends on how wide the hash is or how it is mixed. */
  type Hash = int

  datatype Option<+T> = None | Some(value: T)

  /** Every error return of the engine, one name per message. */
  datatype Error =
    | AlreadyAllocated
    | CachedCountOutOfRange
    | PrefixBlockDisappeared
    | PrefixHashCollided
    | FreeListBroken
    | PoolRanOut
    | EmptySequence
    | NoBlockForNextToken
    | TableTooShort
    | PrefixNotComplete
    | PartialBlock
    | EmptyRequest
    | BlockSizeMismatch
    | PromptNeedsTooManyBlocks
    | NothingUncached
    | NoProgress
    | WrongSampleCount
    | MissingToken
    | NotInitialized
    | NonPositiveCapacity
    | BadSampling
    | ZeroMaxTokens
    | EmptyPrompt
    | PromptTooLong
    | CompletionTooLong
    | EmptyLogits
    | NotFinished
    | SamplingCountMismatch
    | BatchCountInvalid
    | PositionOutOfContext
    | TableDoesNotCover
    | InvalidPage
    | InvalidSampleRow
    | NotConfigured
    | BadCacheShape
    | AlreadyConfigured

  datatype Status = Success | Failure(error: Error)

  datatype Sampling = Sampling(maxTokens: int, temperature: real, topP: real, ignoreEos: bool, seed: nat)

  /** The state of a generator is fixed by its seed and the number of words drawn from it. */
  datatype Rng = Rng(seed: nat, drawn: nat)

  datatype SequenceStatus = Waiting | Running | Finished

  datatype RawConfig = Config(
    maxNumSeqs: int,
    maxNumBatchedTokens: int,
    blockSize: int,
    numKvBlocks: int,
    maxModelLen: int,
    computeHash: (seq<Token>, Hash) -> Hash)
  {
    /** The check LLMEngine::init makes before anything is scheduled. */
    predicate Positive() {
      maxNumSeqs > 0 && maxNumBatchedTokens > 0 && blockSize > 0 && numKvBlocks > 0 && maxModelLen > 0
    }
  }

  type Config = c: RawConfig | c.Positive() witness Config(1, 1, 1, 1, 1, (tokens: seq<Token>, prefix: Hash) => 0)
}

/** Counting with sets of small numbers. */
module Counting {

  /** The numbers below `n`. */
  function Ids(n: nat): (ids: set<nat>)
    ensures forall b: nat :: b in ids <==> b < n
  {
    if n == 0 then {} else Ids(n - 1) + {n - 1}
  }

  lemma IdsCount(n: nat)
    ensures |Ids(n)| == n
  {
    if n > 0 {
      IdsCount(n - 1);
    }
  }

  lemma SubsetCount(a: set<nat>, b: set<nat>)
    requires a <= b
    ensures |a| <= |b|
    decreases |b|
  {
    if a != {} {
      var x :| x in a;
      SubsetCount(a - {x}, b - {x});
    }
  }

  /** The members of the first `k` places. */
  function Members(s: seq<nat>, k: nat): (r: set<nat>)
    requires k <= |s|
    ensures forall x :: x in r <==> exists a: nat :: a < k && s[a] == x
  {
    if k == 0 then {} else Members(s, k - 1) + {s[k - 1]}
  }

  lemma {:induction false} MembersCount(s: seq<nat>, k: nat)
    requires k <= |s| && forall a: nat, b: nat :: a < b < |s| ==> s[a] != s[b]
    ensures |Members(s, k)| == k
  {
    if k > 0 {
      MembersCount(s, k - 1);
      NotBefore(s, k - 1);
    }
  }

  lemma NotBefore(s: seq<nat>, k: nat)
    requires k < |s| && forall a: nat :: a < k ==> s[a] != s[k]
    ensures s[k] !in Members(s, k)
  {
  }

  /** Different numbers below `m` are at most `m`. */
  lemma Pigeonhole(s: seq<nat>, m: nat)
    requires forall a: nat, b: nat :: a < b < |s| ==> s[a] != s[b]
    requires forall a: nat :: a < |s| ==> s[a] < m
    ensures |s| <= m
  {
    MembersCount(s, |s|);
    IdsCount(m);
    SubsetCount(Members(s, |s|), Ids(m));
  }
}

/** Division facts about cutting positions into blocks of a fixed size. */
module Blocks {

  /** Sequence::num_blocks: how many blocks of `size` positions cover `count` positions. */
  function NumBlocks(count: nat, size: int): nat
    requires size > 0
  {
    (count + size - 1) / size
  }

  lemma DivBounds(n: nat, size: int)
    requires size > 0
    ensures 0 <= n / size
    ensures n / size * size <= n < n / size * size + size
    ensures n == n / size * size + n % size && 0 <= n % size < size
  {
  }

  lemma MulMono(a: int, b: int, size: int)
    requires size >= 0 && a <= b
    ensures a * size <= b * size
  {
    assert 0 <= (b - a) * size;
  }

  lemma MulMonoStrict(a: int, b: int, size: int)
    requires size >= 0 && a < b
    ensures a * size + size <= b * size
  {
    MulMono(a + 1, b, size);
  }

  lemma DivUnique(n: nat, q: int, size: int)
    requires size > 0 && q * size <= n < q * size + size
    ensures n / size == q && n % size == n - q * size
  {
    DivBounds(n, size);
    if n / size < q {
      MulMonoStrict(n / size, q, size);
      assert false;
    }
    if n / size > q {
      MulMonoStrict(q, n / size, size);
      assert false;
    }
  }

  lemma DivMono(a: nat, b: nat, size: int)
    requires size > 0 && a <= b
    ensures a / size <= b / size
  {
    DivBounds(a, size);
    DivBounds(b, size);
    if a / size > b / size {
      MulMonoStrict(b / size, a / size, size);
      assert false;
    }
  }

  /** A count of positions needs exactly the blocks up to the one holding its last position. */
  lemma NumBlocksSucc(n: nat, size: int)
    requires size > 0
    ensures NumBlocks(n + 1, size) == n / size + 1
  {
    DivBounds(n, size);
    DivUnique(n + size, n / size + 1, size);
  }

  lemma NumBlocksZero(size: int)
    requires size > 0
    ensures NumBlocks(0, size) == 0
  {
    DivUnique(size - 1, 0, size);
  }

  lemma NumBlocksBounds(n: nat, size: int)
    requires size > 0
    ensures n <= NumBlocks(n, size) * size
    ensures n > 0 ==> NumBlocks(n, size) > 0 && (NumBlocks(n, size) - 1) * size < n
    ensures n / size <= NumBlocks(n, size) <= n / size + 1
  {
    if n == 0 {
      NumBlocksZero(size);
      DivUnique(0, 0, size);
    } else {
      NumBlocksSucc(n - 1, size);
      DivBounds(n - 1, size);
      DivBounds(n, size);
      DivMono(n - 1, n, size);
      if n / size > (n - 1) / size + 1 {
        MulMonoStrict((n - 1) / size + 1, n / size, size);
        assert false;
      }
    }
  }

  lemma NumBlocksMono(a: nat, b: nat, size: int)
    requires size > 0 && a <= b
    ensures NumBlocks(a, size) <= NumBlocks(b, size)
  {
    DivMono(a + size - 1, b + size - 1, size);
  }

  /** The positions that `count` full blocks hold. */
  function Positions(count: nat, size: int): nat
    requires size > 0
  {
    count * size
  }

  /** The slot at offset `o` of a block. */
  function SlotIn(size: int, b: nat, o: nat): int {
    b * size + o
  }

  /** The slot of a position: the offset in the block its table names. */
  function SlotOf(size: int, table: seq<nat>, pos: nat): int
    requires size > 0 && pos / size < |table|
  {
    SlotIn(size, table[pos / size], pos % size)
  }

  /** Slots tell blocks and offsets apart. */
  lemma SlotInInjective(size: int, a: nat, x: nat, b: nat, y: nat)
    requires x < size && y < size && SlotIn(size, a, x) == SlotIn(size, b, y)
    ensures a == b && x == y
  {
    DivUnique(a * size + x, a, size);
    DivUnique(b * size + y, b, size);
  }

  /** A slot of a block among the first `n` is among the first `n * size` slots. */
  lemma SlotInRange(size: int, b: nat, o: nat, n: nat)
    requires o < size && b < n
    ensures 0 <= SlotIn(size, b, o) < n * size
  {
    MulMono(0, b, size);
    MulMonoStrict(b, n, size);
  }
}
