/** What the key/value slots hold. `holds(x, prefix)` says that slot `x` holds the keys and values of
    the last token of `prefix`, computed after exactly that prefix; the lemmas are for any `holds`. */
module PrefixCache {
  import opened Common
  import opened Blocks
  import opened Sequences
  import opened BlockPool
  import opened BlockInvariants

  type Holds = (int, seq<Token>) -> bool

  /** No two different prefixes among those hashed so far have the same chain hash. */
  ghost predicate NoCollision(c: Config, hashed: set<seq<Token>>) {
    forall a, b :: a in hashed && b in hashed && ChainOf(c, a) == ChainOf(c, b) ==> a == b
  }

  /** Every hashed block holds the recorded prefix. */
  ghost predicate OriginKv(c: Config, p: Pool, holds: Holds) {
    forall b: nat :: b < |p.blocks| && p.blocks[b].hashValid && b in p.origin ==> BlockHolds(c, holds, b, p.origin[b])
  }

  ghost predicate BlockHolds(c: Config, holds: Holds, b: nat, prefix: seq<Token>) {
    && |prefix| >= c.blockSize
    && forall o: nat :: o < c.blockSize ==> holds(SlotIn(c.blockSize, b, o), prefix[..|prefix| - c.blockSize + o + 1])
  }

  /** The first `n` positions of a sequence hold exactly that sequence's own prefixes. */
  ghost predicate SeqKv(c: Config, holds: Holds, s: SeqState, n: nat) {
    && n <= |s.tokens|
    && forall pos: nat :: pos < n ==> pos / c.blockSize < |s.table| && holds(SlotOf(c.blockSize, s.table, pos), s.tokens[..pos + 1])
  }

  /** The positions that must hold: the cached ones, and after the model ran the scheduled ones too. */
  ghost function Ready(s: SeqState, ran: bool): nat {
    if ran then s.cached + s.scheduled else s.cached
  }

  ghost function ReadyBound(seqs: seq<SeqState>, i: nat, n: nat, ran: bool, j: nat): nat
    requires j < |seqs|
  {
    if j == i then n else Ready(seqs[j], ran)
  }

  ghost predicate SeqsKv(c: Config, holds: Holds, seqs: seq<SeqState>, i: nat, n: nat, ran: bool) {
    forall j: nat :: j < |seqs| ==> SeqKv(c, holds, seqs[j], ReadyBound(seqs, i, n, ran, j))
  }

  ghost predicate KvOk(c: Config, p: Pool, holds: Holds, seqs: seq<SeqState>, i: nat, n: nat, ran: bool) {
    OriginKv(c, p, holds) && SeqsKv(c, holds, seqs, i, n, ran)
  }

  lemma FewerCollide(c: Config, a: set<seq<Token>>, b: set<seq<Token>>)
    requires a <= b && NoCollision(c, b)
    ensures NoCollision(c, a)
  {
    hide ChainOf;
  }

  lemma SeqsKvUpdate(c: Config, holds: Holds, seqs: seq<SeqState>, i: nat, n: nat, s: SeqState, n': nat, ran: bool)
    requires SeqsKv(c, holds, seqs, i, n, ran) && i < |seqs| && SeqKv(c, holds, s, n')
    ensures SeqsKv(c, holds, seqs[i := s], i, n', ran)
  {
    hide SeqKv;
    var seqs' := seqs[i := s];
    forall j: nat | j < |seqs'| ensures SeqKv(c, holds, seqs'[j], ReadyBound(seqs', i, n', ran, j)) {
      if j != i {
        assert SeqKv(c, holds, seqs[j], ReadyBound(seqs, i, n, ran, j));
      }
    }
  }

  lemma PushKv(c: Config, holds: Holds, s: SeqState, n: nat, b: nat)
    requires SeqKv(c, holds, s, n)
    ensures SeqKv(c, holds, Push(s, b), n)
  {
    forall pos: nat | pos < n ensures pos / c.blockSize < |Push(s, b).table| && holds(SlotOf(c.blockSize, Push(s, b).table, pos), s.tokens[..pos + 1]) {
      assert holds(SlotOf(c.blockSize, s.table, pos), s.tokens[..pos + 1]);
      assert SlotOf(c.blockSize, Push(s, b).table, pos) == SlotOf(c.blockSize, s.table, pos);
    }
  }

  lemma TakeKv(c: Config, p: Pool, holds: Holds, id: nat)
    requires OriginKv(c, p, holds) && id < |p.blocks|
    ensures forall q: Pool :: q.origin == p.origin && q.blocks == p.blocks[id := Block(1, false, 0, [])] ==> OriginKv(c, q, holds)
  {
    hide BlockHolds;
  }

  lemma SameOriginKv(c: Config, p: Pool, q: Pool, holds: Holds)
    requires OriginKv(c, p, holds) && q.origin == p.origin && |q.blocks| == |p.blocks|
    requires forall b: nat :: b < |p.blocks| && q.blocks[b].hashValid ==> p.blocks[b].hashValid
    ensures OriginKv(c, q, holds)
  {
    hide BlockHolds;
  }

  /** A block holding the prefix that ends with table entry `k` fills its positions. */
  lemma BlockFills(c: Config, holds: Holds, s: SeqState, k: nat, b: nat, pos: nat)
    requires |s.table| == k && (k + 1) * c.blockSize <= |s.tokens| && k * c.blockSize <= pos < (k + 1) * c.blockSize
    requires BlockHolds(c, holds, b, s.tokens[..(k + 1) * c.blockSize])
    ensures pos / c.blockSize < |Push(s, b).table| && holds(SlotOf(c.blockSize, Push(s, b).table, pos), s.tokens[..pos + 1])
  {
    var n := (k + 1) * c.blockSize;
    assert n == k * c.blockSize + c.blockSize;
    DivUnique(pos, k, c.blockSize);
    hide BlockHolds, SlotOf;
    BlockFillsAt(c, holds, s, k, b, pos, n);
  }

  lemma BlockFillsAt(c: Config, holds: Holds, s: SeqState, k: nat, b: nat, pos: nat, n: nat)
    requires |s.table| == k && n <= |s.tokens| && BlockHolds(c, holds, b, s.tokens[..n])
    requires pos / c.blockSize == k && 0 <= pos % c.blockSize < c.blockSize && pos == n - c.blockSize + pos % c.blockSize
    ensures pos / c.blockSize < |Push(s, b).table| && holds(SlotOf(c.blockSize, Push(s, b).table, pos), s.tokens[..pos + 1])
  {
    hide SlotIn;
    var o := pos % c.blockSize;
    var prefix := s.tokens[..n];
    assert holds(SlotIn(c.blockSize, b, o), prefix[..|prefix| - c.blockSize + o + 1]);
    assert prefix[..|prefix| - c.blockSize + o + 1] == s.tokens[..pos + 1];
  }

  lemma ShareSeqKv(c: Config, holds: Holds, s: SeqState, k: nat, b: nat)
    requires |s.table| == k && (k + 1) * c.blockSize <= |s.tokens| && 0 <= k * c.blockSize && SeqKv(c, holds, s, k * c.blockSize)
    requires BlockHolds(c, holds, b, s.tokens[..(k + 1) * c.blockSize])
    ensures SeqKv(c, holds, Push(s, b), (k + 1) * c.blockSize)
  {
    PushKv(c, holds, s, k * c.blockSize, b);
    forall pos: nat | pos < (k + 1) * c.blockSize
      ensures pos / c.blockSize < |Push(s, b).table| && holds(SlotOf(c.blockSize, Push(s, b).table, pos), s.tokens[..pos + 1])
    {
      hide BlockHolds, SlotOf;
      if pos >= k * c.blockSize {
        BlockFills(c, holds, s, k, b, pos);
      }
    }
  }

  /** Without collisions a matched block was computed from this very prefix. */
  lemma MatchedOrigin(c: Config, p: Pool, tokens: seq<Token>, k: nat)
    requires IndexOk(p) && OriginsOk(c, p) && InRange(p) && Hit(c, p, tokens, k) && (k + 1) * c.blockSize <= |tokens|
    requires NoCollision(c, p.hashed + {Prefix(tokens, (k + 1) * c.blockSize)})
    ensures var b := p.index[Chain(c, tokens, k + 1)];
      b in p.origin && 0 <= (k + 1) * c.blockSize && p.origin[b] == tokens[..(k + 1) * c.blockSize]
  {
    hide Chain, BlockTokens;
    ChainOfPrefix(c, tokens, k + 1);
    var b := p.index[Chain(c, tokens, k + 1)];
    assert OriginOk(c, p.blocks[b], p.origin[b]);
    hide ChainOf, OriginOk;
  }

  /** Sharing a cached block keeps the contents right, and makes one more block of them. */
  lemma ShareKv(c: Config, p: Pool, holds: Holds, seqs: seq<SeqState>, i: nat, k: nat, ran: bool)
    requires IndexOk(p) && OriginsOk(c, p) && InRange(p) && i < |seqs| && |seqs[i].table| == k
    requires (k + 1) * c.blockSize <= |seqs[i].tokens| && 0 <= k * c.blockSize && Hit(c, p, seqs[i].tokens, k)
    requires NoCollision(c, p.hashed + {Prefix(seqs[i].tokens, (k + 1) * c.blockSize)})
    requires KvOk(c, p, holds, seqs, i, k * c.blockSize, ran)
    ensures 0 <= (k + 1) * c.blockSize
    ensures KvOk(c, Shared(c, p, seqs[i], k), holds, seqs[i := Sharing(c, p, seqs[i], k)], i, (k + 1) * c.blockSize, ran)
  {
    hide Chain, BlockTokens, OriginsOk;
    MatchedOrigin(c, p, seqs[i].tokens, k);
    var b := p.index[Chain(c, seqs[i].tokens, k + 1)];
    var q := ShareBlock(p, b, Prefix(seqs[i].tokens, (k + 1) * c.blockSize));
    SameOriginKv(c, p, q, holds);
    assert BlockHolds(c, holds, b, p.origin[b]);
    hide BlockHolds, OriginKv, NoCollision, IndexOk;
    assert SeqKv(c, holds, seqs[i], ReadyBound(seqs, i, k * c.blockSize, ran, i));
    hide SeqKv;
    ShareSeqKv(c, holds, seqs[i], k, b);
    SeqsKvUpdate(c, holds, seqs, i, k * c.blockSize, Push(seqs[i], b), (k + 1) * c.blockSize, ran);
  }

  /** The positions of a sequence's own block `k` are what makes the block hold its prefix. */
  lemma FilledBlock(c: Config, holds: Holds, s: SeqState, n: nat, k: nat)
    requires SeqKv(c, holds, s, n) && k < |s.table| && (k + 1) * c.blockSize <= n
    ensures 0 <= (k + 1) * c.blockSize && BlockHolds(c, holds, s.table[k], s.tokens[..(k + 1) * c.blockSize])
  {
    MulMono(0, k, c.blockSize);
    var m := (k + 1) * c.blockSize;
    assert m == k * c.blockSize + c.blockSize;
    var prefix := s.tokens[..m];
    forall o: nat | o < c.blockSize ensures holds(SlotIn(c.blockSize, s.table[k], o), prefix[..|prefix| - c.blockSize + o + 1]) {
      var pos := k * c.blockSize + o;
      DivUnique(pos, k, c.blockSize);
      assert holds(SlotOf(c.blockSize, s.table, pos), s.tokens[..pos + 1]);
      assert prefix[..|prefix| - c.blockSize + o + 1] == s.tokens[..pos + 1];
    }
  }

  /** Hashing a block whose positions are all computed keeps the contents right. */
  lemma HashKv(c: Config, p: Pool, holds: Holds, s: SeqState, n: nat, k: nat, hash: Hash, tokens: seq<Token>)
    requires OriginKv(c, p, holds) && SeqKv(c, holds, s, n) && k < |s.table| && s.table[k] < |p.blocks|
    requires (k + 1) * c.blockSize <= n
    ensures OriginKv(c, HashBlock(p, s.table[k], hash, tokens, Prefix(s.tokens, (k + 1) * c.blockSize)), holds)
  {
    FilledBlock(c, holds, s, n, k);
    hide BlockHolds, SeqKv;
  }
}
