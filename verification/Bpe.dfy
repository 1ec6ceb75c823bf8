/** Byte pair merging. The naive form looks at every adjacent pair each round and merges the leftmost one
    of lowest rank; it is what layers/src/encode.cpp runs, and what the incremental form of
    utils/include/tiktoken.h is proved to compute. */
module Bpe {
  import opened Common
  import opened Utf8

  /** The rank of merging two adjacent symbols; NoRank or more if they cannot be merged. */
  type Rank = (Bytes, Bytes) -> int

  const NoRank := 0x7FFF_FFFF

  /** The ids of symbols, or the ranks of merges. */
  type Table = map<Bytes, int>

  function PairRank(rank: Rank, symbols: seq<Bytes>, i: nat): int
    requires i + 1 < |symbols|
  {
    rank(symbols[i], symbols[i + 1])
  }

  /** `i` is the pair to merge next: of the lowest rank, and the leftmost of those. */
  ghost predicate IsBest(rank: Rank, symbols: seq<Bytes>, i: nat) {
    && i + 1 < |symbols| && PairRank(rank, symbols, i) < NoRank
    && (forall j: nat :: j + 1 < |symbols| ==> PairRank(rank, symbols, i) <= PairRank(rank, symbols, j))
    && (forall j: nat :: j < i ==> PairRank(rank, symbols, i) < PairRank(rank, symbols, j))
  }

  ghost predicate NoneBest(rank: Rank, symbols: seq<Bytes>) {
    forall j: nat :: j + 1 < |symbols| ==> PairRank(rank, symbols, j) >= NoRank
  }

  /** The best of the first `n` pairs. */
  function Best(rank: Rank, symbols: seq<Bytes>, n: nat): (r: Option<nat>)
    requires n == 0 || n < |symbols|
    ensures r.Some? ==> r.value < n && PairRank(rank, symbols, r.value) < NoRank
    ensures forall j: nat :: j < n ==> PairRank(rank, symbols, j) >= (if r.Some? then PairRank(rank, symbols, r.value) else NoRank)
    ensures r.Some? ==> forall j: nat :: j < r.value ==> PairRank(rank, symbols, j) > PairRank(rank, symbols, r.value)
  {
    if n == 0 then None
    else
      var before := Best(rank, symbols, n - 1);
      if PairRank(rank, symbols, n - 1) < (if before.Some? then PairRank(rank, symbols, before.value) else NoRank)
      then Some(n - 1) else before
  }

  function Pairs(symbols: seq<Bytes>): nat {
    if symbols == [] then 0 else |symbols| - 1
  }

  /** The choice is the only one the rule allows. */
  lemma BestIs(rank: Rank, symbols: seq<Bytes>)
    ensures match Best(rank, symbols, Pairs(symbols))
            case Some(i) => IsBest(rank, symbols, i) && forall j: nat :: IsBest(rank, symbols, j) ==> j == i
            case None => NoneBest(rank, symbols)
  {
    var best := Best(rank, symbols, Pairs(symbols));
    if best.Some? {
      forall j: nat | IsBest(rank, symbols, j) ensures j == best.value {
        BestUnique(rank, symbols, best.value, j);
      }
    }
  }

  lemma BestUnique(rank: Rank, symbols: seq<Bytes>, i: nat, j: nat)
    requires IsBest(rank, symbols, i) && IsBest(rank, symbols, j)
    ensures i == j
  {
    assert PairRank(rank, symbols, i) == PairRank(rank, symbols, j);
  }

  /** Symbols `i` and `i + 1` become one. */
  function Merged(symbols: seq<Bytes>, i: nat): (r: seq<Bytes>)
    requires i + 1 < |symbols|
    ensures |r| == |symbols| - 1
  {
    symbols[..i] + [symbols[i] + symbols[i + 1]] + symbols[i + 2..]
  }

  /** Naive byte pair merging. */
  function MergeAll(rank: Rank, symbols: seq<Bytes>): seq<Bytes>
    decreases |symbols|
  {
    match Best(rank, symbols, Pairs(symbols))
    case None => symbols
    case Some(i) => MergeAll(rank, Merged(symbols, i))
  }

  function Flat(symbols: seq<Bytes>): Bytes {
    if symbols == [] then [] else symbols[0] + Flat(symbols[1..])
  }

  lemma {:induction false} FlatConcat(a: seq<Bytes>, b: seq<Bytes>)
    ensures Flat(a + b) == Flat(a) + Flat(b)
  {
    if a == [] {
      assert a + b == b;
    } else {
      assert (a + b)[1..] == a[1..] + b;
      FlatConcat(a[1..], b);
      assert a[0] + (Flat(a[1..]) + Flat(b)) == (a[0] + Flat(a[1..])) + Flat(b);
    }
  }

  lemma FlatOne(s: Bytes)
    ensures Flat([s]) == s
  {
    assert s + [] == s;
  }

  lemma MergedFlat(symbols: seq<Bytes>, i: nat)
    requires i + 1 < |symbols|
    ensures Flat(Merged(symbols, i)) == Flat(symbols)
  {
    hide Flat;
    var x, y := symbols[i], symbols[i + 1];
    FlatOne(x + y);
    FlatTwo(x, y);
    AroundPair(symbols, i);
    FlatSwap(symbols[..i], [x, y], [x + y], symbols[i + 2..]);
  }

  lemma AroundPair(symbols: seq<Bytes>, i: nat)
    requires i + 1 < |symbols|
    ensures symbols == symbols[..i] + [symbols[i], symbols[i + 1]] + symbols[i + 2..]
  {
  }

  lemma FlatSwap(a: seq<Bytes>, m: seq<Bytes>, m': seq<Bytes>, b: seq<Bytes>)
    requires Flat(m) == Flat(m')
    ensures Flat(a + m + b) == Flat(a + m' + b)
  {
    hide Flat;
    FlatConcat(a + m, b);
    FlatConcat(a, m);
    FlatConcat(a + m', b);
    FlatConcat(a, m');
  }

  lemma FlatTwo(x: Bytes, y: Bytes)
    ensures Flat([x, y]) == x + y
  {
    FlatOne(y);
    assert [x, y][1..] == [y];
  }

  ghost predicate NoneEmpty(symbols: seq<Bytes>) {
    forall i: nat :: i < |symbols| ==> symbols[i] != []
  }

  lemma MergedNotEmpty(symbols: seq<Bytes>, i: nat)
    requires i + 1 < |symbols| && NoneEmpty(symbols)
    ensures NoneEmpty(Merged(symbols, i))
  {
  }

  /** Merging goes on until no pair can be merged, and loses nothing: the symbols still spell the same
      string, and none of them is empty if none was before. */
  lemma {:induction false} MergeKeepsText(rank: Rank, symbols: seq<Bytes>)
    ensures Flat(MergeAll(rank, symbols)) == Flat(symbols)
    ensures NoneEmpty(symbols) ==> NoneEmpty(MergeAll(rank, symbols))
    ensures NoneBest(rank, MergeAll(rank, symbols))
    decreases |symbols|
  {
    BestIs(rank, symbols);
    hide Flat, Merged, Best, NoneBest, IsBest, NoneEmpty;
    match Best(rank, symbols, Pairs(symbols))
    case None =>
    case Some(i) =>
      MergedFlat(symbols, i);
      if NoneEmpty(symbols) {
        MergedNotEmpty(symbols, i);
      }
      MergeKeepsText(rank, Merged(symbols, i));
  }

  /** The ids of symbols; None if one is not in the table. */
  function Ids(ranks: Table, symbols: seq<Bytes>): Option<seq<int>> {
    if symbols == [] then Some([])
    else
      match Ids(ranks, symbols[..|symbols| - 1])
      case Some(ids) => if symbols[|symbols| - 1] in ranks then Some(ids + [ranks[symbols[|symbols| - 1]]]) else None
      case None => None
  }

  lemma {:induction false} IdsPrefix(ranks: Table, symbols: seq<Bytes>, n: nat)
    requires n <= |symbols| && Ids(ranks, symbols[..n]).None?
    ensures Ids(ranks, symbols).None?
    decreases |symbols|
  {
    if n < |symbols| {
      assert symbols[..|symbols| - 1][..n] == symbols[..n];
      IdsPrefix(ranks, symbols[..|symbols| - 1], n);
    } else {
      assert symbols[..n] == symbols;
    }
  }

  // ---------------------------------------------------------------- the loop of encode_piece

  /** encode_piece scans all pairs each round and merges in place until nothing can be merged. */
  method MergeSymbols(rank: Rank, start: seq<Bytes>) returns (symbols: seq<Bytes>)
    ensures symbols == MergeAll(rank, start)
  {
    hide Merged, IsBest, NoneBest;
    symbols := start;
    while |symbols| > 1
      invariant MergeAll(rank, symbols) == MergeAll(rank, start)
      decreases |symbols|
    {
      var bestRank := NoRank;
      var bestIndex := |symbols|;
      var i := 0;
      while i + 1 < |symbols|
        invariant 0 <= i < |symbols|
        invariant match Best(rank, symbols, i)
          case None => bestIndex == |symbols| && bestRank == NoRank
          case Some(b) => bestIndex == b && bestRank == PairRank(rank, symbols, b)
      {
        var found := rank(symbols[i], symbols[i + 1]);
        if found < bestRank {
          bestRank := found;
          bestIndex := i;
        }
        i := i + 1;
      }
      if bestIndex == |symbols| {
        break;
      }
      symbols := Merged(symbols, bestIndex);
    }
  }
}
