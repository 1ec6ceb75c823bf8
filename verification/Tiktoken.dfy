/** _byte_pair_merge of utils/include/tiktoken.h: the parts of a piece are kept as boundaries, each with
    the rank of merging the part that starts there with the next one. A merge updates two ranks and drops
    one boundary, instead of looking every pair up again. */
module Tiktoken {
  import opened Common
  import opened Utf8
  import opened Bpe

  datatype Part = Part(start: nat, rank: int)

  /** Merging two symbols is allowed if what they spell together is in the table. */
  function Lookup(ranks: Table): Rank {
    (a: Bytes, b: Bytes) => if a + b in ranks then ranks[a + b] else NoRank
  }

  /** The symbols between the boundaries. */
  function Symbols(piece: Bytes, bounds: seq<nat>): (r: seq<Bytes>)
    requires Bounds(piece, bounds)
    ensures |r| == |bounds| - 1
  {
    seq(|bounds| - 1, i requires 0 <= i < |bounds| - 1 => piece[bounds[i]..bounds[i + 1]])
  }

  predicate Bounds(piece: Bytes, bounds: seq<nat>) {
    && |bounds| > 0
    && (forall i: nat, j: nat :: i <= j < |bounds| ==> bounds[i] <= bounds[j])
    && bounds[|bounds| - 1] <= |piece|
  }

  function Starts(parts: seq<Part>): (r: seq<nat>)
    ensures |r| == |parts| && forall i: nat :: i < |parts| ==> r[i] == parts[i].start
  {
    seq(|parts|, i requires 0 <= i < |parts| => parts[i].start)
  }

  /** get_rank: the rank of what lies between boundaries `i` and `i + skip + 2`. */
  function GetRank(ranks: Table, piece: Bytes, parts: seq<Part>, i: nat, skip: nat): int
    requires Bounds(piece, Starts(parts))
  {
    if i + skip + 2 < |parts| then
      var s, e := Starts(parts)[i], Starts(parts)[i + skip + 2];
      if piece[s..e] in ranks then ranks[piece[s..e]] else NoRank
    else NoRank
  }

  /** Every kept rank is what looking the pair up now would give. */
  ghost predicate Current(ranks: Table, piece: Bytes, parts: seq<Part>)
    requires Bounds(piece, Starts(parts))
  {
    forall i: nat :: i < |parts| ==> parts[i].rank == GetRank(ranks, piece, parts, i, 0)
  }

  /** That rank is the rank of the two symbols. */
  lemma RankOfPair(ranks: Table, piece: Bytes, parts: seq<Part>, i: nat)
    requires Bounds(piece, Starts(parts)) && i + 2 < |parts|
    ensures GetRank(ranks, piece, parts, i, 0) == PairRank(Lookup(ranks), Symbols(piece, Starts(parts)), i)
  {
    var b := Starts(parts);
    assert b[i] <= b[i + 1] <= b[i + 2] <= b[|b| - 1];
    assert piece[b[i]..b[i + 1]] + piece[b[i + 1]..b[i + 2]] == piece[b[i]..b[i + 2]];
  }

  /** The parts after merging at `i`, as the program computes them. */
  function MergeParts(ranks: Table, piece: Bytes, parts: seq<Part>, i: nat): seq<Part>
    requires Bounds(piece, Starts(parts)) && i + 2 < |parts|
  {
    var first := parts[i].(rank := GetRank(ranks, piece, parts, i, 1));
    var p := parts[i := first];
    var q := if i > 0 then p[i - 1 := p[i - 1].(rank := GetRank(ranks, piece, parts, i - 1, 1))] else p;
    q[..i + 1] + q[i + 2..]
  }

  /** The boundaries without the one after `i`. */
  function Dropped(bounds: seq<nat>, i: nat): (r: seq<nat>)
    requires i + 2 < |bounds|
    ensures |r| == |bounds| - 1 && forall k: nat :: k < |r| ==> r[k] == bounds[if k <= i then k else k + 1]
  {
    bounds[..i + 1] + bounds[i + 2..]
  }

  lemma DroppedBounds(piece: Bytes, bounds: seq<nat>, i: nat)
    requires Bounds(piece, bounds) && i + 2 < |bounds|
    ensures Bounds(piece, Dropped(bounds, i))
  {
    hide Dropped;
  }

  /** Dropping the boundary between two symbols joins them. */
  lemma DroppedMerges(piece: Bytes, bounds: seq<nat>, i: nat)
    requires Bounds(piece, bounds) && i + 2 < |bounds| && Bounds(piece, Dropped(bounds, i))
    ensures Symbols(piece, Dropped(bounds, i)) == Merged(Symbols(piece, bounds), i)
  {
    hide Dropped;
    var s, s' := Symbols(piece, bounds), Symbols(piece, Dropped(bounds, i));
    assert bounds[i] <= bounds[i + 1] <= bounds[i + 2] <= bounds[|bounds| - 1];
    assert piece[bounds[i]..bounds[i + 1]] + piece[bounds[i + 1]..bounds[i + 2]] == piece[bounds[i]..bounds[i + 2]];
    forall k: nat | k < |s'| ensures s'[k] == Merged(s, i)[k] {
    }
  }

  lemma MergePartsAt(ranks: Table, piece: Bytes, parts: seq<Part>, i: nat)
    requires Bounds(piece, Starts(parts)) && i + 2 < |parts|
    ensures var parts' := MergeParts(ranks, piece, parts, i);
      && |parts'| == |parts| - 1 && Starts(parts') == Dropped(Starts(parts), i)
      && forall k: nat :: k < |parts'| ==> parts'[k].rank == RankAfter(ranks, piece, parts, i, k)
  {
    hide GetRank;
  }

  /** The two ranks around the merge are looked up; the others are carried over. */
  function RankAfter(ranks: Table, piece: Bytes, parts: seq<Part>, i: nat, k: nat): int
    requires Bounds(piece, Starts(parts)) && i + 2 < |parts| && k + 1 < |parts|
  {
    if k == i then GetRank(ranks, piece, parts, i, 1)
    else if k + 1 == i then GetRank(ranks, piece, parts, k, 1)
    else parts[if k < i then k else k + 1].rank
  }

  /** Merging drops one boundary, which joins two symbols, and leaves every kept rank current. */
  lemma MergePartsOk(ranks: Table, piece: Bytes, parts: seq<Part>, i: nat)
    requires Bounds(piece, Starts(parts)) && i + 2 < |parts| && Current(ranks, piece, parts)
    ensures var parts' := MergeParts(ranks, piece, parts, i);
      && |parts'| == |parts| - 1 && Starts(parts') == Dropped(Starts(parts), i)
      && Bounds(piece, Starts(parts')) && Current(ranks, piece, parts')
      && Symbols(piece, Starts(parts')) == Merged(Symbols(piece, Starts(parts)), i)
  {
    hide Dropped, MergeParts, Symbols, Merged, Starts, Bounds;
    var b := Starts(parts);
    var parts' := MergeParts(ranks, piece, parts, i);
    MergePartsAt(ranks, piece, parts, i);
    DroppedBounds(piece, b, i);
    DroppedMerges(piece, b, i);
    forall k: nat | k < |parts'| ensures parts'[k].rank == GetRank(ranks, piece, parts', k, 0) {
      assert parts[if k < i then k else k + 1].rank == GetRank(ranks, piece, parts, if k < i then k else k + 1, 0);
    }
  }

  function SinglesFrom(n: nat): (r: seq<nat>)
    ensures |r| == n + 1 && forall i: nat :: i <= n ==> r[i] == i
  {
    seq(n + 1, i => i)
  }

  /** The single bytes of a piece. */
  function Singles(piece: Bytes): (r: seq<Bytes>)
    ensures |r| == |piece| && forall i: nat :: i < |piece| ==> r[i] == [piece[i]]
  {
    seq(|piece|, i requires 0 <= i < |piece| => [piece[i]])
  }

  lemma StartSymbols(piece: Bytes)
    ensures Bounds(piece, SinglesFrom(|piece|)) && Symbols(piece, SinglesFrom(|piece|)) == Singles(piece)
  {
    var s := Symbols(piece, SinglesFrom(|piece|));
    forall i: nat | i < |piece| ensures s[i] == [piece[i]] {
    }
  }

  /** The table has no rank as large as the sentinel, as the program asserts. */
  predicate RanksInRange(ranks: Table) {
    forall key :: key in ranks ==> ranks[key] < NoRank
  }

  /** The incremental form gives exactly what naive merging gives. */
  method BytePairMerge(piece: Bytes, ranks: Table) returns (bounds: seq<nat>)
    requires piece != [] && RanksInRange(ranks)
    ensures Bounds(piece, bounds) && Symbols(piece, bounds) == MergeAll(Lookup(ranks), Singles(piece))
  {
    hide MergeAll, Symbols, Merged;
    var parts := FirstParts(piece, ranks);
    StartSymbols(piece);
    while |parts| != 1
      invariant |parts| > 0 && Bounds(piece, Starts(parts)) && Current(ranks, piece, parts)
      invariant MergeAll(Lookup(ranks), Symbols(piece, Starts(parts))) == MergeAll(Lookup(ranks), Singles(piece))
      decreases |parts|
    {
      var minRank, at := LowestRank(ranks, piece, parts);
      NextMerge(ranks, piece, parts, minRank, at);
      if minRank == NoRank {
        break;
      }
      MergePartsOk(ranks, piece, parts, at);
      parts := MergeAt(ranks, piece, parts, at);
    }
    if |parts| == 1 {
      OneSymbol(ranks, piece, parts);
    }
    bounds := [];
    var i := 0;
    while i < |parts|
      invariant 0 <= i <= |parts| && bounds == Starts(parts)[..i]
    {
      bounds := bounds + [parts[i].start];
      i := i + 1;
    }
    assert Starts(parts)[..|parts|] == Starts(parts);
  }

  lemma OneSymbol(ranks: Table, piece: Bytes, parts: seq<Part>)
    requires Bounds(piece, Starts(parts)) && |parts| <= 2
    ensures MergeAll(Lookup(ranks), Symbols(piece, Starts(parts))) == Symbols(piece, Starts(parts))
  {
  }

  /** The parts to start from: one for each byte. */
  method FirstParts(piece: Bytes, ranks: Table) returns (parts: seq<Part>)
    requires piece != []
    ensures Starts(parts) == SinglesFrom(|piece|) && Bounds(piece, Starts(parts)) && Current(ranks, piece, parts)
  {
    parts := [];
    var idx := 0;
    while idx < |piece| + 1
      invariant 0 <= idx <= |piece| + 1 && |parts| == idx
      invariant forall k: nat :: k < idx ==> parts[k] == Part(k, NoRank)
    {
      parts := parts + [Part(idx, NoRank)];
      idx := idx + 1;
    }
    ghost var fresh0 := parts;
    var i := 0;
    while i < |parts| - 2
      invariant 0 <= i <= |parts| - 2 && |parts| == |piece| + 1
      invariant forall k: nat :: k < |parts| ==> parts[k].start == k
      invariant forall k: nat :: k < i ==> parts[k].rank == GetRank(ranks, piece, parts, k, 0)
      invariant forall k: nat :: i <= k < |parts| ==> parts[k].rank == NoRank
    {
      var rank := GetRank(ranks, piece, parts, i, 0);
      ghost var before := parts;
      parts := parts[i := parts[i].(rank := rank)];
      assert Starts(parts) == Starts(before);
      i := i + 1;
    }
  }

  /** The lowest kept rank and the leftmost part that has it. */
  method LowestRank(ranks: Table, piece: Bytes, parts: seq<Part>) returns (minRank: int, at: nat)
    requires |parts| > 1
    ensures minRank == NoRank ==> forall k: nat :: k + 1 < |parts| ==> parts[k].rank >= NoRank
    ensures minRank != NoRank ==> minRank < NoRank && at + 1 < |parts| && parts[at].rank == minRank
    ensures minRank != NoRank ==> forall k: nat :: k + 1 < |parts| ==> parts[k].rank >= minRank && (k < at ==> parts[k].rank > minRank)
  {
    minRank, at := NoRank, 0;
    var i := 0;
    while i < |parts| - 1
      invariant 0 <= i <= |parts| - 1 && minRank <= NoRank
      invariant minRank == NoRank ==> forall k: nat :: k < i ==> parts[k].rank >= NoRank
      invariant minRank != NoRank ==> at < i && parts[at].rank == minRank
      invariant minRank != NoRank ==> forall k: nat :: k < i ==> parts[k].rank >= minRank && (k < at ==> parts[k].rank > minRank)
    {
      if parts[i].rank < minRank {
        minRank, at := parts[i].rank, i;
      }
      i := i + 1;
    }
  }

  /** Since the kept ranks are current, that is the pair naive merging takes. */
  lemma NextMerge(ranks: Table, piece: Bytes, parts: seq<Part>, minRank: int, at: nat)
    requires |parts| > 1 && Bounds(piece, Starts(parts)) && Current(ranks, piece, parts)
    requires minRank == NoRank ==> forall k: nat :: k + 1 < |parts| ==> parts[k].rank >= NoRank
    requires minRank != NoRank ==> minRank < NoRank && at + 1 < |parts| && parts[at].rank == minRank
    requires minRank != NoRank ==> forall k: nat :: k + 1 < |parts| ==> parts[k].rank >= minRank && (k < at ==> parts[k].rank > minRank)
    ensures var symbols := Symbols(piece, Starts(parts));
      if minRank == NoRank then MergeAll(Lookup(ranks), symbols) == symbols
      else at + 2 < |parts| && MergeAll(Lookup(ranks), symbols) == MergeAll(Lookup(ranks), Merged(symbols, at))
  {
    var symbols := Symbols(piece, Starts(parts));
    var rank := Lookup(ranks);
    hide Symbols, Lookup, Merged, PairRank, Best;
    forall k: nat | k + 1 < |symbols| ensures PairRank(rank, symbols, k) == parts[k].rank {
      RankOfPair(ranks, piece, parts, k);
    }
    LastRank(ranks, piece, parts);
    hide GetRank, Current, Starts, Bounds, MergeAll;
    if minRank != NoRank {
      MergeBest(rank, symbols, at);
    } else {
      MergeDone(rank, symbols);
    }
  }

  lemma LastRank(ranks: Table, piece: Bytes, parts: seq<Part>)
    requires |parts| > 1 && Bounds(piece, Starts(parts)) && Current(ranks, piece, parts)
    ensures parts[|parts| - 2].rank == NoRank
  {
  }

  lemma MergeBest(rank: Rank, symbols: seq<Bytes>, i: nat)
    requires i + 1 < |symbols| && PairRank(rank, symbols, i) < NoRank
    requires forall j: nat :: j + 1 < |symbols| ==> PairRank(rank, symbols, j) >= PairRank(rank, symbols, i) && (j < i ==> PairRank(rank, symbols, j) > PairRank(rank, symbols, i))
    ensures MergeAll(rank, symbols) == MergeAll(rank, Merged(symbols, i))
  {
    hide Merged, Best;
    BestIs(rank, symbols);
    assert IsBest(rank, symbols, i);
  }

  lemma MergeDone(rank: Rank, symbols: seq<Bytes>)
    requires forall j: nat :: j + 1 < |symbols| ==> PairRank(rank, symbols, j) >= NoRank
    ensures MergeAll(rank, symbols) == symbols
  {
    hide Merged, Best;
    BestIs(rank, symbols);
  }

  /** The update in place. */
  method MergeAt(ranks: Table, piece: Bytes, before: seq<Part>, i: nat) returns (parts: seq<Part>)
    requires Bounds(piece, Starts(before)) && i + 2 < |before|
    ensures parts == MergeParts(ranks, piece, before, i)
  {
    parts := before;
    parts := parts[i := parts[i].(rank := GetRank(ranks, piece, parts, i, 1))];
    assert Starts(parts) == Starts(before);
    if i > 0 {
      ghost var was := parts;
      parts := parts[i - 1 := parts[i - 1].(rank := GetRank(ranks, piece, parts, i - 1, 1))];
      assert Starts(was) == Starts(before);
    }
    parts := parts[..i + 1] + parts[i + 2..];
  }

  /** byte_pair_encode: the ids of the symbols that naive merging gives. */
  method BytePairEncode(piece: Bytes, ranks: Table) returns (ids: Option<seq<int>>)
    requires piece != [] && RanksInRange(ranks)
    ensures ids == Ids(ranks, MergeAll(Lookup(ranks), Singles(piece)))
  {
    if |piece| == 1 {
      OneByte(piece, ranks);
      return if piece in ranks then Some([ranks[piece]]) else None;
    }
    hide MergeAll, Lookup, Singles, RanksInRange, Symbols, Bounds;
    var bounds := BytePairMerge(piece, ranks);
    ghost var symbols := Symbols(piece, bounds);
    var out := [];
    var i := 0;
    while i < |bounds| - 1
      invariant 0 <= i <= |bounds| - 1 && Ids(ranks, symbols[..i]) == Some(out)
    {
      SymbolAt(piece, bounds, i);
      var key := piece[bounds[i]..bounds[i + 1]];
      assert symbols[..i + 1][..i] == symbols[..i] && symbols[..i + 1][i] == key;
      if key !in ranks {
        IdsPrefix(ranks, symbols, i + 1);
        return None;
      }
      out := out + [ranks[key]];
      i := i + 1;
    }
    assert symbols[..|bounds| - 1] == symbols;
    return Some(out);
  }

  lemma SymbolAt(piece: Bytes, bounds: seq<nat>, i: nat)
    requires Bounds(piece, bounds) && i + 1 < |bounds|
    ensures bounds[i] <= bounds[i + 1] <= |piece| && Symbols(piece, bounds)[i] == piece[bounds[i]..bounds[i + 1]]
  {
    assert bounds[i + 1] <= bounds[|bounds| - 1];
  }

  lemma OneByte(piece: Bytes, ranks: Table)
    requires |piece| == 1
    ensures Ids(ranks, MergeAll(Lookup(ranks), Singles(piece))) == if piece in ranks then Some([ranks[piece]]) else None
  {
    var symbols := Singles(piece);
    assert MergeAll(Lookup(ranks), symbols) == symbols;
    assert piece == [piece[0]];
    assert symbols == [piece] && symbols[..0] == [];
    assert Ids(ranks, symbols[..0]) == Some([]);
    assert piece in ranks ==> [] + [ranks[piece]] == [ranks[piece]];
  }
}
