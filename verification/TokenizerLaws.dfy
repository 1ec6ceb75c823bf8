/** What the tables of the tokenizer hold and how merging uses them, in terms of the tokenizer file itself:
    its vocabulary, its list of merges and its added tokens. */
module TokenizerLaws {
  import opened Common
  import opened Utf8
  import opened ByteAlphabet
  import opened Bpe
  import opened Tiktoken
  import opened Tokenizer
  import opened Qwen3Encoder

  // ---------------------------------------------------------------- the tables

  ghost predicate FirstText(entries: seq<Entry>, k: nat) {
    k < |entries| && forall j: nat :: j < k ==> entries[j].text != entries[k].text
  }

  ghost predicate FirstId(entries: seq<Entry>, k: nat) {
    k < |entries| && forall j: nat :: j < k ==> entries[j].id != entries[k].id
  }

  ghost predicate LastText(entries: seq<Entry>, k: nat) {
    k < |entries| && forall j: nat :: k < j < |entries| ==> entries[j].text != entries[k].text
  }

  ghost predicate LastId(entries: seq<Entry>, k: nat) {
    k < |entries| && forall j: nat :: k < j < |entries| ==> entries[j].id != entries[k].id
  }

  /** The vocabulary maps a text to the id of its first entry, and an id to the text of its first entry;
      nothing else is in either map. */
  lemma VocabularyMaps(vocab: seq<Entry>)
    ensures forall k: nat :: FirstText(vocab, k) ==> vocab[k].text in FirstIds(vocab) && FirstIds(vocab)[vocab[k].text] == vocab[k].id
    ensures forall k: nat :: FirstId(vocab, k) ==> MapsTo(FirstTexts(vocab), vocab[k].id, vocab[k].text)
    ensures forall s: Bytes :: s in FirstIds(vocab) <==> exists k: nat :: k < |vocab| && vocab[k].text == s
    ensures forall id: int :: id in FirstTexts(vocab) <==> exists k: nat :: k < |vocab| && vocab[k].id == id
  {
    hide FirstIds, FirstTexts, MapsTo;
    InFirst(vocab);
    forall k: nat | FirstText(vocab, k) ensures vocab[k].text in FirstIds(vocab) && FirstIds(vocab)[vocab[k].text] == vocab[k].id {
      FirstTextMaps(vocab, k);
    }
    forall k: nat | FirstId(vocab, k) ensures MapsTo(FirstTexts(vocab), vocab[k].id, vocab[k].text) {
      FirstIdMaps(vocab, k);
    }
  }

  lemma {:induction false} FirstTextMaps(vocab: seq<Entry>, k: nat)
    requires FirstText(vocab, k)
    ensures vocab[k].text in FirstIds(vocab) && FirstIds(vocab)[vocab[k].text] == vocab[k].id
    decreases |vocab|
  {
    var n := |vocab| - 1;
    if k < n {
      assert FirstText(vocab[..n], k);
      FirstTextMaps(vocab[..n], k);
    } else {
      NotBefore(vocab, n);
    }
  }

  lemma {:induction false} FirstIdMaps(vocab: seq<Entry>, k: nat)
    requires FirstId(vocab, k)
    ensures MapsTo(FirstTexts(vocab), vocab[k].id, vocab[k].text)
    decreases |vocab|
  {
    var n := |vocab| - 1;
    if k < n {
      assert FirstId(vocab[..n], k);
      FirstIdMaps(vocab[..n], k);
    } else {
      NotBefore(vocab, n);
    }
  }

  /** What is not in the map of the entries before is new. */
  lemma {:induction false} NotBefore(vocab: seq<Entry>, n: nat)
    requires n < |vocab|
    ensures vocab[n].text !in FirstIds(vocab[..n]) <==> FirstText(vocab, n)
    ensures vocab[n].id !in FirstTexts(vocab[..n]) <==> FirstId(vocab, n)
  {
    InFirst(vocab[..n]);
    assert forall j: nat :: j < n ==> vocab[..n][j] == vocab[j];
  }

  lemma {:induction false} InFirst(entries: seq<Entry>)
    ensures forall s: Bytes :: s in FirstIds(entries) <==> exists k: nat :: k < |entries| && entries[k].text == s
    ensures forall id: int :: id in FirstTexts(entries) <==> exists k: nat :: k < |entries| && entries[k].id == id
    decreases |entries|
  {
    if entries != [] {
      var n := |entries| - 1;
      var init := entries[..n];
      InFirst(init);
      assert forall k: nat :: k < n ==> init[k] == entries[k];
      assert entries[n].text in FirstIds(entries) && entries[n].id in FirstTexts(entries);
    }
  }

  /** The added tokens map a text to the id of its last entry, and an id to the text of its last entry. */
  lemma AddedMaps(added: seq<Entry>)
    ensures forall k: nat :: LastText(added, k) ==> added[k].text in LastIds(added) && LastIds(added)[added[k].text] == added[k].id
    ensures forall k: nat :: LastId(added, k) ==> MapsTo(LastTexts(added), added[k].id, added[k].text)
  {
    hide LastIds, LastTexts, MapsTo;
    forall k: nat | LastText(added, k) ensures added[k].text in LastIds(added) && LastIds(added)[added[k].text] == added[k].id {
      LastTextMaps(added, k);
    }
    forall k: nat | LastId(added, k) ensures MapsTo(LastTexts(added), added[k].id, added[k].text) {
      LastIdMaps(added, k);
    }
  }

  lemma {:induction false} LastTextMaps(added: seq<Entry>, k: nat)
    requires LastText(added, k)
    ensures added[k].text in LastIds(added) && LastIds(added)[added[k].text] == added[k].id
    decreases |added|
  {
    var n := |added| - 1;
    if k < n {
      assert added[n].text != added[k].text;
      assert LastText(added[..n], k);
      LastTextMaps(added[..n], k);
    }
  }

  lemma {:induction false} LastIdMaps(added: seq<Entry>, k: nat)
    requires LastId(added, k)
    ensures MapsTo(LastTexts(added), added[k].id, added[k].text)
    decreases |added|
  {
    var n := |added| - 1;
    if k < n {
      assert added[n].id != added[k].id;
      assert LastId(added[..n], k);
      LastIdMaps(added[..n], k);
    }
  }

  // ---------------------------------------------------------------- merging

  /** Entry `k` of the merges is for these two symbols. */
  predicate Listed(merges: seq<Merge>, a: Bytes, b: Bytes, k: nat) {
    k < |merges| && merges[k].left + [0x20] + merges[k].right == a + [0x20] + b
  }

  ghost predicate Keyed(merges: seq<Merge>, key: Bytes, k: nat) {
    k < |merges| && merges[k].left + [0x20] + merges[k].right == key
  }

  lemma {:induction false} KeyRank(merges: seq<Merge>, key: Bytes)
    ensures key in Ranks(merges) ==> Ranks(merges)[key] >= 0 && Keyed(merges, key, Ranks(merges)[key]) && forall j: nat :: j < Ranks(merges)[key] ==> !Keyed(merges, key, j)
    ensures key !in Ranks(merges) ==> forall j: nat :: !Keyed(merges, key, j)
    decreases |merges|
  {
    if merges != [] {
      var n := |merges| - 1;
      KeyRank(merges[..n], key);
      KeyedBefore(merges, key);
      RanksStep(merges, key);
      hide Ranks, Keyed;
    }
  }

  lemma KeyedBefore(merges: seq<Merge>, key: Bytes)
    requires merges != []
    ensures forall k: nat :: Keyed(merges, key, k) <==> Keyed(merges[..|merges| - 1], key, k) || (k == |merges| - 1 && Keyed(merges, key, k))
  {
  }

  lemma RanksStep(merges: seq<Merge>, key: Bytes)
    requires merges != []
    ensures var n := |merges| - 1;
      && (key in Ranks(merges) <==> key in Ranks(merges[..n]) || Keyed(merges, key, n))
      && (key in Ranks(merges) ==> Ranks(merges)[key] == if key in Ranks(merges[..n]) then Ranks(merges[..n])[key] else n)
      && forall k: nat :: Keyed(merges[..n], key, k) ==> k < n
  {
  }

  /** The rank of two symbols is the place of the first merge for them. */
  lemma RankListed(merges: seq<Merge>, a: Bytes, b: Bytes)
    ensures forall k: nat :: Listed(merges, a, b, k) && (forall j: nat :: j < k ==> !Listed(merges, a, b, j)) ==> QwenRank(Ranks(merges))(a, b) == k
    ensures (forall k: nat :: !Listed(merges, a, b, k)) ==> QwenRank(Ranks(merges))(a, b) == NoRank
    ensures var r := QwenRank(Ranks(merges))(a, b); r == NoRank || (r >= 0 && Listed(merges, a, b, r))
  {
    var key := a + [0x20] + b;
    assert forall k: nat :: Listed(merges, a, b, k) <==> Keyed(merges, key, k);
    KeyRank(merges, key);
    hide Listed, Keyed, Ranks;
  }

  ghost predicate PairListed(merges: seq<Merge>, symbols: seq<Bytes>, i: nat, k: nat) {
    i + 1 < |symbols| && Listed(merges, symbols[i], symbols[i + 1], k)
  }

  /** Pair `i` is what merge `k` is for, no pair is for an earlier merge, and none further left is for
      this one. */
  ghost predicate FirstMerge(merges: seq<Merge>, symbols: seq<Bytes>, i: nat, k: nat) {
    && PairListed(merges, symbols, i, k)
    && forall j: nat, x: nat :: PairListed(merges, symbols, j, x) ==> k < x || (k == x && i <= j)
  }

  /** Each round applies the earliest merge of the file that applies anywhere, at the leftmost place. */
  lemma MergesInFileOrder(merges: seq<Merge>, symbols: seq<Bytes>, i: nat, k: nat)
    requires FirstMerge(merges, symbols, i, k) && k < NoRank
    ensures var rank := QwenRank(Ranks(merges));
      MergeAll(rank, symbols) == MergeAll(rank, symbols[..i] + [symbols[i] + symbols[i + 1]] + symbols[i + 2..])
  {
    hide QwenRank, Ranks, Listed, MergeAll, Merged;
    var rank := QwenRank(Ranks(merges));
    FirstRank(merges, symbols, i, k);
    forall j: nat | j + 1 < |symbols| ensures PairRank(rank, symbols, j) >= k && (j < i ==> PairRank(rank, symbols, j) > k) {
      PairNotBelow(merges, symbols, j, if j < i then k + 1 else k);
    }
    MergeBest(rank, symbols, i);
    MergedIs(symbols, i);
  }

  lemma FirstRank(merges: seq<Merge>, symbols: seq<Bytes>, i: nat, k: nat)
    requires FirstMerge(merges, symbols, i, k)
    ensures PairRank(QwenRank(Ranks(merges)), symbols, i) == k
  {
    hide QwenRank, Ranks, Listed;
    var a, b := symbols[i], symbols[i + 1];
    RankListed(merges, a, b);
    forall j: nat | j < k ensures !Listed(merges, a, b, j) {
      assert PairListed(merges, symbols, i, j) <==> Listed(merges, a, b, j);
    }
  }

  lemma PairNotBelow(merges: seq<Merge>, symbols: seq<Bytes>, j: nat, k: nat)
    requires j + 1 < |symbols| && k <= NoRank && forall x: nat :: PairListed(merges, symbols, j, x) ==> x >= k
    ensures PairRank(QwenRank(Ranks(merges)), symbols, j) >= k
  {
    hide QwenRank, Ranks, Listed;
    RankListed(merges, symbols[j], symbols[j + 1]);
    var r := PairRank(QwenRank(Ranks(merges)), symbols, j);
    assert r >= 0 ==> (PairListed(merges, symbols, j, r) <==> Listed(merges, symbols[j], symbols[j + 1], r));
  }

  lemma MergedIs(symbols: seq<Bytes>, i: nat)
    requires i + 1 < |symbols|
    ensures Merged(symbols, i) == symbols[..i] + [symbols[i] + symbols[i + 1]] + symbols[i + 2..]
  {
  }

  /** It ends when no merge of the file applies. */
  lemma MergesUntilNone(merges: seq<Merge>, symbols: seq<Bytes>)
    requires forall j: nat, x: nat :: PairListed(merges, symbols, j, x) ==> x >= NoRank
    ensures MergeAll(QwenRank(Ranks(merges)), symbols) == symbols
  {
    var rank := QwenRank(Ranks(merges));
    hide QwenRank, Ranks, Listed, MergeAll;
    forall j: nat | j + 1 < |symbols| ensures PairRank(rank, symbols, j) >= NoRank {
      PairNotBelow(merges, symbols, j, NoRank);
    }
    MergeDone(rank, symbols);
  }

  /** With ranks for whole tokens, as tiktoken has them, each round joins the two neighbours that make the
      token of the lowest rank, at the leftmost place. */
  ghost predicate LowestToken(ranks: Table, symbols: seq<Bytes>, i: nat) {
    && i + 1 < |symbols| && symbols[i] + symbols[i + 1] in ranks
    && forall j: nat :: j + 1 < |symbols| && symbols[j] + symbols[j + 1] in ranks ==>
         var a, b := ranks[symbols[i] + symbols[i + 1]], ranks[symbols[j] + symbols[j + 1]];
         a < b || (a == b && i <= j)
  }

  lemma MergesByRank(ranks: Table, symbols: seq<Bytes>)
    requires RanksInRange(ranks)
    ensures forall i: nat :: LowestToken(ranks, symbols, i) ==>
      MergeAll(Lookup(ranks), symbols) == MergeAll(Lookup(ranks), symbols[..i] + [symbols[i] + symbols[i + 1]] + symbols[i + 2..])
    ensures (forall j: nat :: j + 1 < |symbols| ==> symbols[j] + symbols[j + 1] !in ranks) ==> MergeAll(Lookup(ranks), symbols) == symbols
  {
    var rank := Lookup(ranks);
    hide MergeAll, Merged;
    forall i: nat | LowestToken(ranks, symbols, i)
      ensures MergeAll(rank, symbols) == MergeAll(rank, symbols[..i] + [symbols[i] + symbols[i + 1]] + symbols[i + 2..])
    {
      MergeBest(rank, symbols, i);
      MergedIs(symbols, i);
    }
    if forall j: nat :: j + 1 < |symbols| ==> symbols[j] + symbols[j + 1] !in ranks {
      MergeDone(rank, symbols);
    }
  }

  // ---------------------------------------------------------------- ids and bytes

  ghost predicate AllIn(table: Table, symbols: seq<Bytes>) {
    forall k: nat :: k < |symbols| ==> symbols[k] in table
  }

  ghost predicate IdsOf(table: Table, symbols: seq<Bytes>, ids: seq<int>) {
    |ids| == |symbols| && forall k: nat :: k < |symbols| ==> symbols[k] in table && ids[k] == table[symbols[k]]
  }

  /** A word's ids are looked up symbol by symbol, after its bytes as letters were merged. */
  lemma WordSymbols(t: Tables, word: Bytes) returns (letters: seq<Bytes>)
    ensures |letters| == |word| && forall k: nat :: k < |word| ==> Encode(Letter(word[k])) == Some(letters[k])
    ensures var symbols := MergeAll(QwenRank(t.mergeRanks), letters);
      && (WordIds(t, word).Some? <==> AllIn(t.encoder, symbols))
      && (WordIds(t, word).Some? ==> IdsOf(t.encoder, symbols, WordIds(t, word).value))
  {
    hide Encode, Letter, MergeAll, QwenRank, Glyphs, Ids;
    letters := Glyphs(word);
    GlyphsAre(word);
    IdsAt(t.encoder, MergeAll(QwenRank(t.mergeRanks), letters));
  }

  lemma {:induction false} GlyphsAre(word: Bytes)
    ensures forall k: nat :: k < |word| ==> Encode(Letter(word[k])) == Some(Glyphs(word)[k])
    decreases |word|
  {
    hide Glyph, Encode, Letter;
    if word != [] {
      var n := |word| - 1;
      GlyphsAre(word[..n]);
      GlyphIs(word[n]);
      forall k: nat | k < |word| ensures Encode(Letter(word[k])) == Some(Glyphs(word)[k]) {
        if k < n {
          assert word[..n][k] == word[k];
        }
      }
    }
  }

  lemma {:induction false} IdsAt(table: Table, symbols: seq<Bytes>)
    ensures Ids(table, symbols).Some? <==> AllIn(table, symbols)
    ensures Ids(table, symbols).Some? ==> IdsOf(table, symbols, Ids(table, symbols).value)
    decreases |symbols|
  {
    if symbols != [] {
      var n := |symbols| - 1;
      IdsAt(table, symbols[..n]);
      assert forall k: nat :: k < n ==> symbols[..n][k] == symbols[k];
    }
  }

  /** What an id stands for: the text of a special token; otherwise the bytes whose letters its vocabulary
      entry is written in. */
  ghost predicate StandsFor(t: Tables, id: int, bytes: Bytes) {
    if id in t.specialDecoder then bytes == t.specialDecoder[id]
    else id in t.decoder && Cpts(t.decoder[id]) == Some(Letters(bytes))
  }

  /** Decoding puts together what the ids stand for. */
  lemma {:induction false} DecodedParts(t: Tables, ids: seq<int>) returns (parts: seq<Bytes>)
    requires Decoded(t, ids).Some?
    ensures |parts| == |ids| && Flat(parts) == Decoded(t, ids).value && forall k: nat :: k < |ids| ==> StandsFor(t, ids[k], parts[k])
    decreases |ids|
  {
    hide IdBytes, StandsFor, Flat;
    if ids == [] {
      parts := [];
      FlatNone();
    } else {
      var n := |ids| - 1;
      var init := DecodedParts(t, ids[..n]);
      var last := IdBytes(t, ids[n]).value;
      parts := init + [last];
      FlatConcat(init, [last]);
      FlatOne(last);
      IdStandsFor(t, ids[n]);
    }
  }

  lemma IdStandsFor(t: Tables, id: int)
    requires IdBytes(t, id).Some?
    ensures StandsFor(t, id, IdBytes(t, id).value)
  {
    hide Unspelled, Letters, Cpts;
    if id !in t.specialDecoder {
      UnspelledIs(Cpts(t.decoder[id]).value);
    }
  }

  lemma {:induction false} UnspelledIs(cpts: seq<nat>)
    requires Unspelled(cpts).Some?
    ensures Letters(Unspelled(cpts).value) == cpts
  {
    hide Letter;
    if cpts != [] {
      UnspelledIs(cpts[1..]);
    }
  }
}
