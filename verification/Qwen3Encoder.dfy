/** The class of layers/src/encode.cpp: building the tables, encoding and decoding, as the program runs
    them. What they compute is what Tokenizer says. */
module Qwen3Encoder {
  import opened Common
  import opened Utf8
  import opened ByteAlphabet
  import opened Splitter
  import opened Bpe
  import opened Segments
  import opened Tokenizer

  /** The tokenizer file: vocabulary, merges in order of rank, and added tokens. */
  datatype Entry = Entry(text: Bytes, id: int)

  datatype Merge = Merge(left: Bytes, right: Bytes)

  /** Why encoding or decoding throws. */
  datatype Fault = BadUtf8 | BadCodePoint | MissingSymbol | UnknownId | NotALetter

  datatype Outcome<+T> = Done(value: T) | Thrown(fault: Fault)

  // ---------------------------------------------------------------- the tables

  /** emplace keeps the first entry of a key, assignment the last. */
  function FirstIds(entries: seq<Entry>): Table {
    if entries == [] then map[]
    else
      var m, last := FirstIds(entries[..|entries| - 1]), entries[|entries| - 1];
      if last.text in m then m else m[last.text := last.id]
  }

  function FirstTexts(entries: seq<Entry>): map<int, Bytes> {
    if entries == [] then map[]
    else
      var m, last := FirstTexts(entries[..|entries| - 1]), entries[|entries| - 1];
      if last.id in m then m else m[last.id := last.text]
  }

  function LastIds(entries: seq<Entry>): Table {
    if entries == [] then map[]
    else LastIds(entries[..|entries| - 1])[entries[|entries| - 1].text := entries[|entries| - 1].id]
  }

  function LastTexts(entries: seq<Entry>): map<int, Bytes> {
    if entries == [] then map[]
    else LastTexts(entries[..|entries| - 1])[entries[|entries| - 1].id := entries[|entries| - 1].text]
  }

  /** The rank of a merge is its place in the list; the first of equal ones counts. */
  function Ranks(merges: seq<Merge>): Table {
    if merges == [] then map[]
    else
      var n := |merges| - 1;
      var m, key := Ranks(merges[..n]), merges[n].left + [0x20] + merges[n].right;
      if key in m then m else m[key := n]
  }

  function Texts(entries: seq<Entry>): (r: seq<Bytes>)
    ensures |r| == |entries|
  {
    if entries == [] then [] else Texts(entries[..|entries| - 1]) + [entries[|entries| - 1].text]
  }

  ghost predicate UniqueIds(entries: seq<Entry>) {
    forall a: nat, b: nat :: a < b < |entries| ==> entries[a].id != entries[b].id
  }

  ghost predicate UniqueTexts(entries: seq<Entry>) {
    forall a: nat, b: nat :: a < b < |entries| ==> entries[a].text != entries[b].text
  }

  ghost predicate HasId(entries: seq<Entry>, id: int) {
    exists k: nat :: k < |entries| && entries[k].id == id
  }

  lemma {:induction false} FirstMaps(entries: seq<Entry>)
    requires UniqueIds(entries) && UniqueTexts(entries)
    ensures forall id: int :: id in FirstTexts(entries) <==> HasId(entries, id)
    ensures forall s: Bytes :: s in FirstIds(entries) ==> MapsTo(FirstTexts(entries), FirstIds(entries)[s], s)
    decreases |entries|
  {
    if entries != [] {
      var n := |entries| - 1;
      var init, last := entries[..n], entries[n];
      FirstMaps(init);
      HasIdSnoc(init, last);
      assert entries == init + [last];
      FirstFresh(entries);
    }
  }

  lemma HasIdSnoc(entries: seq<Entry>, last: Entry)
    ensures forall id: int :: HasId(entries + [last], id) <==> (HasId(entries, id) || id == last.id)
  {
    var all := entries + [last];
    forall id: int ensures HasId(all, id) <==> (HasId(entries, id) || id == last.id) {
      if HasId(entries, id) {
        var k: nat :| k < |entries| && entries[k].id == id;
        assert all[k].id == id;
      }
      if id == last.id {
        assert all[|entries|].id == id;
      }
    }
  }

  lemma FirstFresh(entries: seq<Entry>)
    requires UniqueIds(entries) && entries != []
    ensures !HasId(entries[..|entries| - 1], entries[|entries| - 1].id)
  {
    var n := |entries| - 1;
    assert forall k: nat :: k < n ==> entries[..n][k].id == entries[k].id != entries[n].id;
  }

  lemma LastKeys(entries: seq<Entry>)
    ensures forall s: Bytes :: s in LastIds(entries) <==> s in Texts(entries)
  {
  }

  lemma {:induction false} LastMaps(entries: seq<Entry>)
    requires UniqueIds(entries)
    ensures forall id: int :: id in LastTexts(entries) <==> HasId(entries, id)
    ensures forall s: Bytes :: s in LastIds(entries) <==> s in Texts(entries)
    ensures forall s: Bytes :: s in LastIds(entries) ==> MapsTo(LastTexts(entries), LastIds(entries)[s], s)
    ensures forall s: Bytes :: s in LastIds(entries) ==> HasId(entries, LastIds(entries)[s])
    decreases |entries|
  {
    if entries != [] {
      var n := |entries| - 1;
      var init, last := entries[..n], entries[n];
      LastMaps(init);
      HasIdSnoc(init, last);
      assert entries == init + [last];
      FirstFresh(entries);
    }
  }

  /** std::sort by descending length: some order of the same tokens. */
  ghost predicate SortedTokens(tokens: seq<Bytes>, from: seq<Bytes>) {
    LongestFirst(tokens) && multiset(tokens) == multiset(from)
  }

  lemma SortedMembers(tokens: seq<Bytes>, from: seq<Bytes>)
    requires multiset(tokens) == multiset(from)
    ensures forall s: Bytes :: s in tokens <==> s in from
  {
    forall s: Bytes ensures s in tokens <==> s in from {
      assert s in tokens <==> s in multiset(tokens);
      assert s in from <==> s in multiset(from);
    }
  }

  /** If ids are unique, those of the added tokens are not in the vocabulary, and the added tokens are
      non-empty and well formed, every id leads back to what it was given for. */
  lemma TablesReversible(t: Tables, vocab: seq<Entry>, added: seq<Entry>)
    requires t.encoder == FirstIds(vocab) && t.decoder == FirstTexts(vocab)
    requires t.specialEncoder == LastIds(added) && t.specialDecoder == LastTexts(added) && SortedTokens(t.specialTokens, Texts(added))
    requires UniqueIds(vocab) && UniqueTexts(vocab) && UniqueIds(added)
    requires forall id: int :: HasId(vocab, id) ==> !HasId(added, id)
    requires forall s: Bytes :: s in Texts(added) ==> s != [] && ShortestForm(s)
    ensures Reversible(t)
  {
    hide FirstIds, FirstTexts, LastIds, LastTexts, ShortestForm, HasId;
    FirstMaps(vocab);
    LastMaps(added);
    SortedMembers(t.specialTokens, Texts(added));
  }

  class Qwen3EncodeLayer {
    const t: Tables
    const hasBos: bool
    const hasEos: bool
    const endOfTextId: int
    const eosId: int

    const byteToUtf8: map<Byte, Bytes>
    const utf8ToByte: map<Bytes, Byte>

    /** The byte maps are those of the byte alphabet, and every special token has its id. */
    ghost predicate Valid() {
      && (forall s: Bytes :: s in t.specialTokens ==> s in t.specialEncoder)
      && (forall b: Byte :: b in byteToUtf8 && byteToUtf8[b] == Glyph(b))
      && (forall b: Byte :: Glyph(b) in utf8ToByte && utf8ToByte[Glyph(b)] == b)
      && (forall g: Bytes :: g in utf8ToByte ==> g == Glyph(utf8ToByte[g]))
    }

    constructor (vocab: seq<Entry>, merges: seq<Merge>, added: seq<Entry>, endOfText: Bytes, imEnd: Bytes, classes: Classes, hasBos: bool, hasEos: bool)
      ensures Valid() && t.encoder == FirstIds(vocab) && t.decoder == FirstTexts(vocab) && t.mergeRanks == Ranks(merges)
      ensures t.specialEncoder == LastIds(added) && t.specialDecoder == LastTexts(added) && SortedTokens(t.specialTokens, Texts(added))
      ensures t.classes == classes && this.hasBos == hasBos && this.hasEos == hasEos
      ensures endOfTextId == (if endOfText in t.specialEncoder then t.specialEncoder[endOfText] else -1)
      ensures eosId == (if imEnd in t.specialEncoder then t.specialEncoder[imEnd] else endOfTextId)
    {
      hide Glyph;
      var encoder, decoder := Vocabulary(vocab);
      var mergeRanks := MergeRanks(merges);
      var specialEncoder, specialDecoder, texts := Specials(added);
      var specialTokens := SortByLength(texts);
      LastKeys(added);
      SortedMembers(specialTokens, texts);
      t := Tables(encoder, decoder, mergeRanks, specialEncoder, specialDecoder, specialTokens, classes);
      this.hasBos, this.hasEos := hasBos, hasEos;
      var e := if endOfText in specialEncoder then specialEncoder[endOfText] else -1;
      endOfTextId := e;
      eosId := if imEnd in specialEncoder then specialEncoder[imEnd] else e;
      var there := ByteToUtf8Map();
      var back := Utf8ToByteMap();
      byteToUtf8, utf8ToByte := there, back;
    }

    static method Vocabulary(vocab: seq<Entry>) returns (encoder: Table, decoder: map<int, Bytes>)
      ensures encoder == FirstIds(vocab) && decoder == FirstTexts(vocab)
    {
      encoder, decoder := map[], map[];
      var k := 0;
      while k < |vocab|
        invariant 0 <= k <= |vocab| && encoder == FirstIds(vocab[..k]) && decoder == FirstTexts(vocab[..k])
      {
        assert vocab[..k + 1][..k] == vocab[..k];
        if vocab[k].text !in encoder {
          encoder := encoder[vocab[k].text := vocab[k].id];
        }
        if vocab[k].id !in decoder {
          decoder := decoder[vocab[k].id := vocab[k].text];
        }
        k := k + 1;
      }
      assert vocab[..k] == vocab;
    }

    static method MergeRanks(merges: seq<Merge>) returns (ranks: Table)
      ensures ranks == Ranks(merges)
    {
      ranks := map[];
      var rank := 0;
      while rank < |merges|
        invariant 0 <= rank <= |merges| && ranks == Ranks(merges[..rank])
      {
        assert merges[..rank + 1][..rank] == merges[..rank];
        var key := merges[rank].left + [0x20] + merges[rank].right;
        if key !in ranks {
          ranks := ranks[key := rank];
        }
        rank := rank + 1;
      }
      assert merges[..rank] == merges;
    }

    static method Specials(added: seq<Entry>) returns (ids: Table, texts: map<int, Bytes>, tokens: seq<Bytes>)
      ensures ids == LastIds(added) && texts == LastTexts(added) && tokens == Texts(added)
    {
      ids, texts, tokens := map[], map[], [];
      var k := 0;
      while k < |added|
        invariant 0 <= k <= |added| && ids == LastIds(added[..k]) && texts == LastTexts(added[..k]) && tokens == Texts(added[..k])
      {
        assert added[..k + 1][..k] == added[..k];
        ids := ids[added[k].text := added[k].id];
        texts := texts[added[k].id := added[k].text];
        tokens := tokens + [added[k].text];
        k := k + 1;
      }
      assert added[..k] == added;
    }

    static method SortByLength(tokens: seq<Bytes>) returns (sorted: seq<Bytes>)
      ensures SortedTokens(sorted, tokens)
    {
      sorted := [];
      var k := 0;
      while k < |tokens|
        invariant 0 <= k <= |tokens| && SortedTokens(sorted, tokens[..k])
      {
        assert tokens[..k + 1] == tokens[..k] + [tokens[k]];
        var i := |sorted|;
        while i > 0 && |sorted[i - 1]| < |tokens[k]|
          invariant 0 <= i <= |sorted| && forall j: nat :: i <= j < |sorted| ==> |sorted[j]| < |tokens[k]|
        {
          i := i - 1;
        }
        InsertToken(sorted, tokens[k], i);
        sorted := sorted[..i] + [tokens[k]] + sorted[i..];
        k := k + 1;
      }
      assert tokens[..k] == tokens;
    }

    static lemma InsertToken(sorted: seq<Bytes>, s: Bytes, i: nat)
      requires LongestFirst(sorted) && i <= |sorted|
      requires (forall j: nat :: i <= j < |sorted| ==> |sorted[j]| < |s|) && (i > 0 ==> |sorted[i - 1]| >= |s|)
      ensures LongestFirst(sorted[..i] + [s] + sorted[i..])
      ensures multiset(sorted[..i] + [s] + sorted[i..]) == multiset(sorted) + multiset{s}
    {
      InsertCount(sorted, s, i);
      var more := sorted[..i] + [s] + sorted[i..];
      forall k: nat | k + 1 < |more| ensures |more[k]| >= |more[k + 1]| {
        if k + 1 < i {
          assert more[k] == sorted[k] && more[k + 1] == sorted[k + 1];
        } else if k > i {
          assert more[k] == sorted[k - 1] && more[k + 1] == sorted[k];
        }
      }
      forall a: nat, b: nat | a < b < |more| ensures |more[a]| >= |more[b]| {
        Descends(more, a, b);
      }
    }

    static lemma {:induction false} Descends(tokens: seq<Bytes>, a: nat, b: nat)
      requires forall k: nat :: k + 1 < |tokens| ==> |tokens[k]| >= |tokens[k + 1]|
      requires a < b < |tokens|
      ensures |tokens[a]| >= |tokens[b]|
      decreases b
    {
      assert |tokens[b - 1]| >= |tokens[b - 1 + 1]|;
      if a < b - 1 {
        Descends(tokens, a, b - 1);
      }
    }

    static lemma InsertCount(sorted: seq<Bytes>, s: Bytes, i: nat)
      requires i <= |sorted|
      ensures multiset(sorted[..i] + [s] + sorted[i..]) == multiset(sorted) + multiset{s}
    {
      assert sorted == sorted[..i] + sorted[i..];
    }

    // -------------------------------------------------------------- encoding

    /** encode_piece. */
    method EncodePiece(piece: Bytes, ghost word: Bytes) returns (r: Outcome<seq<int>>)
      requires piece == Spelled(word)
      ensures r == match WordIds(t, word) case Some(ids) => Done(ids) case None => Thrown(MissingSymbol)
    {
      hide MergeAll, Spelled, Encode, Glyph;
      if piece == [] {
        EmptyWord(word);
        return Done([]);
      }
      CptsOfSpelled(word);
      var cpts := CptsFromUtf8(piece);
      ghost var letters := cpts.value;
      var symbols: seq<Bytes> := [];
      var i := 0;
      while i < |cpts.value|
        invariant 0 <= i <= |word| && symbols == Glyphs(word[..i])
      {
        LetterAt(word, i);
        GlyphIs(word[i]);
        assert word[..i + 1][..i] == word[..i];
        symbols := symbols + [Encode(cpts.value[i]).value];
        i := i + 1;
      }
      assert word[..i] == word;
      symbols := MergeSymbols(QwenRank(t.mergeRanks), symbols);
      var ids := [];
      i := 0;
      while i < |symbols|
        invariant 0 <= i <= |symbols| && Ids(t.encoder, symbols[..i]) == Some(ids)
      {
        assert symbols[..i + 1][..i] == symbols[..i] && symbols[..i + 1][i] == symbols[i];
        if symbols[i] !in t.encoder {
          IdsPrefix(t.encoder, symbols, i + 1);
          return Thrown(MissingSymbol);
        }
        ids := ids + [t.encoder[symbols[i]]];
        i := i + 1;
      }
      assert symbols[..i] == symbols;
      return Done(ids);
    }

    lemma EmptyWord(word: Bytes)
      requires Spelled(word) == []
      ensures WordIds(t, word) == Some([])
    {
      if word == [] {
        assert MergeAll(QwenRank(t.mergeRanks), Glyphs(word)) == [];
      }
    }

    static lemma {:induction false} LetterAt(word: Bytes, i: nat)
      requires i < |word|
      ensures Letters(word)[i] == Letter(word[i])
    {
      hide Letter;
      if i > 0 {
        LetterAt(word[1..], i - 1);
      }
    }

    /** unicode_regex_split with the pattern of Qwen3, up to the byte encoding of its words. */
    method SplitWords(text: Bytes) returns (r: Outcome<seq<Bytes>>)
      requires text != []
      ensures r == Thrown(BadUtf8) <==> Cpts(text).None?
      ensures r == Thrown(BadCodePoint) <==> Cpts(text).Some? && Rewritten(text).None?
      ensures r.Thrown? ==> r.fault == BadUtf8 || r.fault == BadCodePoint
      ensures r.Done? ==> Rewritten(text).Some? && r.value == WordsOf(Cpts(text).value, Pieces(t.classes, Cpts(text).value))
    {
      hide Encode, First, Cpts, ToUtf8, GoodPiece, WordsOf, PieceBytes, Sum, Pieces, Regions;
      var decoded := CptsFromUtf8(text);
      if decoded.None? {
        return Thrown(BadUtf8);
      }
      var cpts := decoded.value;
      OneRegion(t.classes, cpts);
      var sizes := Split(t.classes, cpts, [|cpts|]);
      var words := [];
      var start := 0;
      var k := 0;
      NoWords(cpts, sizes);
      while k < |sizes|
        invariant 0 <= k <= |sizes| && start == Sum(sizes[..k]) && start <= |cpts|
        invariant ToUtf8(cpts[..start]).Some?
        invariant words == WordsOf(cpts, sizes[..k])
      {
        NextSum(sizes, k);
        assert sizes[..k + 1] == sizes[..k] + [sizes[k]];
        NextWord(cpts, sizes[..k], sizes[k]);
        var word := Reassemble(cpts, start, sizes[k]);
        SplitAt(cpts, start, start + sizes[k]);
        if word.None? {
          return Thrown(BadCodePoint);
        }
        words := words + [word.value];
        start := start + sizes[k];
        k := k + 1;
      }
      assert sizes[..k] == sizes && cpts[..start] == cpts;
      return Done(words);
    }

    static lemma NoWords(cpts: seq<nat>, sizes: seq<nat>)
      ensures sizes[..0] == [] && Sum(sizes[..0]) == 0 && WordsOf(cpts, sizes[..0]) == [] && ToUtf8(cpts[..0]) == Some([])
    {
    }

    /** One piece more is one word more. */
    static lemma NextWord(cpts: seq<nat>, before: seq<nat>, n: nat)
      requires Sum(before) + n <= |cpts|
      ensures Sum(before + [n]) == Sum(before) + n
      ensures WordsOf(cpts, before + [n]) == WordsOf(cpts, before) + [PieceBytes(cpts, Sum(before), Sum(before) + n)]
      ensures ToUtf8(cpts[Sum(before)..Sum(before) + n]).Some? ==>
                PieceBytes(cpts, Sum(before), Sum(before) + n) == ToUtf8(cpts[Sum(before)..Sum(before) + n]).value
    {
      hide *;
      SumSnoc(before, n);
      WordsSnoc(cpts, before, n);
      PieceIs(cpts, Sum(before), Sum(before) + n);
    }

    static lemma PieceIs(cpts: seq<nat>, start: nat, end: nat)
      requires start <= end <= |cpts|
      ensures ToUtf8(cpts[start..end]).Some? ==> PieceBytes(cpts, start, end) == ToUtf8(cpts[start..end]).value
    {
      hide ToUtf8;
    }

    static lemma WordsSnoc(cpts: seq<nat>, sizes: seq<nat>, n: nat)
      ensures WordsOf(cpts, sizes + [n]) == WordsOf(cpts, sizes) + [PieceBytes(cpts, Sum(sizes), Sum(sizes + [n]))]
    {
      hide PieceBytes, Sum;
      assert (sizes + [n])[..|sizes|] == sizes;
    }

    static lemma NextSum(sizes: seq<nat>, k: nat)
      requires k < |sizes|
      ensures Sum(sizes[..k + 1]) == Sum(sizes[..k]) + sizes[k] <= Sum(sizes)
    {
      hide Sum;
      assert sizes[..k + 1] == sizes[..k] + [sizes[k]];
      SumSnoc(sizes[..k], sizes[k]);
      SumPrefix(sizes, k + 1);
    }

    /** The bytes of one piece. */
    static method Reassemble(cpts: seq<nat>, start: nat, size: nat) returns (word: Option<Bytes>)
      requires start + size <= |cpts|
      ensures word == ToUtf8(cpts[start..start + size])
    {
      hide Encode;
      var bytes: Bytes := [];
      var i := start;
      assert cpts[start..start] == [];
      while i < start + size
        invariant start <= i <= start + size && ToUtf8(cpts[start..i]) == Some(bytes)
      {
        assert cpts[start..i + 1] == cpts[start..i] + [cpts[i]];
        ToUtf8Concat(cpts[start..i], [cpts[i]]);
        OneCpt(cpts[i]);
        var e := Encode(cpts[i]);
        if e.None? {
          ToUtf8Concat(cpts[start..i + 1], cpts[i + 1..start + size]);
          assert cpts[start..start + size] == cpts[start..i + 1] + cpts[i + 1..start + size];
          return None;
        }
        bytes := bytes + e.value;
        i := i + 1;
      }
      return Some(bytes);
    }

    static lemma OneCpt(cp: nat)
      ensures ToUtf8([cp]) == Encode(cp)
    {
      hide Encode;
      assert [cp][1..] == [];
      assert Encode(cp).Some? ==> Encode(cp).value + [] == Encode(cp).value;
    }

    static lemma SplitAt(cpts: seq<nat>, a: nat, b: nat)
      requires a <= b <= |cpts| && ToUtf8(cpts[..a]).Some?
      ensures ToUtf8(cpts[..b]).Some? <==> ToUtf8(cpts[a..b]).Some?
      ensures ToUtf8(cpts[a..b]).None? ==> ToUtf8(cpts).None?
    {
      hide ToUtf8;
      ToUtf8Concat(cpts[..a], cpts[a..b]);
      assert cpts[..b] == cpts[..a] + cpts[a..b];
      ToUtf8Concat(cpts[..b], cpts[b..]);
      assert cpts == cpts[..b] + cpts[b..];
    }

    /** unicode_byte_encoding_process on one word: decoded, encoded again, and spelled out byte by byte. */
    method ByteEncode(word: Bytes) returns (spelled: Bytes)
      requires Valid() && ShortestForm(word)
      ensures spelled == Spelled(word)
    {
      hide Glyph, Encode, First, ShortestForm;
      Utf8OfCpts(word);
      var cpts := CptsFromUtf8(word);
      assert cpts.value[0..|cpts.value|] == cpts.value;
      var again := Reassemble(cpts.value, 0, |cpts.value|);
      spelled := [];
      var i := 0;
      while i < |again.value|
        invariant 0 <= i <= |word| && spelled == Spelled(word[..i])
      {
        assert word[..i + 1] == word[..i] + [word[i]];
        SpelledConcat(word[..i], [word[i]]);
        SpelledOne(word[i]);
        spelled := spelled + byteToUtf8[again.value[i]];
        i := i + 1;
      }
      assert word[..i] == word;
    }

    /** encode_ordinary. */
    method EncodeOrdinary(text: Bytes) returns (r: Outcome<seq<int>>)
      requires Valid() && text != []
      ensures r == Thrown(BadUtf8) <==> Cpts(text).None?
      ensures r == Thrown(BadCodePoint) <==> Cpts(text).Some? && Rewritten(text).None?
      ensures r.Thrown? ==> r.fault == BadUtf8 || r.fault == BadCodePoint || r.fault == MissingSymbol
      ensures r.Done? <==> OrdinaryIds(t, text).Some?
      ensures r.Done? ==> OrdinaryIds(t, text) == Some(r.value)
    {
      hide Glyph, Encode, First, WordIds, Spelled, ShortestForm, Pieces;
      var split := SplitWords(text);
      if split.Thrown? {
        return Thrown(split.fault);
      }
      var words := split.value;
      var ids := [];
      var k := 0;
      while k < |words|
        invariant 0 <= k <= |words| && AllWordIds(t, words[..k]) == Some(ids)
      {
        WordShortest(Cpts(text).value, Pieces(t.classes, Cpts(text).value), k);
        var spelled := ByteEncode(words[k]);
        var piece := EncodePiece(spelled, words[k]);
        assert words[..k + 1][..k] == words[..k] && words[..k + 1][k] == words[k];
        if piece.Thrown? {
          AllWordIdsPrefix(t, words, k + 1);
          return Thrown(MissingSymbol);
        }
        ids := ids + piece.value;
        k := k + 1;
      }
      assert words[..k] == words;
      return Done(ids);
    }

    static lemma {:induction false} WordShortest(cpts: seq<nat>, pieces: seq<nat>, k: nat)
      requires k < |pieces|
      ensures ShortestForm(WordsOf(cpts, pieces)[k])
      decreases |pieces|
    {
      hide ToUtf8, ShortestForm, Sum;
      var n := |pieces| - 1;
      if k < n {
        WordShortest(cpts, pieces[..n], k);
      } else {
        PieceShortest(cpts, Sum(pieces[..n]), Sum(pieces));
      }
    }

    static lemma PieceShortest(cpts: seq<nat>, start: nat, end: nat)
      ensures ShortestForm(PieceBytes(cpts, start, end))
    {
      hide ToUtf8, First;
      if start <= end <= |cpts| && ToUtf8(cpts[start..end]).Some? {
        CptsOfUtf8(cpts[start..end]);
      }
    }

    /** The loop over the special tokens. */
    method FindSpecial(sentence: Bytes, cursor: nat) returns (next: Option<(nat, Bytes)>)
      ensures next == NextSpecial(t.specialTokens, sentence, cursor)
    {
      next := None;
      var k := 0;
      while k < |t.specialTokens|
        invariant 0 <= k <= |t.specialTokens| && next == NextSpecial(t.specialTokens[..k], sentence, cursor)
      {
        assert t.specialTokens[..k + 1][..k] == t.specialTokens[..k];
        var found := Find(sentence, t.specialTokens[k], cursor);
        if found.Some? && (next.None? || found.value < next.value.0) {
          next := Some((found.value, t.specialTokens[k]));
        }
        k := k + 1;
      }
      assert t.specialTokens[..k] == t.specialTokens;
    }

    /** Qwen3EncodeLayer::encode. An empty special token would be found again and again at the same place,
        so there must be none. A well-formed text is refused only for a symbol that is not in the
        vocabulary; and decoding gives the text back exactly if it is well formed. */
    method EncodeText(sentence: Bytes) returns (r: Outcome<seq<int>>)
      requires Valid() && NonEmpty(t.specialTokens)
      ensures r.Done? <==> Encoded(t, Cut(t.specialTokens, sentence, 0)).Some?
      ensures r.Done? ==>
        r.value == (if hasBos then [endOfTextId] else []) + Encoded(t, Cut(t.specialTokens, sentence, 0)).value + (if hasEos then [eosId] else [])
      ensures ShortestForm(sentence) && TokensShortest(t.specialTokens) && r.Thrown? ==> r.fault == MissingSymbol
      ensures Reversible(t) && !hasBos && !hasEos && r.Done? ==> Decoded(t, r.value).Some? && (Decoded(t, r.value) == Some(sentence) <==> ShortestForm(sentence))
    {
      hide NextSpecial, Encoded, OrdinaryIds, ShortestForm, Cpts, Reversible, Decoded, TokensShortest, NonEmpty, OccursAt, Cut, SegmentIds, Rewritten;
      ghost var all := Cut(t.specialTokens, sentence, 0);
      ghost var done: seq<Segment> := [];
      var ids := [];
      EncodedNone();
      assert [] + Cut(t.specialTokens, sentence, 0) == all;
      assert sentence[0..] == sentence;
      var cursor := 0;
      while cursor < |sentence|
        invariant 0 <= cursor <= |sentence| && done + Cut(t.specialTokens, sentence, cursor) == all
        invariant Encoded(t, done) == Some(ids)
        invariant ShortestForm(sentence) && TokensShortest(t.specialTokens) ==> ShortestForm(sentence[cursor..])
        decreases |sentence| - cursor
      {
        var next := FindSpecial(sentence, cursor);
        if next.None? {
          WholeRest(sentence, cursor);
          assert sentence[cursor..] != [];
          var rest := EncodeOrdinary(sentence[cursor..]);
          Rest(sentence[cursor..]);
          OrdinarySegment(done, sentence[cursor..], all);
          if rest.Thrown? {
            return Thrown(rest.fault);
          }
          done := done + [Ordinary(sentence[cursor..])];
          ids := ids + rest.value;
          break;
        }
        var at, special := next.value.0, next.value.1;
        CutStep(sentence, cursor, at, special);
        if at > cursor {
          assert sentence[cursor..at] != [];
          var part := EncodeOrdinary(sentence[cursor..at]);
          Rest(sentence[cursor..at]);
          OrdinarySegment(done, sentence[cursor..at], all);
          if part.Thrown? {
            return Thrown(part.fault);
          }
          done := done + [Ordinary(sentence[cursor..at])];
          ids := ids + part.value;
        }
        SpecialIds(special);
        EncodedSnoc(t, done, Special(special));
        done := done + [Special(special)];
        ids := ids + [t.specialEncoder[special]];
        cursor := at + |special|;
      }
      if cursor == |sentence| {
        NothingLeft(sentence);
      }
      assert done == all;
      ghost var inner := ids;
      ids := Frame(ids);
      if Reversible(t) && !hasBos && !hasEos {
        assert ids == inner;
        RoundTrip(t, sentence, inner);
      }
      return Done(ids);
    }

    /** The ids between the begin and the end marker, if these are asked for. */
    method Frame(inner: seq<int>) returns (ids: seq<int>)
      ensures ids == (if hasBos then [endOfTextId] else []) + inner + (if hasEos then [eosId] else [])
    {
      ids := inner;
      if hasBos {
        ids := [endOfTextId] + ids;
      }
      if hasEos {
        ids := ids + [eosId];
      }
    }

    lemma EncodedNone()
      ensures Encoded(t, []) == Some([])
    {
    }

    /** A well-formed text has code points, all of which can be written. */
    lemma Rest(text: Bytes)
      ensures ShortestForm(text) ==> Cpts(text).Some? && Rewritten(text).Some?
    {
      Utf8OfCpts(text);
      hide Cpts, ShortestForm;
    }

    /** The next segment is encoded, or the whole text cannot be. */
    lemma OrdinarySegment(done: seq<Segment>, text: Bytes, all: seq<Segment>)
      requires Encoded(t, done).Some? && done + [Ordinary(text)] <= all
      ensures OrdinaryIds(t, text).Some? ==> Encoded(t, done + [Ordinary(text)]) == Some(Encoded(t, done).value + OrdinaryIds(t, text).value)
      ensures OrdinaryIds(t, text).None? ==> Encoded(t, all).None?
    {
      hide OrdinaryIds, Encoded;
      EncodedSnoc(t, done, Ordinary(text));
      if OrdinaryIds(t, text).None? {
        assert all[..|done| + 1] == done + [Ordinary(text)];
        EncodedPrefix(t, all, |done| + 1);
      }
    }

    lemma NothingLeft(sentence: Bytes)
      requires NonEmpty(t.specialTokens)
      ensures Cut(t.specialTokens, sentence, |sentence|) == []
    {
    }

    lemma WholeRest(sentence: Bytes, cursor: nat)
      requires NonEmpty(t.specialTokens) && cursor < |sentence| && NextSpecial(t.specialTokens, sentence, cursor).None?
      ensures Cut(t.specialTokens, sentence, cursor) == [Ordinary(sentence[cursor..])]
    {
    }

    lemma SpecialIds(special: Bytes)
      requires Valid() && special in t.specialTokens
      ensures special in t.specialEncoder && SegmentIds(t, Special(special)) == Some([t.specialEncoder[special]])
    {
    }

    /** One special token further; a well-formed text is cut into well-formed ones. */
    lemma CutStep(sentence: Bytes, cursor: nat, at: nat, special: Bytes)
      requires NonEmpty(t.specialTokens) && cursor < |sentence| && NextSpecial(t.specialTokens, sentence, cursor) == Some((at, special))
      ensures special in t.specialTokens && special != [] && cursor <= at && at + |special| <= |sentence|
      ensures Cut(t.specialTokens, sentence, cursor) ==
        (if at > cursor then [Ordinary(sentence[cursor..at])] else []) + [Special(special)] + Cut(t.specialTokens, sentence, at + |special|)
      ensures ShortestForm(sentence[cursor..]) && TokensShortest(t.specialTokens) ==> ShortestForm(sentence[cursor..at]) && ShortestForm(sentence[at + |special|..])
    {
      hide ShortestForm, NextSpecial;
      if ShortestForm(sentence[cursor..]) && TokensShortest(t.specialTokens) {
        var a, b := sentence[cursor..at], sentence[at + |special|..];
        assert sentence[cursor..] == a + special + b;
        ShortestStarts(special);
        SelfSynchronising(a, special, b);
        ShortestSuffix(a, special);
        ShortestSuffix(a + special, b);
      }
    }

    // -------------------------------------------------------------- decoding

    /** The bytes of a vocabulary entry, through the inverse byte map. */
    method TokenToBytes(token: Bytes) returns (r: Outcome<Bytes>)
      requires Valid()
      ensures r.Done? <==> TokenBytes(token).Some?
      ensures r.Done? ==> TokenBytes(token) == Some(r.value)
    {
      hide Glyph, Encode, First, Letter;
      var cpts := CptsFromUtf8(token);
      if cpts.None? {
        return Thrown(BadUtf8);
      }
      var all := cpts.value;
      var bytes: Bytes := [];
      var i := 0;
      assert all[0..] == all;
      assert Unspelled(all).Some? ==> [] + Unspelled(all).value == Unspelled(all).value;
      while i < |all|
        invariant 0 <= i <= |all|
        invariant Unspelled(all) == match Unspelled(all[i..]) case None => None case Some(rest) => Some(bytes + rest)
      {
        assert all[i..][1..] == all[i + 1..];
        LookupLetter(all[i]);
        var e := Encode(all[i]);
        if e.None? {
          return Thrown(BadCodePoint);
        }
        if e.value !in utf8ToByte {
          return Thrown(NotALetter);
        }
        ghost var was := bytes;
        bytes := bytes + [utf8ToByte[e.value]];
        UnspelledStep(all[i..], utf8ToByte[e.value]);
        assert Unspelled(all[i + 1..]).Some? ==> was + ([utf8ToByte[e.value]] + Unspelled(all[i + 1..]).value) == bytes + Unspelled(all[i + 1..]).value;
        i := i + 1;
      }
      assert all[i..] == [] && bytes + [] == bytes;
      return Done(bytes);
    }

    /** Looking a code point up by its UTF-8 form finds the byte whose letter it is. */
    lemma LookupLetter(cp: nat)
      requires Valid()
      ensures Encode(cp).Some? && Encode(cp).value in utf8ToByte ==> Letter(utf8ToByte[Encode(cp).value]) == cp
      ensures (exists b: Byte :: Letter(b) == cp) ==> Encode(cp).Some? && Encode(cp).value in utf8ToByte
    {
      hide Letter, Encode, Glyph, First;
      if Encode(cp).Some? && Encode(cp).value in utf8ToByte {
        var b := utf8ToByte[Encode(cp).value];
        GlyphIs(b);
        DecodeEncoded(cp, []);
        DecodeEncoded(Letter(b), []);
      }
      forall b: Byte | Letter(b) == cp ensures Encode(cp).Some? && Encode(cp).value in utf8ToByte {
        GlyphIs(b);
      }
    }

    lemma UnspelledStep(cpts: seq<nat>, b: Byte)
      requires cpts != [] && Letter(b) == cpts[0]
      ensures Unspelled(cpts) == match Unspelled(cpts[1..]) case None => None case Some(rest) => Some([b] + rest)
    {
      hide Letter;
      forall x: Byte | Letter(x) == cpts[0] ensures x == b {
        LettersDiffer(x, b);
      }
    }

    /** Qwen3EncodeLayer::decode. */
    method Decode(ids: seq<int>) returns (r: Outcome<Bytes>)
      requires Valid()
      ensures r.Done? <==> Decoded(t, ids).Some?
      ensures r.Done? ==> Decoded(t, ids) == Some(r.value)
    {
      hide Glyph, TokenBytes;
      var result: Bytes := [];
      var k := 0;
      while k < |ids|
        invariant 0 <= k <= |ids| && Decoded(t, ids[..k]) == Some(result)
      {
        assert ids[..k + 1][..k] == ids[..k] && ids[..k + 1][k] == ids[k];
        if ids[k] in t.specialDecoder {
          result := result + t.specialDecoder[ids[k]];
        } else if ids[k] !in t.decoder {
          StopsAt(ids, k);
          return Thrown(UnknownId);
        } else {
          var bytes := TokenToBytes(t.decoder[ids[k]]);
          if bytes.Thrown? {
            StopsAt(ids, k);
            return Thrown(bytes.fault);
          }
          result := result + bytes.value;
        }
        k := k + 1;
      }
      assert ids[..k] == ids;
      return Done(result);
    }

    lemma {:induction false} StopsAt(ids: seq<int>, k: nat)
      requires k < |ids| && IdBytes(t, ids[k]).None?
      ensures Decoded(t, ids).None?
      decreases |ids|
    {
      hide IdBytes;
      if k < |ids| - 1 {
        StopsAt(ids[..|ids| - 1], k);
      }
    }
  }
}
