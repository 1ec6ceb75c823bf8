/** What Qwen3EncodeLayer of layers/src/encode.cpp computes, as functions of its tables, and why decoding
    undoes encoding. */
module Tokenizer {
  import opened Common
  import opened Utf8
  import opened ByteAlphabet
  import opened Splitter
  import opened Bpe
  import opened Segments

  datatype Tables = Tables(
    encoder: Table,
    decoder: map<int, Bytes>,
    mergeRanks: Table,
    specialEncoder: Table,
    specialDecoder: map<int, Bytes>,
    specialTokens: seq<Bytes>,
    classes: Classes)

  /** Merges are listed as two symbols with a space between. */
  function QwenRank(mergeRanks: Table): Rank {
    (a: Bytes, b: Bytes) => if a + [0x20] + b in mergeRanks then mergeRanks[a + [0x20] + b] else NoRank
  }

  function Glyphs(word: Bytes): (r: seq<Bytes>)
    ensures |r| == |word|
  {
    if word == [] then [] else Glyphs(word[..|word| - 1]) + [Glyph(word[|word| - 1])]
  }

  /** The ids of a word: its bytes as glyphs, merged, and looked up. */
  function WordIds(t: Tables, word: Bytes): Option<seq<int>> {
    Ids(t.encoder, MergeAll(QwenRank(t.mergeRanks), Glyphs(word)))
  }

  /** The ids of words one after the other. */
  function AllWordIds(t: Tables, words: seq<Bytes>): Option<seq<int>> {
    if words == [] then Some([])
    else
      match (AllWordIds(t, words[..|words| - 1]), WordIds(t, words[|words| - 1]))
      case (Some(a), Some(b)) => Some(a + b)
      case _ => None
  }

  lemma {:induction false} AllWordIdsPrefix(t: Tables, words: seq<Bytes>, n: nat)
    requires n <= |words| && AllWordIds(t, words[..n]).None?
    ensures AllWordIds(t, words).None?
    decreases |words|
  {
    hide WordIds;
    if n < |words| {
      assert words[..|words| - 1][..n] == words[..n];
      AllWordIdsPrefix(t, words[..|words| - 1], n);
    } else {
      assert words[..n] == words;
    }
  }

  /** The bytes of one piece. */
  function PieceBytes(cpts: seq<nat>, start: nat, end: nat): Bytes {
    if start <= end <= |cpts| && ToUtf8(cpts[start..end]).Some? then ToUtf8(cpts[start..end]).value else []
  }

  /** The words that pieces cut out of a text of code points. */
  function WordsOf(cpts: seq<nat>, pieces: seq<nat>): (r: seq<Bytes>)
    ensures |r| == |pieces|
  {
    if pieces == [] then []
    else
      var init := pieces[..|pieces| - 1];
      WordsOf(cpts, init) + [PieceBytes(cpts, Sum(init), Sum(pieces))]
  }

  lemma ToUtf8Part(cpts: seq<nat>, a: nat, b: nat)
    requires a <= b <= |cpts| && ToUtf8(cpts).Some?
    ensures ToUtf8(cpts[a..b]).Some? && ToUtf8(cpts[..b]) == (match (ToUtf8(cpts[..a]), ToUtf8(cpts[a..b])) case (Some(x), Some(y)) => Some(x + y) case _ => None)
    ensures ToUtf8(cpts[..b]).Some? && ToUtf8(cpts[..a]).Some?
  {
    hide ToUtf8;
    ToUtf8Concat(cpts[..b], cpts[b..]);
    assert cpts == cpts[..b] + cpts[b..];
    ToUtf8Concat(cpts[..a], cpts[a..b]);
    assert cpts[..b] == cpts[..a] + cpts[a..b];
  }

  /** The words put together are the text. */
  lemma {:induction false} WordsJoin(cpts: seq<nat>, pieces: seq<nat>)
    requires Sum(pieces) <= |cpts| && ToUtf8(cpts).Some?
    ensures ToUtf8(cpts[..Sum(pieces)]) == Some(Flat(WordsOf(cpts, pieces)))
    decreases |pieces|
  {
    hide Flat;
    if pieces == [] {
      assert cpts[..0] == [];
      FlatNone();
    } else {
      var init := pieces[..|pieces| - 1];
      WordsJoin(cpts, init);
      ToUtf8Part(cpts, Sum(init), Sum(pieces));
      var word := ToUtf8(cpts[Sum(init)..Sum(pieces)]).value;
      FlatConcat(WordsOf(cpts, init), [word]);
      FlatOne(word);
    }
  }

  lemma FlatNone()
    ensures Flat([]) == []
  {
  }

  /** The text of an ordinary segment as it comes back from its code points. */
  function Rewritten(text: Bytes): Option<Bytes> {
    match Cpts(text)
    case None => None
    case Some(cpts) => ToUtf8(cpts)
  }

  /** The ids of an ordinary segment: those of the words that the matcher cuts it into. */
  function OrdinaryIds(t: Tables, text: Bytes): Option<seq<int>> {
    if Rewritten(text).None? then None
    else AllWordIds(t, WordsOf(Cpts(text).value, Pieces(t.classes, Cpts(text).value)))
  }

  function SegmentIds(t: Tables, g: Segment): Option<seq<int>> {
    match g
    case Special(s) => if s in t.specialEncoder then Some([t.specialEncoder[s]]) else None
    case Ordinary(text) => OrdinaryIds(t, text)
  }

  /** The ids of the segments, in order; None where the program throws. */
  function Encoded(t: Tables, segments: seq<Segment>): Option<seq<int>> {
    if segments == [] then Some([])
    else
      match (Encoded(t, segments[..|segments| - 1]), SegmentIds(t, segments[|segments| - 1]))
      case (Some(a), Some(b)) => Some(a + b)
      case _ => None
  }

  lemma EncodedSnoc(t: Tables, segments: seq<Segment>, g: Segment)
    ensures Encoded(t, segments + [g]) ==
      match (Encoded(t, segments), SegmentIds(t, g)) case (Some(a), Some(b)) => Some(a + b) case _ => None
  {
    assert (segments + [g])[..|segments|] == segments;
  }

  /** One segment that cannot be encoded spoils the text. */
  lemma {:induction false} EncodedPrefix(t: Tables, segments: seq<Segment>, n: nat)
    requires n <= |segments| && Encoded(t, segments[..n]).None?
    ensures Encoded(t, segments).None?
    decreases |segments|
  {
    hide SegmentIds;
    if n < |segments| {
      assert segments[..|segments| - 1][..n] == segments[..n];
      EncodedPrefix(t, segments[..|segments| - 1], n);
    } else {
      assert segments[..n] == segments;
    }
  }

  // ---------------------------------------------------------------- decoding

  /** The bytes a vocabulary entry spells. */
  ghost function TokenBytes(token: Bytes): Option<Bytes> {
    match Cpts(token)
    case None => None
    case Some(cpts) => Unspelled(cpts)
  }

  ghost function IdBytes(t: Tables, id: int): Option<Bytes> {
    if id in t.specialDecoder then Some(t.specialDecoder[id])
    else if id in t.decoder then TokenBytes(t.decoder[id])
    else None
  }

  /** Qwen3EncodeLayer::decode; None where the program throws. */
  ghost function Decoded(t: Tables, ids: seq<int>): Option<Bytes> {
    if ids == [] then Some([])
    else
      match (Decoded(t, ids[..|ids| - 1]), IdBytes(t, ids[|ids| - 1]))
      case (Some(a), Some(b)) => Some(a + b)
      case _ => None
  }

  lemma {:induction false} DecodedConcat(t: Tables, a: seq<int>, b: seq<int>)
    requires Decoded(t, a).Some? && Decoded(t, b).Some?
    ensures Decoded(t, a + b) == Some(Decoded(t, a).value + Decoded(t, b).value)
    decreases |b|
  {
    hide IdBytes;
    if b == [] {
      assert a + b == a;
      assert Decoded(t, a).value + [] == Decoded(t, a).value;
    } else {
      var init := b[..|b| - 1];
      assert (a + b)[..|a + b| - 1] == a + init;
      DecodedConcat(t, a, init);
      assert Decoded(t, a).value + (Decoded(t, init).value + IdBytes(t, b[|b| - 1]).value) == (Decoded(t, a).value + Decoded(t, init).value) + IdBytes(t, b[|b| - 1]).value;
    }
  }

  // ---------------------------------------------------------------- when decoding undoes encoding

  /** Every id leads back to what it was given for. */
  ghost predicate Reversible(t: Tables) {
    && NonEmpty(t.specialTokens) && TokensShortest(t.specialTokens)
    && (forall s: Bytes :: s in t.specialTokens ==> s in t.specialEncoder && MapsTo(t.specialDecoder, t.specialEncoder[s], s))
    && (forall s: Bytes :: s in t.encoder ==> t.encoder[s] !in t.specialDecoder && MapsTo(t.decoder, t.encoder[s], s))
  }

  predicate MapsTo(m: map<int, Bytes>, id: int, s: Bytes) {
    id in m && m[id] == s
  }

  lemma IdOfSymbol(t: Tables, part: Bytes)
    requires Reversible(t) && Spelled(part) in t.encoder
    ensures IdBytes(t, t.encoder[Spelled(part)]) == Some(part)
  {
    hide Spelled, Letters, Unspelled;
    CptsOfSpelled(part);
    UnspelledLetters(part);
  }

  /** Merging only ever joins glyphs: every symbol spells some bytes. */
  ghost predicate SpellParts(symbols: seq<Bytes>, parts: seq<Bytes>) {
    |symbols| == |parts| && forall k: nat :: k < |symbols| ==> symbols[k] == Spelled(parts[k])
  }

  lemma {:induction false} GlyphsSpell(word: Bytes) returns (parts: seq<Bytes>)
    ensures SpellParts(Glyphs(word), parts) && Flat(parts) == word
    decreases |word|
  {
    hide Glyph, Flat;
    if word == [] {
      parts := [];
      FlatNone();
    } else {
      var init, last := word[..|word| - 1], word[|word| - 1];
      var before := GlyphsSpell(init);
      parts := before + [[last]];
      SpelledOne(last);
      FlatConcat(before, [[last]]);
      FlatOne([last]);
      assert word == init + [last];
    }
  }

  lemma SpelledOne(b: Byte)
    ensures Spelled([b]) == Glyph(b)
  {
    hide Glyph;
    assert Glyph(b) + [] == Glyph(b);
    assert [b][1..] == [];
  }

  lemma {:induction false} MergedSpell(rank: Rank, symbols: seq<Bytes>, parts: seq<Bytes>) returns (parts': seq<Bytes>)
    requires SpellParts(symbols, parts)
    ensures SpellParts(MergeAll(rank, symbols), parts') && Flat(parts') == Flat(parts)
    decreases |symbols|
  {
    hide Spelled, Flat;
    match Best(rank, symbols, Pairs(symbols))
    case None =>
      parts' := parts;
    case Some(i) =>
      SpelledConcat(parts[i], parts[i + 1]);
      MergedFlat(parts, i);
      assert SpellParts(Merged(symbols, i), Merged(parts, i));
      parts' := MergedSpell(rank, Merged(symbols, i), Merged(parts, i));
  }

  lemma {:induction false} IdsDecode(t: Tables, symbols: seq<Bytes>, parts: seq<Bytes>)
    requires Reversible(t) && SpellParts(symbols, parts) && Ids(t.encoder, symbols).Some?
    ensures Decoded(t, Ids(t.encoder, symbols).value) == Some(Flat(parts))
    decreases |symbols|
  {
    hide Spelled, Flat, IdBytes, Reversible;
    if symbols == [] {
      assert parts == [];
      FlatNone();
    } else {
      var n := |symbols| - 1;
      IdsDecode(t, symbols[..n], parts[..n]);
      IdOfSymbol(t, parts[n]);
      var ids := Ids(t.encoder, symbols).value;
      assert ids[..|ids| - 1] == Ids(t.encoder, symbols[..n]).value;
      assert parts == parts[..n] + [parts[n]];
      FlatConcat(parts[..n], [parts[n]]);
      FlatOne(parts[n]);
    }
  }

  /** A word comes back. */
  lemma WordDecodes(t: Tables, word: Bytes)
    requires Reversible(t) && WordIds(t, word).Some?
    ensures Decoded(t, WordIds(t, word).value) == Some(word)
  {
    hide Flat, MergeAll, Ids, Decoded, Reversible, Glyphs, SpellParts;
    var parts := GlyphsSpell(word);
    var merged := MergedSpell(QwenRank(t.mergeRanks), Glyphs(word), parts);
    IdsDecode(t, MergeAll(QwenRank(t.mergeRanks), Glyphs(word)), merged);
  }

  lemma {:induction false} WordsDecode(t: Tables, words: seq<Bytes>)
    requires Reversible(t) && AllWordIds(t, words).Some?
    ensures Decoded(t, AllWordIds(t, words).value) == Some(Flat(words))
    decreases |words|
  {
    hide Flat, WordIds, Reversible, IdBytes;
    if words == [] {
      FlatNone();
    } else {
      var init, last := words[..|words| - 1], words[|words| - 1];
      WordsDecode(t, init);
      WordDecodes(t, last);
      DecodedConcat(t, AllWordIds(t, init).value, WordIds(t, last).value);
      assert words == init + [last];
      FlatConcat(init, [last]);
      FlatOne(last);
    }
  }

  /** What the segments come back as: specials unchanged, ordinary text with every form made shortest. */
  function Canonical(segments: seq<Segment>): Option<Bytes> {
    if segments == [] then Some([])
    else
      var last := segments[|segments| - 1];
      match (Canonical(segments[..|segments| - 1]), if last.Special? then Some(last.text) else Rewritten(last.text))
      case (Some(a), Some(b)) => Some(a + b)
      case _ => None
  }

  lemma SegmentDecodes(t: Tables, g: Segment)
    requires Reversible(t) && SegmentIds(t, g).Some? && SegmentOk(t.specialTokens, g)
    ensures Decoded(t, SegmentIds(t, g).value) == if g.Special? then Some(g.text) else Rewritten(g.text)
  {
    hide Flat, AllWordIds, WordsOf, Pieces;
    match g
    case Special(s) =>
      var ids := SegmentIds(t, g).value;
      assert ids[..0] == [];
      assert Decoded(t, ids[..0]) == Some([]);
      assert IdBytes(t, ids[0]) == Some(s);
      assert [] + s == s;
    case Ordinary(text) =>
      hide Decoded, Reversible;
      var cpts := Cpts(text).value;
      var pieces := Pieces(t.classes, cpts);
      PiecesTile(t.classes, cpts);
      WordsDecode(t, WordsOf(cpts, pieces));
      WordsJoin(cpts, pieces);
      assert cpts[..|cpts|] == cpts;
  }

  /** Decoding what was encoded gives the canonical form of the text. */
  lemma {:induction false} SegmentsDecode(t: Tables, segments: seq<Segment>)
    requires Reversible(t) && Encoded(t, segments).Some? && SegmentsOk(t.specialTokens, segments)
    ensures Decoded(t, Encoded(t, segments).value).Some? && Decoded(t, Encoded(t, segments).value) == Canonical(segments)
    decreases |segments|
  {
    hide Reversible, SegmentIds, SegmentOk, Rewritten, IdBytes;
    if segments != [] {
      var init, last := segments[..|segments| - 1], segments[|segments| - 1];
      SegmentsDecode(t, init);
      SegmentDecodes(t, last);
      SegmentRewritten(t, last);
      DecodedConcat(t, Encoded(t, init).value, SegmentIds(t, last).value);
    }
  }

  lemma SegmentRewritten(t: Tables, g: Segment)
    requires SegmentIds(t, g).Some?
    ensures g.Ordinary? ==> Rewritten(g.text).Some?
  {
  }

  /** The canonical form is the text itself exactly if every segment is well formed. */
  lemma {:induction false} CanonicalIsText(segments: seq<Segment>)
    requires Canonical(segments).Some? && forall k: nat :: k < |segments| && segments[k].Special? ==> ShortestForm(segments[k].text)
    ensures |Canonical(segments).value| <= |Text(segments)|
    ensures Canonical(segments).value == Text(segments) <==> AllShortest(segments)
    ensures |Canonical(segments).value| == |Text(segments)| ==> Canonical(segments).value == Text(segments)
    decreases |segments|
  {
    hide ShortestForm, Cpts, ToUtf8, Text;
    if segments == [] {
      TextNone();
    } else {
      var n := |segments| - 1;
      var init, last := segments[..n], segments[n];
      CanonicalIsText(init);
      Utf8OfCpts(last.text);
      assert segments == init + [last];
      TextConcat(init, [last]);
      TextOne(last);
      var c, d := Canonical(init).value, if last.Special? then last.text else Rewritten(last.text).value;
      assert Canonical(segments).value == c + d && Text(segments) == Text(init) + last.text;
      SameParts(c, d, Text(init), last.text);
      if AllShortest(segments) {
        assert forall k: nat :: k < n ==> init[k] == segments[k];
        assert ShortestForm(segments[n].text);
      }
      if AllShortest(init) && ShortestForm(last.text) {
        assert forall k: nat :: k < |segments| ==> segments[k] == if k < n then init[k] else last;
      }
    }
  }

  lemma SameParts(a: Bytes, b: Bytes, x: Bytes, y: Bytes)
    requires |a| <= |x| && |b| <= |y|
    ensures a + b == x + y <==> a == x && b == y
    ensures |a + b| == |x + y| <==> |a| == |x| && |b| == |y|
  {
    if a + b == x + y {
      assert |a| == |x|;
      assert a == (a + b)[..|a|] && x == (x + y)[..|x|];
      assert b == (a + b)[|a|..] && y == (x + y)[|x|..];
    }
  }

  lemma {:induction false} ShortestJoined(segments: seq<Segment>)
    requires AllShortest(segments)
    ensures ShortestForm(Text(segments))
    decreases |segments|
  {
    hide ShortestForm;
    if segments == [] {
      NothingIsShortest();
    } else {
      assert ShortestForm(segments[0].text);
      assert forall k: nat :: k < |segments[1..]| ==> segments[1..][k] == segments[k + 1];
      ShortestJoined(segments[1..]);
      ShortestSuffix(segments[0].text, Text(segments[1..]));
    }
  }

  lemma NothingIsShortest()
    ensures ShortestForm([])
  {
  }

  /** The tokenizer law: whenever a text can be encoded, decoding gives the text back exactly if it is
      well-formed UTF-8; and decoding never fails on what encoding gave. */
  lemma RoundTrip(t: Tables, text: Bytes, ids: seq<int>)
    requires Reversible(t) && Encoded(t, Cut(t.specialTokens, text, 0)) == Some(ids)
    ensures Decoded(t, ids).Some?
    ensures Decoded(t, ids) == Some(text) <==> ShortestForm(text)
  {
    hide ShortestForm, Cut, Encoded, Decoded, Text, Canonical, SegmentOk;
    var segments := Cut(t.specialTokens, text, 0);
    CutIsOk(t.specialTokens, text, 0);
    CutKeepsText(t.specialTokens, text, 0);
    assert text[0..] == text;
    SegmentsDecode(t, segments);
    forall k: nat | k < |segments| && segments[k].Special? ensures ShortestForm(segments[k].text) {
      SpecialShortest(t.specialTokens, segments[k]);
    }
    CanonicalIsText(segments);
    if ShortestForm(text) {
      CutShortest(t.specialTokens, text, 0);
    }
    if AllShortest(segments) {
      ShortestJoined(segments);
    }
  }

  lemma SpecialShortest(tokens: seq<Bytes>, g: Segment)
    requires SegmentOk(tokens, g) && TokensShortest(tokens) && g.Special?
    ensures ShortestForm(g.text)
  {
  }

  // ---------------------------------------------------------------- a text that does not come back

  /** The letter A in two bytes instead of one. */
  const Overlong: Bytes := [0xC1, 0x81]

  lemma LetterForm()
    ensures Encode(0x41) == Some([0x41]) && ToUtf8([0x41]) == Some([0x41]) && ToUtf8([]) == Some([])
  {
    var e: Bytes := [0x41];
    assert [0x41][1..] == [] && e + [] == e;
  }

  lemma OverlongForm()
    ensures Cpts(Overlong) == Some([0x41]) && !ShortestForm(Overlong) && Rewritten(Overlong) == Some([0x41])
  {
    var cpts: seq<nat> := [0x41];
    assert First(Overlong) == Some((0x41, 2));
    assert Overlong[2..] == [] && cpts + [] == cpts;
    assert Cpts(Overlong[2..]) == Some([]);
    LetterForm();
    Utf8OfCpts(Overlong);
  }

  /** A vocabulary of just that letter. */
  function LetterTables(classes: Classes): Tables {
    Tables(map[Glyph(0x41) := 7], map[7 := Glyph(0x41)], map[], map[], map[], [], classes)
  }

  /** With these tables the overlong form is accepted and encoded, and comes back as the plain letter. */
  lemma OverlongLost(classes: Classes)
    ensures Reversible(LetterTables(classes))
    ensures Encoded(LetterTables(classes), Cut([], Overlong, 0)) == Some([7])
    ensures Decoded(LetterTables(classes), [7]) == Some([0x41]) != Some(Overlong)
  {
    var t := LetterTables(classes);
    hide Glyph, Encode, First, ShortestForm, ToUtf8, Cpts, MergeAll, Unspelled, Letter, PieceEnd, WordIds, Decoded, WordsOf, AllWordIds;
    OverlongForm();
    hide Cut, Reversible, Pieces, SegmentIds, OrdinaryIds, Rewritten, Encoded;
    CutOverlong();
    LetterReversible(classes);
    OnePiece(classes);
    OneWord();
    LetterIds(classes);
    OverlongIds(t);
    WordDecodes(t, [0x41]);
  }

  lemma OverlongIds(t: Tables)
    requires Cpts(Overlong) == Some([0x41]) && Rewritten(Overlong).Some? && Pieces(t.classes, [0x41]) == [1]
    requires WordsOf([0x41], [1]) == [[0x41]] && AllWordIds(t, [[0x41]]) == Some([7])
    ensures Encoded(t, [Ordinary(Overlong)]) == Some([7])
  {
    hide Cpts, Pieces, Rewritten, WordsOf, AllWordIds;
    assert SegmentIds(t, Ordinary(Overlong)) == Some([7]);
    hide OrdinaryIds, SegmentIds;
    var none: seq<int> := [];
    assert [] + [Ordinary(Overlong)] == [Ordinary(Overlong)];
    assert Encoded(t, []) == Some(none) && none + [7] == [7];
    EncodedSnoc(t, [], Ordinary(Overlong));
  }

  lemma CutOverlong()
    ensures Cut([], Overlong, 0) == [Ordinary(Overlong)]
  {
    assert NextSpecial([], Overlong, 0).None?;
    assert Overlong[0..] == Overlong;
  }

  lemma LetterReversible(classes: Classes)
    ensures Reversible(LetterTables(classes))
  {
    hide Glyph, ShortestForm;
  }

  lemma IdsOne(ranks: Table, s: Bytes)
    requires s in ranks
    ensures Ids(ranks, [s]) == Some([ranks[s]])
  {
    var none: seq<int> := [];
    assert [s][..0] == [] && Ids(ranks, []) == Some(none) && none + [ranks[s]] == [ranks[s]];
  }

  lemma OnePiece(classes: Classes)
    ensures Pieces(classes, [0x41]) == [1]
  {
    hide PieceEnd;
    var next := PieceEnd(classes, [0x41], 1, 0);
    assert next == 1;
    assert PiecesFrom(classes, [0x41], 1, 1) == [];
  }

  lemma LetterIds(classes: Classes)
    ensures WordIds(LetterTables(classes), [0x41]) == Some([7]) && AllWordIds(LetterTables(classes), [[0x41]]) == Some([7])
  {
    var t := LetterTables(classes);
    hide Glyph, MergeAll, QwenRank;
    var word: Bytes := [0x41];
    assert word[..0] == [] && Glyphs([]) == [];
    assert Glyphs(word) == [Glyph(0x41)];
    MergeAlone(QwenRank(t.mergeRanks), Glyph(0x41));
    IdsOne(t.encoder, Glyph(0x41));
    assert [word][..0] == [] && AllWordIds(t, []) == Some([]);
  }

  lemma OneWord()
    ensures WordsOf([0x41], [1]) == [[0x41]]
  {
    LetterForm();
    hide ToUtf8;
    assert [0x41][0..1] == [0x41];
    assert [1][..0] == [] && Sum([1]) == 1;
  }

  lemma MergeAlone(rank: Rank, s: Bytes)
    ensures MergeAll(rank, [s]) == [s]
  {
  }
}
