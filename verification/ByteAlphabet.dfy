/** The byte alphabet of byte-level BPE: every byte stands for a printable character. The two maps of
    utils/src/unicode.cpp are built by separate loops; they are proved to be each other's inverse. */
module ByteAlphabet {
  import opened Common
  import opened Utf8

  /** The bytes that stand for themselves. */
  predicate Printable(b: Byte) {
    0x21 <= b <= 0x7E || 0xA1 <= b <= 0xAC || 0xAE <= b <= 0xFF
  }

  /** How many bytes below `b` do not stand for themselves. */
  function Skipped(b: nat): nat
    requires b <= 256
  {
    if b == 0 then 0 else Skipped(b - 1) + if Printable(b - 1) then 0 else 1
  }

  lemma SkippedMono(a: nat, b: nat)
    requires a <= b <= 256
    ensures Skipped(a) <= Skipped(b) <= Skipped(a) + b - a
  {
    if a < b {
      SkippedMono(a, b - 1);
    }
  }

  /** The code point of a byte. */
  function Letter(b: Byte): (cp: nat)
    ensures cp < 512 && (Printable(b) <==> cp == b) && (cp < 256 <==> Printable(b))
  {
    SkippedMono(0, b);
    if Printable(b) then b else 256 + Skipped(b)
  }

  function Glyph(b: Byte): (r: Bytes)
    ensures r != []
  {
    Encode(Letter(b)).value
  }

  /** Different bytes have different letters. */
  lemma LettersDiffer(a: Byte, b: Byte)
    requires Letter(a) == Letter(b)
    ensures a == b
  {
    if a < b && !Printable(a) {
      SkippedMono(a + 1, b);
    } else if b < a && !Printable(b) {
      SkippedMono(b + 1, a);
    }
  }

  /** The alphabet in full: a control character or a space is moved up by 0x100, the bytes from delete to the
      no-break space follow, then the soft hyphen; every other byte is its own character. */
  lemma LettersAre(b: Byte)
    ensures Letter(b) == if b <= 0x20 then 0x100 + b else if 0x7F <= b <= 0xA0 then 0xA2 + b else if b == 0xAD then 0x143 else b
  {
    hide Skipped;
    SkippedStart();
    SkippedRun(0, if b < 0x21 then b else 0x21, true);
    SkippedRun(0x21, 0x7F, false);
    SkippedRun(0x7F, if 0x7F <= b < 0xA1 then b else 0xA1, true);
    SkippedRun(0xA1, 0xAD, false);
  }

  lemma {:induction false} SkippedRun(from: nat, end: nat, all: bool)
    requires from <= end <= 256 && forall b: Byte :: from <= b < end ==> Printable(b) == !all
    ensures Skipped(end) == Skipped(from) + if all then end - from else 0
    decreases end
  {
    if from < end {
      SkippedRun(from, end - 1, all);
    }
  }

  /** And different glyphs, since the codec can be undone. */
  lemma GlyphsDiffer(a: Byte, b: Byte)
    requires Glyph(a) == Glyph(b)
    ensures a == b
  {
    CptOfGlyph(a);
    CptOfGlyph(b);
    hide Encode, First;
    LettersDiffer(a, b);
  }

  lemma CptOfGlyph(b: Byte)
    ensures Cpts(Glyph(b)) == Some([Letter(b)]) && ShortestForm(Glyph(b))
  {
    hide First, Encode;
    assert ToUtf8([Letter(b)]) == Some(Glyph(b)) by {
      EncodeSome(Letter(b));
      assert Glyph(b) + [] == Glyph(b);
      assert ToUtf8([Letter(b)][1..]) == Some([]);
    }
    CptsOfUtf8([Letter(b)]);
  }

  lemma EncodeSome(cp: nat)
    ensures Encode(cp).Some? <==> cp <= 0x10FFFF
  {
  }

  // ---------------------------------------------------------------- the maps as they are built

  /** unicode_byte_to_utf8_map. */
  method ByteToUtf8Map() returns (m: map<Byte, Bytes>)
    ensures forall b: Byte :: b in m && m[b] == Glyph(b)
  {
    hide Encode, Glyph, Letter, Skipped;
    m := map[];
    SkippedStart();
    m := AddRange(m, 0x21, 0x7E);
    m := AddRange(m, 0xA1, 0xAC);
    m := AddRange(m, 0xAE, 0xFF);
    var n := 0;
    var ch: int := 0;
    while ch < 256
      invariant 0 <= ch <= 256 && n == Skipped(ch)
      invariant forall b: Byte :: b in m <==> Printable(b) || b < ch
      invariant forall b: Byte :: b in m ==> m[b] == Glyph(b)
    {
      SkippedMono(0, ch);
      SkippedStep(ch);
      if ch !in m {
        EncodeSome(256 + n);
        GlyphIs(ch);
        m := m[ch := Encode(256 + n).value];
        n := n + 1;
      }
      ch := ch + 1;
    }
  }

  method AddRange(m: map<Byte, Bytes>, from: Byte, last: Byte) returns (m': map<Byte, Bytes>)
    requires from <= last && forall b: Byte :: from <= b <= last ==> Printable(b)
    requires forall b: Byte :: b in m ==> m[b] == Glyph(b)
    ensures forall b: Byte :: b in m' <==> b in m || from <= b <= last
    ensures forall b: Byte :: b in m' ==> m'[b] == Glyph(b)
  {
    hide Encode, Glyph;
    m' := m;
    var ch: int := from;
    while ch <= last
      invariant from <= ch <= last + 1
      invariant forall b: Byte :: b in m' <==> b in m || from <= b < ch
      invariant forall b: Byte :: b in m' ==> m'[b] == Glyph(b)
    {
      EncodeSome(ch);
      GlyphIs(ch);
      m' := m'[ch := Encode(ch).value];
      ch := ch + 1;
    }
  }

  /** unicode_utf8_to_byte_map: the loop finds out which bytes are left by looking for their own
      characters, which none of the characters added meanwhile can be. */
  method Utf8ToByteMap() returns (m: map<Bytes, Byte>)
    ensures forall b: Byte :: Glyph(b) in m && m[Glyph(b)] == b
    ensures forall g: Bytes :: g in m ==> g == Glyph(m[g])
  {
    hide Encode, Glyph, Letter, Skipped;
    m := map[];
    SkippedStart();
    m := AddInverseRange(m, 0x21, 0x7E);
    m := AddInverseRange(m, 0xA1, 0xAC);
    m := AddInverseRange(m, 0xAE, 0xFF);
    var n := 0;
    var ch: int := 0;
    while ch < 256
      invariant 0 <= ch <= 256 && n == Skipped(ch)
      invariant forall b: Byte :: Printable(b) || b < ch ==> Glyph(b) in m
      invariant forall g: Bytes :: g in m ==> g == Glyph(m[g]) && (Printable(m[g]) || m[g] < ch)
    {
      EncodeSome(ch);
      SkippedMono(0, ch);
      EncodeSome(256 + n);
      OwnCharacter(m, ch);
      SkippedStep(ch);
      if Encode(ch).value !in m {
        GlyphIs(ch);
        m := m[Encode(256 + n).value := ch];
        n := n + 1;
      }
      ch := ch + 1;
    }
    forall b: Byte ensures m[Glyph(b)] == b {
      GlyphsDiffer(b, m[Glyph(b)]);
    }
  }

  lemma SkippedStart()
    ensures Skipped(0) == 0
  {
  }

  lemma SkippedStep(b: Byte)
    ensures Skipped(b + 1) == Skipped(b) + if Printable(b) then 0 else 1
    ensures !Printable(b) ==> Letter(b) == 256 + Skipped(b)
  {
  }

  lemma GlyphIs(b: Byte)
    ensures Encode(Letter(b)) == Some(Glyph(b))
  {
    EncodeSome(Letter(b));
  }

  /** A byte's own character is a key exactly if the byte stands for itself. */
  lemma OwnCharacter(m: map<Bytes, Byte>, ch: Byte)
    requires forall g: Bytes :: g in m ==> g == Glyph(m[g])
    requires Printable(ch) ==> Glyph(ch) in m
    ensures Encode(ch).Some? && (Encode(ch).value in m <==> Printable(ch))
  {
    EncodeSome(ch);
    if Encode(ch).value in m {
      var b := m[Encode(ch).value];
      DecodeEncoded(ch, []);
      EncodeSome(Letter(b));
      DecodeEncoded(Letter(b), []);
      assert Letter(b) == ch;
    }
  }

  method AddInverseRange(m: map<Bytes, Byte>, from: Byte, last: Byte) returns (m': map<Bytes, Byte>)
    requires from <= last && forall b: Byte :: from <= b <= last ==> Printable(b)
    requires forall g: Bytes :: g in m ==> g == Glyph(m[g]) && Printable(m[g])
    ensures forall b: Byte :: Glyph(b) in m || from <= b <= last ==> Glyph(b) in m'
    ensures forall g: Bytes :: g in m' ==> g == Glyph(m'[g]) && Printable(m'[g])
  {
    hide Encode, Glyph;
    m' := m;
    var ch: int := from;
    while ch <= last
      invariant from <= ch <= last + 1
      invariant forall b: Byte :: Glyph(b) in m || from <= b < ch ==> Glyph(b) in m'
      invariant forall g: Bytes :: g in m' ==> g == Glyph(m'[g]) && Printable(m'[g])
    {
      EncodeSome(ch);
      GlyphIs(ch);
      m' := m'[Encode(ch).value := ch];
      ch := ch + 1;
    }
  }

  // ---------------------------------------------------------------- whole strings

  /** A string in the alphabet: the glyphs of its bytes. */
  function Spelled(s: Bytes): Bytes {
    if s == [] then [] else Glyph(s[0]) + Spelled(s[1..])
  }

  lemma {:induction false} SpelledConcat(a: Bytes, b: Bytes)
    ensures Spelled(a + b) == Spelled(a) + Spelled(b)
  {
    hide Glyph;
    if a == [] {
      assert a + b == b;
    } else {
      assert (a + b)[1..] == a[1..] + b;
      SpelledConcat(a[1..], b);
    }
  }

  function Letters(s: Bytes): (r: seq<nat>)
    ensures |r| == |s|
  {
    if s == [] then [] else [Letter(s[0])] + Letters(s[1..])
  }

  /** The characters of a spelled string are the letters of its bytes. */
  lemma {:induction false} CptsOfSpelled(s: Bytes)
    ensures Cpts(Spelled(s)) == Some(Letters(s)) && ShortestForm(Spelled(s))
  {
    hide Glyph, Letter, First;
    if s != [] {
      CptOfGlyph(s[0]);
      CptsOfSpelled(s[1..]);
      CptsConcat(Glyph(s[0]), Spelled(s[1..]));
      ShortestSuffix(Glyph(s[0]), Spelled(s[1..]));
    }
  }

  /** The bytes of an alphabet string, through the inverse map; None where a character is not in it. */
  ghost function Unspelled(cpts: seq<nat>): Option<Bytes> {
    if cpts == [] then Some([])
    else if (exists b: Byte :: Letter(b) == cpts[0]) && Unspelled(cpts[1..]).Some? then
      var b: Byte :| Letter(b) == cpts[0];
      Some([b] + Unspelled(cpts[1..]).value)
    else None
  }

  lemma {:induction false} UnspelledLetters(s: Bytes)
    ensures Unspelled(Letters(s)) == Some(s)
  {
    hide Letter;
    if s != [] {
      assert Letters(s)[1..] == Letters(s[1..]);
      UnspelledLetters(s[1..]);
      assert Letter(s[0]) == Letters(s)[0];
      forall b: Byte | Letter(b) == Letter(s[0]) ensures b == s[0] {
        LettersDiffer(b, s[0]);
      }
      assert [s[0]] + s[1..] == s;
    }
  }
}
