/** The pre-tokenizer of utils/src/unicode.cpp for Qwen3: a hand-written matcher over code points. Unicode
    classes are a parameter. Whatever they are, the pieces cut the text up without loss. */
module Splitter {
  import opened Common

  /** What the matcher asks of a code point; `known` is false only past the end of the region. */
  datatype Flags = Flags(letter: bool, number: bool, whitespace: bool, known: bool)

  const Nowhere := Flags(false, false, false, false)

  datatype Classes = Classes(flags: nat -> Flags, lower: nat -> nat) {
    /** Letters, numbers and white space are different things, and line breaks are white space. */
    ghost predicate Sane() {
      && (forall cp: nat :: !(flags(cp).letter && flags(cp).number) && !(flags(cp).letter && flags(cp).whitespace)
            && !(flags(cp).number && flags(cp).whitespace))
      && flags(0x0A).whitespace && flags(0x0D).whitespace && flags(0x20).whitespace
      && !flags(0x27).number && !flags(0x27).letter
      && forall cp: nat :: lower(cp) in {0x73, 0x74, 0x6D, 0x64, 0x72, 0x76, 0x6C, 0x65} ==> !flags(cp).number
    }
  }

  /** One region of a text: code points before `end`. */
  function FlagsAt(k: Classes, cpts: seq<nat>, end: nat, p: nat): Flags
    requires end <= |cpts|
  {
    if p < end then k.flags(cpts[p]) else Nowhere
  }

  function CodeAt(cpts: seq<nat>, end: nat, p: nat): nat
    requires end <= |cpts|
  {
    if p < end then cpts[p] else 0xFFFF_FFFF
  }

  predicate LineBreak(cp: nat) {
    cp == 0x0D || cp == 0x0A
  }

  predicate Punctuation(f: Flags) {
    !f.whitespace && !f.letter && !f.number && f.known
  }

  /** A piece is not empty, stays in its region, and a number is a piece of its own. */
  ghost predicate GoodPiece(k: Classes, cpts: seq<nat>, end: nat, begin: nat, next: nat) {
    && begin < next <= end <= |cpts|
    && (k.Sane() ==> forall p: nat :: begin <= p < next && k.flags(cpts[p]).number ==> next == begin + 1)
  }

  // ---------------------------------------------------------------- the matcher as a function

  /** The end of the run of code points from `p` on that pass the test. */
  function RunEnd(cpts: seq<nat>, end: nat, p: nat, test: nat -> bool): (q: nat)
    requires p <= end <= |cpts|
    ensures p <= q <= end && (q == end || !test(cpts[q]))
    ensures forall x: nat :: p <= x < q ==> test(cpts[x])
    decreases end - p
  {
    if p < end && test(cpts[p]) then RunEnd(cpts, end, p + 1, test) else p
  }

  lemma RunEndIs(cpts: seq<nat>, end: nat, p: nat, test: nat -> bool, q: nat)
    requires p <= q <= end <= |cpts| && (q == end || !test(cpts[q]))
    requires forall x: nat :: p <= x < q ==> test(cpts[x])
    ensures q == RunEnd(cpts, end, p, test)
  {
  }

  function IsLetter(k: Classes): nat -> bool {
    (cp: nat) => k.flags(cp).letter
  }

  function IsMark(k: Classes): nat -> bool {
    (cp: nat) => Punctuation(k.flags(cp))
  }

  function IsBlank(k: Classes): nat -> bool {
    (cp: nat) => k.flags(cp).whitespace
  }

  function IsBlankOnLine(k: Classes): nat -> bool {
    (cp: nat) => k.flags(cp).whitespace && !LineBreak(cp)
  }

  const IsLineBreak: nat -> bool := (cp: nat) => LineBreak(cp)

  /** The length of a contraction such as 's or 'll; 0 if there is none. */
  function ContractionAt(k: Classes, cpts: seq<nat>, end: nat, pos: nat): (n: nat)
    requires pos < end <= |cpts|
    ensures pos + n <= end
  {
    if cpts[pos] != 0x27 || pos + 1 >= end then 0
    else if k.lower(cpts[pos + 1]) in {0x73, 0x74, 0x6D, 0x64} then 2
    else if pos + 2 < end && (k.lower(cpts[pos + 1]), k.lower(cpts[pos + 2])) in {(0x72, 0x65), (0x76, 0x65), (0x6C, 0x6C)} then 3
    else 0
  }

  /** The end of a run of letters, with one character in front that is no letter, number or line break;
      `pos` if there is none. */
  function LetterEnd(k: Classes, cpts: seq<nat>, end: nat, pos: nat): (next: nat)
    requires pos < end <= |cpts|
    ensures pos <= next <= end
  {
    var f := k.flags(cpts[pos]);
    if f.letter then RunEnd(cpts, end, pos, IsLetter(k))
    else if !LineBreak(cpts[pos]) && !f.number && FlagsAt(k, cpts, end, pos + 1).letter then RunEnd(cpts, end, pos + 1, IsLetter(k))
    else pos
  }

  /** Where the punctuation of a piece would start: a space in front of it is taken along. */
  function MarksStart(k: Classes, cpts: seq<nat>, end: nat, pos: nat): (first: nat)
    requires pos < end <= |cpts|
    ensures pos <= first <= pos + 1
  {
    var after := FlagsAt(k, cpts, end, pos + 1);
    if cpts[pos] == 0x20 && !after.whitespace && !after.letter && !after.number then pos + 1 else pos
  }

  /** The end of a run of punctuation and of the line breaks behind it; `pos` if there is none. */
  function MarksEnd(k: Classes, cpts: seq<nat>, end: nat, pos: nat): (next: nat)
    requires pos < end <= |cpts|
    ensures pos <= next <= end
  {
    var first := MarksStart(k, cpts, end, pos);
    if Punctuation(FlagsAt(k, cpts, end, first)) then RunEnd(cpts, end, RunEnd(cpts, end, first, IsMark(k)), IsLineBreak) else pos
  }

  /** White space: up to and including the first line breaks if it has any, else all but its last character
      if something follows and it has two or more. */
  function BlankEnd(k: Classes, cpts: seq<nat>, end: nat, pos: nat): (next: nat)
    requires pos < end <= |cpts| && k.flags(cpts[pos]).whitespace
    ensures pos < next <= end
  {
    var newline := RunEnd(cpts, end, pos, IsBlankOnLine(k));
    if newline < end && LineBreak(cpts[newline]) then RunEnd(cpts, end, newline, IsLineBreak)
    else
      var all := RunEnd(cpts, end, pos, IsBlank(k));
      if all - pos > 1 && all < end then all - 1 else all
  }

  /** Where the piece that starts at `pos` ends. */
  function PieceEnd(k: Classes, cpts: seq<nat>, end: nat, pos: nat): (next: nat)
    requires pos < end <= |cpts|
    ensures pos < next <= end
  {
    if ContractionAt(k, cpts, end, pos) > 0 then pos + ContractionAt(k, cpts, end, pos)
    else if LetterEnd(k, cpts, end, pos) > pos then LetterEnd(k, cpts, end, pos)
    else if k.flags(cpts[pos]).number then pos + 1
    else if MarksEnd(k, cpts, end, pos) > pos then MarksEnd(k, cpts, end, pos)
    else if k.flags(cpts[pos]).whitespace then BlankEnd(k, cpts, end, pos)
    else pos + 1
  }

  /** The sizes of the pieces of a region from `pos` on. */
  function PiecesFrom(k: Classes, cpts: seq<nat>, end: nat, pos: nat): seq<nat>
    requires pos <= end <= |cpts|
    decreases end - pos
  {
    if pos == end then []
    else
      var next := PieceEnd(k, cpts, end, pos);
      [next - pos] + PiecesFrom(k, cpts, end, next)
  }

  /** The pieces of a whole text. */
  function Pieces(k: Classes, cpts: seq<nat>): seq<nat> {
    PiecesFrom(k, cpts, |cpts|, 0)
  }

  // ---------------------------------------------------------------- what a piece is

  /** A piece of letters is a run of letters as long as it goes, with at most one other character in front
      of it, which is no number and no line break. */
  lemma LetterPiece(k: Classes, cpts: seq<nat>, end: nat, pos: nat)
    requires pos < end <= |cpts|
    ensures var next := LetterEnd(k, cpts, end, pos);
      if next == pos then !k.flags(cpts[pos]).letter
      else
        && (forall p: nat :: pos < p < next ==> k.flags(cpts[p]).letter)
        && (next == end || !k.flags(cpts[next]).letter)
        && (k.flags(cpts[pos]).letter || (pos + 1 < next && !k.flags(cpts[pos]).number && !LineBreak(cpts[pos])))
  {
  }

  /** A piece of punctuation: an optional space, marks as far as they go, and all line breaks behind. */
  lemma MarksPiece(k: Classes, cpts: seq<nat>, end: nat, pos: nat)
    requires pos < end <= |cpts| && MarksEnd(k, cpts, end, pos) > pos
    ensures var next, first := MarksEnd(k, cpts, end, pos), MarksStart(k, cpts, end, pos);
      && first < end && (first > pos ==> cpts[pos] == 0x20)
      && var last := RunEnd(cpts, end, first, IsMark(k));
         && first < last <= next
         && (forall p: nat :: first <= p < last ==> Punctuation(k.flags(cpts[p])))
         && (forall p: nat :: last <= p < next ==> LineBreak(cpts[p]))
         && (last == end || !Punctuation(k.flags(cpts[last]))) && (next == end || !LineBreak(cpts[next]))
  {
  }

  ghost predicate NoNumbers(k: Classes, cpts: seq<nat>, begin: nat, next: nat)
    requires next <= |cpts|
  {
    forall p: nat :: begin <= p < next ==> !k.flags(cpts[p]).number
  }

  lemma ContractionGood(k: Classes, cpts: seq<nat>, end: nat, pos: nat)
    requires pos < end <= |cpts| && k.Sane()
    ensures NoNumbers(k, cpts, pos, pos + ContractionAt(k, cpts, end, pos))
  {
    forall p: nat | pos <= p < pos + ContractionAt(k, cpts, end, pos) ensures !k.flags(cpts[p]).number {
      assert p > pos ==> k.lower(cpts[p]) in {0x73, 0x74, 0x6D, 0x64, 0x72, 0x76, 0x6C, 0x65};
    }
  }

  lemma LetterGood(k: Classes, cpts: seq<nat>, end: nat, pos: nat)
    requires pos < end <= |cpts| && k.Sane()
    ensures NoNumbers(k, cpts, pos, LetterEnd(k, cpts, end, pos))
  {
    hide LetterEnd;
    LetterPiece(k, cpts, end, pos);
  }

  lemma BreakIsBlank(k: Classes, cp: nat)
    requires k.Sane() && (LineBreak(cp) || cp == 0x20)
    ensures !k.flags(cp).number
  {
  }

  lemma MarksGood(k: Classes, cpts: seq<nat>, end: nat, pos: nat)
    requires pos < end <= |cpts| && k.Sane()
    ensures NoNumbers(k, cpts, pos, MarksEnd(k, cpts, end, pos))
  {
    hide MarksEnd, Classes.Sane, LineBreak;
    var next := MarksEnd(k, cpts, end, pos);
    if next > pos {
      MarksPiece(k, cpts, end, pos);
      var first := MarksStart(k, cpts, end, pos);
      hide MarksStart;
      forall p: nat | pos <= p < next ensures !k.flags(cpts[p]).number {
        if LineBreak(cpts[p]) || cpts[p] == 0x20 {
          BreakIsBlank(k, cpts[p]);
        } else {
          assert p >= first;
        }
      }
    }
  }

  lemma BlankGood(k: Classes, cpts: seq<nat>, end: nat, pos: nat)
    requires pos < end <= |cpts| && k.Sane() && k.flags(cpts[pos]).whitespace
    ensures NoNumbers(k, cpts, pos, BlankEnd(k, cpts, end, pos))
  {
    hide LineBreak;
    forall p: nat | pos <= p < BlankEnd(k, cpts, end, pos) ensures !k.flags(cpts[p]).number {
      if LineBreak(cpts[p]) {
        BreakIsBlank(k, cpts[p]);
      } else {
        assert k.flags(cpts[p]).whitespace;
      }
    }
  }

  /** Every piece is a good one. */
  lemma PieceGood(k: Classes, cpts: seq<nat>, end: nat, pos: nat)
    requires pos < end <= |cpts|
    ensures GoodPiece(k, cpts, end, pos, PieceEnd(k, cpts, end, pos))
  {
    hide ContractionAt, LetterEnd, MarksEnd, BlankEnd, Classes.Sane;
    if k.Sane() {
      ContractionGood(k, cpts, end, pos);
      LetterGood(k, cpts, end, pos);
      MarksGood(k, cpts, end, pos);
      if k.flags(cpts[pos]).whitespace {
        BlankGood(k, cpts, end, pos);
      }
    }
  }

  /** Just behind the last line break before `all`; `pos` if there is none. */
  function LastBreakEnd(cpts: seq<nat>, pos: nat, all: nat): (q: nat)
    requires pos <= all <= |cpts|
    ensures pos <= q <= all && (q > pos ==> LineBreak(cpts[q - 1]))
    ensures forall p: nat :: q <= p < all ==> !LineBreak(cpts[p])
    decreases all
  {
    if all == pos then pos else if LineBreak(cpts[all - 1]) then all else LastBreakEnd(cpts, pos, all - 1)
  }

  /** Where the expression's alternatives for white space end when they match greedily: behind the last
      line break of the run. */
  function GreedyBlankEnd(k: Classes, cpts: seq<nat>, end: nat, pos: nat): nat
    requires pos < end <= |cpts|
  {
    var all := RunEnd(cpts, end, pos, IsBlank(k));
    if LastBreakEnd(cpts, pos, all) > pos then LastBreakEnd(cpts, pos, all)
    else if all - pos > 1 && all < end then all - 1 else all
  }

  /** The line breaks between the two places stand side by side. */
  ghost predicate BreaksTogether(cpts: seq<nat>, from: nat, to: nat)
    requires to <= |cpts|
  {
    forall a: nat, b: nat, c: nat :: from <= a < b < c < to && LineBreak(cpts[a]) && LineBreak(cpts[c]) ==> LineBreak(cpts[b])
  }

  /** The scan ends there too exactly if all line breaks of the white space stand side by side. */
  lemma BlankEndGreedy(k: Classes, cpts: seq<nat>, end: nat, pos: nat)
    requires k.Sane() && pos < end <= |cpts| && k.flags(cpts[pos]).whitespace
    ensures BlankEnd(k, cpts, end, pos) == GreedyBlankEnd(k, cpts, end, pos) <==>
      BreaksTogether(cpts, pos, RunEnd(cpts, end, pos, IsBlank(k)))
  {
    var all := RunEnd(cpts, end, pos, IsBlank(k));
    var newline := RunEnd(cpts, end, pos, IsBlankOnLine(k));
    var stop := BlankEnd(k, cpts, end, pos);
    BlankEndBehind(k, cpts, end, pos);
    hide GreedyBlankEnd;
    if newline < end && LineBreak(cpts[newline]) {
      BreaksWithin(k, cpts, end, pos, newline, all);
      TogetherFrom(cpts, pos, newline, stop, all);
    } else {
      forall p: nat | pos <= p < all ensures !LineBreak(cpts[p]) {
        assert p < newline ==> IsBlankOnLine(k)(cpts[p]);
      }
    }
  }

  /** Line breaks from `first` up to `stop`, and none before or at `stop`: they stand side by side if none
      follows. */
  lemma TogetherFrom(cpts: seq<nat>, pos: nat, first: nat, stop: nat, all: nat)
    requires pos <= first < stop <= all <= |cpts| && (stop == all || !LineBreak(cpts[stop]))
    requires forall p: nat :: pos <= p < first ==> !LineBreak(cpts[p])
    requires forall p: nat :: first <= p < stop ==> LineBreak(cpts[p])
    ensures BreaksTogether(cpts, pos, all) <==> forall p: nat :: stop <= p < all ==> !LineBreak(cpts[p])
  {
    hide LineBreak;
    if p: nat :| stop <= p < all && LineBreak(cpts[p]) {
      assert first < stop < p && LineBreak(cpts[first]) && !LineBreak(cpts[stop]);
    }
  }

  /** What is left behind the scan's end decides. */
  lemma BlankEndBehind(k: Classes, cpts: seq<nat>, end: nat, pos: nat)
    requires k.Sane() && pos < end <= |cpts| && k.flags(cpts[pos]).whitespace
    ensures BlankEnd(k, cpts, end, pos) == GreedyBlankEnd(k, cpts, end, pos) <==>
      forall p: nat :: BlankEnd(k, cpts, end, pos) <= p < RunEnd(cpts, end, pos, IsBlank(k)) ==> !LineBreak(cpts[p])
  {
    var newline := RunEnd(cpts, end, pos, IsBlankOnLine(k));
    var all := RunEnd(cpts, end, pos, IsBlank(k));
    var last := LastBreakEnd(cpts, pos, all);
    assert newline <= all;
    if newline < end && LineBreak(cpts[newline]) {
      BreaksWithin(k, cpts, end, pos, newline, all);
      var first := RunEnd(cpts, end, newline, IsLineBreak);
      assert first == BlankEnd(k, cpts, end, pos) && newline < last;
      assert IsLineBreak(cpts[first - 1]);
      assert first <= last;
      if first < last {
        assert LineBreak(cpts[last - 1]);
      }
    } else {
      assert newline == all;
    }
  }

  lemma BreaksWithin(k: Classes, cpts: seq<nat>, end: nat, pos: nat, newline: nat, all: nat)
    requires k.Sane() && pos <= newline <= all <= end <= |cpts| && newline < end && LineBreak(cpts[newline])
    requires all == RunEnd(cpts, end, pos, IsBlank(k))
    ensures newline < RunEnd(cpts, end, newline, IsLineBreak) <= all
  {
    var r := RunEnd(cpts, end, newline, IsLineBreak);
    if all < r {
      assert IsLineBreak(cpts[all]);
    }
  }

  /** So a line break, a space and a line break are three characters in two pieces or more. */
  lemma StopsAtFirstBreak(k: Classes)
    requires k.Sane()
    ensures var text := [0x0A, 0x20, 0x0A];
      k.flags(text[0]).whitespace && BlankEnd(k, text, 3, 0) == 1 && GreedyBlankEnd(k, text, 3, 0) == 3
  {
    var text := [0x0A, 0x20, 0x0A];
    RunEndIs(text, 3, 0, IsBlankOnLine(k), 0);
    RunEndIs(text, 3, 0, IsLineBreak, 1);
    RunEndIs(text, 3, 0, IsBlank(k), 3);
  }

  // ---------------------------------------------------------------- the matcher as loops

  method Contraction(k: Classes, cpts: seq<nat>, end: nat, pos: nat) returns (n: nat)
    requires pos < end <= |cpts|
    ensures n == ContractionAt(k, cpts, end, pos)
  {
    if cpts[pos] != 0x27 || pos + 1 >= end {
      return 0;
    }
    var suffix1 := k.lower(cpts[pos + 1]);
    if suffix1 == 0x73 || suffix1 == 0x74 || suffix1 == 0x6D || suffix1 == 0x64 {
      return 2;
    }
    if pos + 2 < end {
      var suffix2 := k.lower(cpts[pos + 2]);
      if (suffix1 == 0x72 && suffix2 == 0x65) || (suffix1 == 0x76 && suffix2 == 0x65) || (suffix1 == 0x6C && suffix2 == 0x6C) {
        return 3;
      }
    }
    return 0;
  }

  method LetterRun(k: Classes, cpts: seq<nat>, end: nat, pos: nat) returns (next: nat)
    requires pos < end <= |cpts|
    ensures next == LetterEnd(k, cpts, end, pos)
  {
    var cp, flags := CodeAt(cpts, end, pos), FlagsAt(k, cpts, end, pos);
    var first := pos;
    if !(LineBreak(cp) || flags.letter || flags.number) && FlagsAt(k, cpts, end, pos + 1).letter {
      first := first + 1;
    }
    next := pos;
    if FlagsAt(k, cpts, end, first).letter {
      next := first;
      while next < end && FlagsAt(k, cpts, end, next).letter
        invariant first <= next <= end
        invariant forall p: nat :: first <= p < next ==> k.flags(cpts[p]).letter
      {
        next := next + 1;
      }
      RunEndIs(cpts, end, first, IsLetter(k), next);
    }
  }

  method PunctuationRun(k: Classes, cpts: seq<nat>, end: nat, pos: nat) returns (next: nat)
    requires pos < end <= |cpts|
    ensures next == MarksEnd(k, cpts, end, pos)
  {
    var first := pos;
    var after := FlagsAt(k, cpts, end, pos + 1);
    if CodeAt(cpts, end, pos) == 0x20 && !(after.whitespace || after.letter || after.number) {
      first := first + 1;
    }
    next := pos;
    if Punctuation(FlagsAt(k, cpts, end, first)) {
      next := first;
      while next < end && Punctuation(FlagsAt(k, cpts, end, next))
        invariant first <= next <= end
        invariant forall p: nat :: first <= p < next ==> Punctuation(k.flags(cpts[p]))
      {
        next := next + 1;
      }
      RunEndIs(cpts, end, first, IsMark(k), next);
      next := SkipLineBreaks(cpts, end, next);
    }
  }

  method SkipLineBreaks(cpts: seq<nat>, end: nat, pos: nat) returns (next: nat)
    requires pos <= end <= |cpts|
    ensures next == RunEnd(cpts, end, pos, IsLineBreak)
  {
    next := pos;
    while LineBreak(CodeAt(cpts, end, next))
      invariant pos <= next <= end && forall p: nat :: pos <= p < next ==> LineBreak(cpts[p])
      decreases end - next
    {
      next := next + 1;
    }
    RunEndIs(cpts, end, pos, IsLineBreak, next);
  }

  /** The program's guard against standing still is not needed: white space has at least one character. */
  method WhiteRun(k: Classes, cpts: seq<nat>, end: nat, pos: nat) returns (next: nat)
    requires pos < end <= |cpts| && k.flags(cpts[pos]).whitespace
    ensures next == BlankEnd(k, cpts, end, pos)
  {
    var newline := pos;
    while newline < end && FlagsAt(k, cpts, end, newline).whitespace && !LineBreak(CodeAt(cpts, end, newline))
      invariant pos <= newline <= end
      invariant forall p: nat :: pos <= p < newline ==> k.flags(cpts[p]).whitespace && !LineBreak(cpts[p])
    {
      newline := newline + 1;
    }
    RunEndIs(cpts, end, pos, IsBlankOnLine(k), newline);
    if LineBreak(CodeAt(cpts, end, newline)) {
      next := SkipLineBreaks(cpts, end, newline);
    } else {
      var whiteEnd := pos;
      while whiteEnd < end && FlagsAt(k, cpts, end, whiteEnd).whitespace
        invariant pos <= whiteEnd <= end && forall p: nat :: pos <= p < whiteEnd ==> k.flags(cpts[p]).whitespace
      {
        whiteEnd := whiteEnd + 1;
      }
      RunEndIs(cpts, end, pos, IsBlank(k), whiteEnd);
      next := if whiteEnd - pos > 1 && whiteEnd < end then whiteEnd - 1 else whiteEnd;
    }
  }

  /** One round of the matcher. */
  method NextPiece(k: Classes, cpts: seq<nat>, end: nat, pos: nat) returns (next: nat)
    requires pos < end <= |cpts|
    ensures next == PieceEnd(k, cpts, end, pos)
  {
    hide ContractionAt, LetterEnd, MarksEnd, BlankEnd;
    var n := Contraction(k, cpts, end, pos);
    if n > 0 {
      return pos + n;
    }
    next := LetterRun(k, cpts, end, pos);
    if next > pos {
      return;
    }
    if FlagsAt(k, cpts, end, pos).number {
      return pos + 1;
    }
    next := PunctuationRun(k, cpts, end, pos);
    if next > pos {
      return;
    }
    if FlagsAt(k, cpts, end, pos).whitespace {
      next := WhiteRun(k, cpts, end, pos);
      return;
    }
    return pos + 1;
  }

  function Sum(sizes: seq<nat>): nat {
    if sizes == [] then 0 else Sum(sizes[..|sizes| - 1]) + sizes[|sizes| - 1]
  }

  lemma SumSnoc(sizes: seq<nat>, n: nat)
    ensures Sum(sizes + [n]) == Sum(sizes) + n
  {
    assert (sizes + [n])[..|sizes|] == sizes;
  }

  /** The pieces are good ones, one after the other from the start, up to code point `upTo`. */
  ghost predicate Tiles(k: Classes, cpts: seq<nat>, pieces: seq<nat>, upTo: nat) {
    && Sum(pieces) == upTo <= |cpts|
    && forall j: nat :: j < |pieces| ==> GoodPiece(k, cpts, |cpts|, Sum(pieces[..j]), Sum(pieces[..j]) + pieces[j])
  }

  lemma TilesSnoc(k: Classes, cpts: seq<nat>, pieces: seq<nat>, upTo: nat, end: nat, next: nat)
    requires upTo < next && Tiles(k, cpts, pieces, upTo) && end <= |cpts| && GoodPiece(k, cpts, end, upTo, next)
    ensures Tiles(k, cpts, pieces + [next - upTo], next)
  {
    hide GoodPiece, Sum;
    var more := pieces + [next - upTo];
    SumSnoc(pieces, next - upTo);
    GoodInRegion(k, cpts, end, upTo, next);
    forall j: nat | j < |more| ensures GoodPiece(k, cpts, |cpts|, Sum(more[..j]), Sum(more[..j]) + more[j]) {
      if j < |pieces| {
        assert more[..j] == pieces[..j];
      } else {
        assert more[..j] == pieces;
      }
    }
  }

  lemma GoodInRegion(k: Classes, cpts: seq<nat>, end: nat, begin: nat, next: nat)
    requires GoodPiece(k, cpts, end, begin, next)
    ensures begin < next && GoodPiece(k, cpts, |cpts|, begin, next)
  {
  }

  /** The pieces of the regions, one region after the other. */
  function Regions(k: Classes, cpts: seq<nat>, offsets: seq<nat>): seq<nat>
    requires Sum(offsets) <= |cpts|
  {
    if offsets == [] then []
    else Regions(k, cpts, offsets[..|offsets| - 1]) + PiecesFrom(k, cpts, Sum(offsets), Sum(offsets[..|offsets| - 1]))
  }

  lemma OneRegion(k: Classes, cpts: seq<nat>)
    ensures Sum([|cpts|]) == |cpts| && Regions(k, cpts, [|cpts|]) == Pieces(k, cpts)
  {
    assert [|cpts|][..0] == [];
    assert Regions(k, cpts, []) == [] && Sum([]) == 0;
  }

  lemma RegionsSnoc(k: Classes, cpts: seq<nat>, offsets: seq<nat>, n: nat)
    requires Sum(offsets) + n <= |cpts|
    ensures Sum(offsets + [n]) == Sum(offsets) + n
    ensures Regions(k, cpts, offsets + [n]) == Regions(k, cpts, offsets) + PiecesFrom(k, cpts, Sum(offsets) + n, Sum(offsets))
  {
    SumSnoc(offsets, n);
    assert (offsets + [n])[..|offsets|] == offsets;
  }

  lemma {:induction false} TilesFrom(k: Classes, cpts: seq<nat>, end: nat, pos: nat, pieces: seq<nat>)
    requires pos <= end <= |cpts| && Tiles(k, cpts, pieces, pos)
    ensures Tiles(k, cpts, pieces + PiecesFrom(k, cpts, end, pos), end)
    decreases end - pos
  {
    hide Tiles, PieceEnd, GoodPiece;
    if pos == end {
      assert pieces + [] == pieces;
    } else {
      var next := PieceEnd(k, cpts, end, pos);
      PieceGood(k, cpts, end, pos);
      TilesSnoc(k, cpts, pieces, pos, end, next);
      TilesFrom(k, cpts, end, next, pieces + [next - pos]);
      assert pieces + [next - pos] + PiecesFrom(k, cpts, end, next) == pieces + PiecesFrom(k, cpts, end, pos);
    }
  }

  /** The matcher's pieces cut the whole text up. */
  lemma PiecesTile(k: Classes, cpts: seq<nat>)
    ensures Tiles(k, cpts, Pieces(k, cpts), |cpts|)
  {
    NoRegion(k, cpts, []);
    TilesFrom(k, cpts, |cpts|, 0, []);
    assert [] + Pieces(k, cpts) == Pieces(k, cpts);
  }

  /** unicode_regex_split_custom_qwen3: the regions are cut into the matcher's pieces, which tile them. */
  method Split(k: Classes, cpts: seq<nat>, offsets: seq<nat>) returns (pieces: seq<nat>)
    requires Sum(offsets) == |cpts|
    ensures pieces == Regions(k, cpts, offsets)
    ensures Tiles(k, cpts, pieces, |cpts|)
  {
    hide GoodPiece, PieceEnd, Sum, Regions, Tiles;
    pieces := [];
    var start := 0;
    var r := 0;
    assert offsets[..|offsets|] == offsets;
    NoRegion(k, cpts, offsets);
    while r < |offsets|
      invariant 0 <= r <= |offsets| && start == Sum(offsets[..r]) <= |cpts| && Tiles(k, cpts, pieces, start)
      invariant pieces == Regions(k, cpts, offsets[..r])
    {
      assert offsets[..r + 1] == offsets[..r] + [offsets[r]];
      SumSnoc(offsets[..r], offsets[r]);
      SumPrefix(offsets, r + 1);
      RegionsSnoc(k, cpts, offsets[..r], offsets[r]);
      var end := start + offsets[r];
      var pos := start;
      ghost var before := pieces;
      while pos < end
        invariant start <= pos <= end && Tiles(k, cpts, pieces, pos)
        invariant pieces + PiecesFrom(k, cpts, end, pos) == before + PiecesFrom(k, cpts, end, start)
      {
        var next := NextPiece(k, cpts, end, pos);
        PieceGood(k, cpts, end, pos);
        TilesSnoc(k, cpts, pieces, pos, end, next);
        pieces := pieces + [next - pos];
        pos := next;
      }
      start := end;
      r := r + 1;
    }
  }

  lemma NoRegion(k: Classes, cpts: seq<nat>, offsets: seq<nat>)
    ensures offsets[..0] == [] && Sum(offsets[..0]) == 0 && Regions(k, cpts, offsets[..0]) == [] && Tiles(k, cpts, [], 0)
  {
  }

  lemma {:induction false} SumPrefix(sizes: seq<nat>, n: nat)
    requires n <= |sizes|
    ensures Sum(sizes[..n]) <= Sum(sizes)
    decreases |sizes|
  {
    if n == |sizes| {
      assert sizes[..n] == sizes;
    } else {
      SumPrefix(sizes[..|sizes| - 1], n);
      assert sizes[..|sizes| - 1][..n] == sizes[..n];
    }
  }
}
