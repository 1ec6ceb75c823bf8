/** The pre-tokenizer's alternatives as rules on the text, tried in their order: which characters a piece takes,
    without the functions that the matcher is made of. */
module SplitterRules {
  import opened Common
  import opened Splitter

  /** From `p` up to `q` all code points pass, and at `q` the region ends or one does not. */
  ghost predicate RunsTo(cpts: seq<nat>, end: nat, p: nat, q: nat, test: nat -> bool) {
    && p <= q <= end <= |cpts|
    && (forall x: nat :: p <= x < q ==> test(cpts[x]))
    && (q == end || !test(cpts[q]))
  }

  lemma RunsOnce(cpts: seq<nat>, end: nat, p: nat, q: nat, r: nat, test: nat -> bool)
    requires RunsTo(cpts, end, p, q, test) && RunsTo(cpts, end, p, r, test)
    ensures q == r
  {
  }

  lemma RunEndRuns(cpts: seq<nat>, end: nat, p: nat, test: nat -> bool)
    requires p <= end <= |cpts|
    ensures RunsTo(cpts, end, p, RunEnd(cpts, end, p, test), test)
  {
  }

  /** 's 't 'm 'd, in either case. */
  ghost predicate ShortContraction(k: Classes, cpts: seq<nat>, end: nat, pos: nat)
    requires pos < end <= |cpts|
  {
    && cpts[pos] == 0x27 && pos + 1 < end
    && var c := k.lower(cpts[pos + 1]); c == 0x73 || c == 0x74 || c == 0x6D || c == 0x64
  }

  /** 're 've 'll. */
  ghost predicate LongContraction(k: Classes, cpts: seq<nat>, end: nat, pos: nat)
    requires pos < end <= |cpts|
  {
    && cpts[pos] == 0x27 && pos + 2 < end
    && var c, d := k.lower(cpts[pos + 1]), k.lower(cpts[pos + 2]);
       (c == 0x72 && d == 0x65) || (c == 0x76 && d == 0x65) || (c == 0x6C && d == 0x6C)
  }

  ghost predicate LetterAt(k: Classes, cpts: seq<nat>, end: nat, p: nat)
    requires end <= |cpts|
  {
    p < end && k.flags(cpts[p]).letter
  }

  ghost predicate NumberAt(k: Classes, cpts: seq<nat>, end: nat, p: nat)
    requires end <= |cpts|
  {
    p < end && k.flags(cpts[p]).number
  }

  ghost predicate BreakAt(cpts: seq<nat>, end: nat, p: nat)
    requires end <= |cpts|
  {
    p < end && (cpts[p] == 0x0D || cpts[p] == 0x0A)
  }

  /** A mark: a known character that is no letter, number or white space. */
  ghost predicate MarkAt(k: Classes, cpts: seq<nat>, end: nat, p: nat)
    requires end <= |cpts|
  {
    p < end && k.flags(cpts[p]).known && !k.flags(cpts[p]).letter && !k.flags(cpts[p]).number && !k.flags(cpts[p]).whitespace
  }

  ghost function LetterTest(k: Classes): nat -> bool {
    (cp: nat) => k.flags(cp).letter
  }

  ghost function MarkTest(k: Classes): nat -> bool {
    (cp: nat) => k.flags(cp).known && !k.flags(cp).letter && !k.flags(cp).number && !k.flags(cp).whitespace
  }

  ghost function BlankTest(k: Classes): nat -> bool {
    (cp: nat) => k.flags(cp).whitespace
  }

  ghost function BreakTest(): nat -> bool {
    (cp: nat) => cp == 0x0D || cp == 0x0A
  }

  ghost predicate LettersTo(k: Classes, cpts: seq<nat>, end: nat, p: nat, q: nat) {
    LetterAtOr(k, cpts, end, p) && RunsTo(cpts, end, p, q, LetterTest(k))
  }

  ghost predicate LetterAtOr(k: Classes, cpts: seq<nat>, end: nat, p: nat) {
    end <= |cpts| && LetterAt(k, cpts, end, p)
  }

  ghost predicate BreaksTo(cpts: seq<nat>, end: nat, p: nat, q: nat) {
    RunsTo(cpts, end, p, q, BreakTest())
  }

  /** Marks from `p` on, as far as they go, and all line breaks behind them. */
  ghost predicate MarksTo(k: Classes, cpts: seq<nat>, end: nat, p: nat, q: nat) {
    && end <= |cpts| && MarkAt(k, cpts, end, p)
    && exists last: nat ::
         && RunsTo(cpts, end, p, last, MarkTest(k))
         && BreaksTo(cpts, end, last, q)
  }

  /** White space up to `all`: to the end of its first line breaks if it has any; else all of it, less the last
      character if something follows and that leaves one. */
  ghost predicate SpaceTo(k: Classes, cpts: seq<nat>, end: nat, p: nat, q: nat) {
    exists all: nat :: RunsTo(cpts, end, p, all, BlankTest(k)) && SpaceWithin(cpts, end, p, all, q)
  }

  ghost predicate SpaceWithin(cpts: seq<nat>, end: nat, p: nat, all: nat, q: nat)
    requires p <= all <= end <= |cpts|
  {
    if exists x: nat :: p <= x < all && BreakAt(cpts, end, x) then
      exists first: nat :: p <= first < all && BreakAt(cpts, end, first) && BreaksTo(cpts, end, first, q)
        && forall x: nat :: p <= x < first ==> !BreakAt(cpts, end, x)
    else q == if all < end && all > p + 1 then all - 1 else all
  }

  /** The alternatives in order. */
  ghost predicate PieceRule(k: Classes, cpts: seq<nat>, end: nat, pos: nat, next: nat)
    requires pos < end <= |cpts|
  {
    if ShortContraction(k, cpts, end, pos) then next == pos + 2
    else if LongContraction(k, cpts, end, pos) then next == pos + 3
    else if LetterAt(k, cpts, end, pos) then LettersTo(k, cpts, end, pos, next)
    else if !BreakAt(cpts, end, pos) && !NumberAt(k, cpts, end, pos) && LetterAt(k, cpts, end, pos + 1) then LettersTo(k, cpts, end, pos + 1, next)
    else if NumberAt(k, cpts, end, pos) then next == pos + 1
    else if cpts[pos] == 0x20 && MarkAt(k, cpts, end, pos + 1) then MarksTo(k, cpts, end, pos + 1, next)
    else if MarkAt(k, cpts, end, pos) then MarksTo(k, cpts, end, pos, next)
    else if k.flags(cpts[pos]).whitespace then SpaceTo(k, cpts, end, pos, next)
    else next == pos + 1
  }

  // ---------------------------------------------------------------- the rules decide

  lemma MarksOnce(k: Classes, cpts: seq<nat>, end: nat, p: nat, q: nat, r: nat)
    requires MarksTo(k, cpts, end, p, q) && MarksTo(k, cpts, end, p, r)
    ensures q == r
  {
    var test := MarkTest(k);
    var a: nat :| RunsTo(cpts, end, p, a, test) && BreaksTo(cpts, end, a, q);
    var b: nat :| RunsTo(cpts, end, p, b, test) && BreaksTo(cpts, end, b, r);
    RunsOnce(cpts, end, p, a, b, test);
    RunsOnce(cpts, end, a, q, r, BreakTest());
  }

  lemma SpaceOnce(k: Classes, cpts: seq<nat>, end: nat, p: nat, q: nat, r: nat)
    requires SpaceTo(k, cpts, end, p, q) && SpaceTo(k, cpts, end, p, r)
    ensures q == r
  {
    var test := BlankTest(k);
    var a: nat :| RunsTo(cpts, end, p, a, test) && SpaceWithin(cpts, end, p, a, q);
    var b: nat :| RunsTo(cpts, end, p, b, test) && SpaceWithin(cpts, end, p, b, r);
    RunsOnce(cpts, end, p, a, b, test);
    if exists x: nat :: p <= x < a && BreakAt(cpts, end, x) {
      var f: nat :| p <= f < a && BreakAt(cpts, end, f) && BreaksTo(cpts, end, f, q) && forall x: nat :: p <= x < f ==> !BreakAt(cpts, end, x);
      var g: nat :| p <= g < a && BreakAt(cpts, end, g) && BreaksTo(cpts, end, g, r) && forall x: nat :: p <= x < g ==> !BreakAt(cpts, end, x);
      assert f == g;
      RunsOnce(cpts, end, f, q, r, BreakTest());
    }
  }

  /** There is one end that the rules allow. */
  lemma RuleOnce(k: Classes, cpts: seq<nat>, end: nat, pos: nat, q: nat, r: nat)
    requires pos < end <= |cpts| && PieceRule(k, cpts, end, pos, q) && PieceRule(k, cpts, end, pos, r)
    ensures q == r
  {
    hide MarksTo, SpaceTo, ShortContraction, LongContraction, LetterAt, NumberAt, BreakAt, MarkAt, RunsTo;
    var letter := LetterTest(k);
    if RunsTo(cpts, end, pos, q, letter) && RunsTo(cpts, end, pos, r, letter) {
      RunsOnce(cpts, end, pos, q, r, letter);
    }
    if RunsTo(cpts, end, pos + 1, q, letter) && RunsTo(cpts, end, pos + 1, r, letter) {
      RunsOnce(cpts, end, pos + 1, q, r, letter);
    }
    if MarksTo(k, cpts, end, pos + 1, q) && MarksTo(k, cpts, end, pos + 1, r) {
      MarksOnce(k, cpts, end, pos + 1, q, r);
    }
    if MarksTo(k, cpts, end, pos, q) && MarksTo(k, cpts, end, pos, r) {
      MarksOnce(k, cpts, end, pos, q, r);
    }
    if SpaceTo(k, cpts, end, pos, q) && SpaceTo(k, cpts, end, pos, r) {
      SpaceOnce(k, cpts, end, pos, q, r);
    }
  }

  // ---------------------------------------------------------------- the matcher follows them

  lemma ContractionRule(k: Classes, cpts: seq<nat>, end: nat, pos: nat)
    requires pos < end <= |cpts|
    ensures ContractionAt(k, cpts, end, pos) ==
      if ShortContraction(k, cpts, end, pos) then 2 else if LongContraction(k, cpts, end, pos) then 3 else 0
  {
  }

  lemma LetterRule(k: Classes, cpts: seq<nat>, end: nat, pos: nat)
    requires pos < end <= |cpts|
    ensures var next := LetterEnd(k, cpts, end, pos);
      if LetterAt(k, cpts, end, pos) then LettersTo(k, cpts, end, pos, next) && next > pos
      else if !BreakAt(cpts, end, pos) && !NumberAt(k, cpts, end, pos) && LetterAt(k, cpts, end, pos + 1)
      then LettersTo(k, cpts, end, pos + 1, next) && next > pos
      else next == pos
  {
    RunEndRuns(cpts, end, pos, IsLetter(k));
    SameRuns(cpts, end, pos, RunEnd(cpts, end, pos, IsLetter(k)), IsLetter(k), LetterTest(k));
    if pos + 1 <= end {
      RunEndRuns(cpts, end, pos + 1, IsLetter(k));
      SameRuns(cpts, end, pos + 1, RunEnd(cpts, end, pos + 1, IsLetter(k)), IsLetter(k), LetterTest(k));
    }
  }

  lemma SameRuns(cpts: seq<nat>, end: nat, p: nat, q: nat, a: nat -> bool, b: nat -> bool)
    requires RunsTo(cpts, end, p, q, a) && forall cp: nat :: a(cp) == b(cp)
    ensures RunsTo(cpts, end, p, q, b)
  {
  }

  lemma MarksFrom(k: Classes, cpts: seq<nat>, end: nat, first: nat)
    requires first < end <= |cpts| && MarkAt(k, cpts, end, first)
    ensures var next := RunEnd(cpts, end, RunEnd(cpts, end, first, IsMark(k)), IsLineBreak);
      MarksTo(k, cpts, end, first, next) && next > first
  {
    var last := RunEnd(cpts, end, first, IsMark(k));
    RunEndRuns(cpts, end, first, IsMark(k));
    forall cp: nat ensures IsMark(k)(cp) == MarkTest(k)(cp) {
      var f := k.flags(cp);
      assert IsMark(k)(cp) == Punctuation(f);
      assert MarkTest(k)(cp) == (f.known && !f.letter && !f.number && !f.whitespace);
    }
    SameRuns(cpts, end, first, last, IsMark(k), MarkTest(k));
    RunEndRuns(cpts, end, last, IsLineBreak);
    SameRuns(cpts, end, last, RunEnd(cpts, end, last, IsLineBreak), IsLineBreak, BreakTest());
  }

  lemma MarksRule(k: Classes, cpts: seq<nat>, end: nat, pos: nat)
    requires pos < end <= |cpts| && k.Sane()
    ensures var next := MarksEnd(k, cpts, end, pos);
      if cpts[pos] == 0x20 && MarkAt(k, cpts, end, pos + 1) then MarksTo(k, cpts, end, pos + 1, next) && next > pos
      else if MarkAt(k, cpts, end, pos) then MarksTo(k, cpts, end, pos, next) && next > pos
      else next == pos
  {
    hide MarksTo;
    if MarkAt(k, cpts, end, pos) {
      MarksFrom(k, cpts, end, pos);
    }
    if MarkAt(k, cpts, end, pos + 1) {
      MarksFrom(k, cpts, end, pos + 1);
    }
  }

  lemma SpaceRule(k: Classes, cpts: seq<nat>, end: nat, pos: nat)
    requires pos < end <= |cpts| && k.Sane() && k.flags(cpts[pos]).whitespace
    ensures SpaceTo(k, cpts, end, pos, BlankEnd(k, cpts, end, pos))
  {
    var all := RunEnd(cpts, end, pos, IsBlank(k));
    RunEndRuns(cpts, end, pos, IsBlank(k));
    SameRuns(cpts, end, pos, all, IsBlank(k), BlankTest(k));
    SpaceWithinRule(k, cpts, end, pos, all);
    hide SpaceWithin, BlankEnd, RunEnd;
  }

  lemma SpaceWithinRule(k: Classes, cpts: seq<nat>, end: nat, pos: nat, all: nat)
    requires pos < end <= |cpts| && k.Sane() && k.flags(cpts[pos]).whitespace && all == RunEnd(cpts, end, pos, IsBlank(k))
    ensures SpaceWithin(cpts, end, pos, all, BlankEnd(k, cpts, end, pos))
  {
    var newline := RunEnd(cpts, end, pos, IsBlankOnLine(k));
    assert newline <= all;
    if newline < end && LineBreak(cpts[newline]) {
      BreaksWithin(k, cpts, end, pos, newline, all);
      RunEndRuns(cpts, end, newline, IsLineBreak);
      SameRuns(cpts, end, newline, RunEnd(cpts, end, newline, IsLineBreak), IsLineBreak, BreakTest());
      assert BreakAt(cpts, end, newline);
      forall x: nat | pos <= x < newline ensures !BreakAt(cpts, end, x) {
        assert IsBlankOnLine(k)(cpts[x]);
      }
    } else {
      assert newline == all;
      forall x: nat | pos <= x < all ensures !BreakAt(cpts, end, x) {
        assert IsBlankOnLine(k)(cpts[x]);
      }
    }
  }

  /** The matcher's piece is the one that the rules allow. */
  lemma PieceFollowsRules(k: Classes, cpts: seq<nat>, end: nat, pos: nat)
    requires pos < end <= |cpts| && k.Sane()
    ensures PieceRule(k, cpts, end, pos, PieceEnd(k, cpts, end, pos))
  {
    hide MarksTo, SpaceTo, ShortContraction, LongContraction, LetterAt, BreakAt, MarkAt, LettersTo,
      ContractionAt, LetterEnd, MarksEnd, BlankEnd, Classes.Sane;
    ContractionRule(k, cpts, end, pos);
    LetterRule(k, cpts, end, pos);
    MarksRule(k, cpts, end, pos);
    if k.flags(cpts[pos]).whitespace {
      SpaceRule(k, cpts, end, pos);
    }
  }

  // ---------------------------------------------------------------- single promises

  /** A character in front of a word is taken along exactly if a letter follows it. */
  lemma FrontOfWord(k: Classes, cpts: seq<nat>, end: nat, pos: nat)
    requires pos < end <= |cpts| && k.Sane()
    requires !LetterAt(k, cpts, end, pos) && !NumberAt(k, cpts, end, pos) && !BreakAt(cpts, end, pos)
    requires !ShortContraction(k, cpts, end, pos) && !LongContraction(k, cpts, end, pos)
    ensures LettersTo(k, cpts, end, pos + 1, PieceEnd(k, cpts, end, pos)) <==> LetterAt(k, cpts, end, pos + 1)
  {
    PieceFollowsRules(k, cpts, end, pos);
    hide MarksTo, SpaceTo, ShortContraction, LongContraction, PieceEnd;
  }

  /** A space is taken along with the marks behind it exactly if a mark follows it. */
  lemma FrontOfMarks(k: Classes, cpts: seq<nat>, end: nat, pos: nat)
    requires pos < end <= |cpts| && k.Sane() && cpts[pos] == 0x20
    ensures MarksTo(k, cpts, end, pos + 1, PieceEnd(k, cpts, end, pos)) <==> MarkAt(k, cpts, end, pos + 1)
  {
    PieceFollowsRules(k, cpts, end, pos);
    hide SpaceTo, PieceEnd;
  }

  /** An apostrophe and what follows are a contraction of two or three characters exactly if the rules say so. */
  lemma ContractionPiece(k: Classes, cpts: seq<nat>, end: nat, pos: nat)
    requires pos < end <= |cpts| && k.Sane()
    ensures ShortContraction(k, cpts, end, pos) ==> PieceEnd(k, cpts, end, pos) == pos + 2
    ensures !ShortContraction(k, cpts, end, pos) && LongContraction(k, cpts, end, pos) ==> PieceEnd(k, cpts, end, pos) == pos + 3
  {
    PieceFollowsRules(k, cpts, end, pos);
    hide PieceEnd;
  }

  // ---------------------------------------------------------------- whole texts

  /** Each piece of a text ends where the rules say, in its turn. */
  lemma {:induction false} PiecesFollowRules(k: Classes, cpts: seq<nat>, end: nat, pos: nat, j: nat)
    requires pos <= end <= |cpts| && k.Sane() && j < |PiecesFrom(k, cpts, end, pos)|
    ensures pos + Sum(PiecesFrom(k, cpts, end, pos)[..j]) < end
    ensures var begin := pos + Sum(PiecesFrom(k, cpts, end, pos)[..j]);
      PieceRule(k, cpts, end, begin, begin + PiecesFrom(k, cpts, end, pos)[j])
    decreases end - pos
  {
    hide PieceRule, PieceEnd, Classes.Sane;
    var pieces := PiecesFrom(k, cpts, end, pos);
    var next := PieceEnd(k, cpts, end, pos);
    if j == 0 {
      PieceFollowsRules(k, cpts, end, pos);
      assert pieces[..0] == [] && Sum(pieces[..0]) == 0;
    } else {
      var rest := PiecesFrom(k, cpts, end, next);
      assert pieces == [next - pos] + rest;
      PiecesFollowRules(k, cpts, end, next, j - 1);
      assert pieces[..j] == [next - pos] + rest[..j - 1];
      SumFront(next - pos, rest[..j - 1]);
    }
  }

  lemma {:induction false} SumFront(n: nat, sizes: seq<nat>)
    ensures Sum([n] + sizes) == n + Sum(sizes)
    decreases |sizes|
  {
    if sizes == [] {
      assert [n] + sizes == [n] && [n][..0] == [];
    } else {
      var init := sizes[..|sizes| - 1];
      SumFront(n, init);
      assert ([n] + sizes)[..|sizes|] == [n] + init;
    }
  }
}
