/** How Qwen3EncodeLayer::encode cuts a text at its special tokens. */
module Segments {
  import opened Common
  import opened Utf8
  import opened Bpe

  datatype Segment = Ordinary(text: Bytes) | Special(text: Bytes)

  predicate OccursAt(s: Bytes, t: Bytes, i: nat) {
    i + |t| <= |s| && s[i..i + |t|] == t
  }

  /** std::string::find. */
  function Find(s: Bytes, t: Bytes, i: nat): (r: Option<nat>)
    ensures r.Some? ==> r.value >= i && OccursAt(s, t, r.value)
    ensures forall j: nat :: i <= j && (r.Some? ==> j < r.value) ==> !OccursAt(s, t, j)
    decreases |s| - i
  {
    if i + |t| > |s| then None
    else if OccursAt(s, t, i) then Some(i)
    else Find(s, t, i + 1)
  }

  /** The loop over the special tokens: a later one wins only if it is found strictly earlier. */
  function NextSpecial(tokens: seq<Bytes>, s: Bytes, cursor: nat): (r: Option<(nat, Bytes)>)
    ensures r.Some? ==> r.value.0 >= cursor && r.value.1 in tokens && OccursAt(s, r.value.1, r.value.0)
  {
    if tokens == [] then None
    else
      var before := NextSpecial(tokens[..|tokens| - 1], s, cursor);
      var found := Find(s, tokens[|tokens| - 1], cursor);
      if found.Some? && (before.None? || found.value < before.value.0) then Some((found.value, tokens[|tokens| - 1]))
      else before
  }

  ghost predicate LongestFirst(tokens: seq<Bytes>) {
    forall a: nat, b: nat :: a < b < |tokens| ==> |tokens[a]| >= |tokens[b]|
  }

  /** It finds the earliest occurrence of any token; of those that occur there, the longest. */
  lemma {:induction false} NextSpecialMeaning(tokens: seq<Bytes>, s: Bytes, cursor: nat)
    ensures var r := NextSpecial(tokens, s, cursor);
      && (forall t: Bytes, j: nat :: t in tokens && cursor <= j && (r.Some? ==> j < r.value.0) ==> !OccursAt(s, t, j))
      && (r.Some? && LongestFirst(tokens) ==> forall t: Bytes :: t in tokens && OccursAt(s, t, r.value.0) ==> |t| <= |r.value.1|)
    decreases |tokens|
  {
    if tokens != [] {
      var init, last := tokens[..|tokens| - 1], tokens[|tokens| - 1];
      NextSpecialMeaning(init, s, cursor);
      assert forall t: Bytes :: t in tokens ==> t in init || t == last;
      var r, before := NextSpecial(tokens, s, cursor), NextSpecial(init, s, cursor);
      if r.Some? && LongestFirst(tokens) {
        assert LongestFirst(init);
        forall t: Bytes | t in tokens && OccursAt(s, t, r.value.0) ensures |t| <= |r.value.1| {
          if r == before {
            LastIsShortest(tokens, r.value.1);
          }
        }
      }
    }
  }

  lemma LastIsShortest(tokens: seq<Bytes>, t: Bytes)
    requires LongestFirst(tokens) && tokens != [] && t in tokens[..|tokens| - 1]
    ensures |tokens[|tokens| - 1]| <= |t|
  {
    var a: nat :| a < |tokens| - 1 && tokens[a] == t;
  }

  ghost predicate NonEmpty(tokens: seq<Bytes>) {
    forall t: Bytes :: t in tokens ==> t != []
  }

  /** The text from `cursor` on, cut at its special tokens. */
  ghost function Cut(tokens: seq<Bytes>, s: Bytes, cursor: nat): seq<Segment>
    requires NonEmpty(tokens) && cursor <= |s|
    decreases |s| - cursor
  {
    if cursor == |s| then []
    else
      match NextSpecial(tokens, s, cursor)
      case None => [Ordinary(s[cursor..])]
      case Some((i, t)) =>
        (if i > cursor then [Ordinary(s[cursor..i])] else []) + [Special(t)] + Cut(tokens, s, i + |t|)
  }

  function Text(segments: seq<Segment>): Bytes {
    if segments == [] then [] else segments[0].text + Text(segments[1..])
  }

  lemma {:induction false} TextConcat(a: seq<Segment>, b: seq<Segment>)
    ensures Text(a + b) == Text(a) + Text(b)
  {
    if a == [] {
      assert a + b == b;
      assert [] + Text(b) == Text(b);
    } else {
      assert (a + b)[1..] == a[1..] + b;
      TextConcat(a[1..], b);
      Associative(a[0].text, Text(a[1..]), Text(b));
    }
  }

  lemma Associative(x: Bytes, y: Bytes, z: Bytes)
    ensures x + (y + z) == (x + y) + z
  {
  }

  lemma TextOne(g: Segment)
    ensures Text([g]) == g.text
  {
    assert g.text + [] == g.text;
  }

  /** Cutting loses nothing. */
  lemma {:induction false} CutKeepsText(tokens: seq<Bytes>, s: Bytes, cursor: nat)
    requires NonEmpty(tokens) && cursor <= |s|
    ensures Text(Cut(tokens, s, cursor)) == s[cursor..]
    decreases |s| - cursor
  {
    hide Text;
    if cursor == |s| {
      assert Cut(tokens, s, cursor) == [];
      TextNone();
    } else {
      match NextSpecial(tokens, s, cursor)
      case None =>
        TextOne(Ordinary(s[cursor..]));
      case Some((i, t)) =>
        CutKeepsText(tokens, s, i + |t|);
        var front := if i > cursor then [Ordinary(s[cursor..i])] else [];
        TextNone();
        TextOne(Ordinary(s[cursor..i]));
        TextOne(Special(t));
        TextConcat(front + [Special(t)], Cut(tokens, s, i + |t|));
        TextConcat(front, [Special(t)]);
        assert s[cursor..] == s[cursor..i] + s[i..i + |t|] + s[i + |t|..];
    }
  }

  lemma TextNone()
    ensures Text([]) == []
  {
  }

  /** What a segment must be like: a special token, or an ordinary text with no special token in it. */
  ghost predicate SegmentOk(tokens: seq<Bytes>, g: Segment) {
    match g
    case Special(t) => t in tokens
    case Ordinary(text) => text != [] && forall t: Bytes, j: nat :: t in tokens ==> !OccursAt(text, t, j)
  }

  ghost predicate SegmentsOk(tokens: seq<Bytes>, segments: seq<Segment>) {
    forall k: nat :: k < |segments| ==> SegmentOk(tokens, segments[k])
  }

  /** No special token is left inside an ordinary segment. */
  lemma {:induction false} CutIsOk(tokens: seq<Bytes>, s: Bytes, cursor: nat)
    requires NonEmpty(tokens) && cursor <= |s|
    ensures SegmentsOk(tokens, Cut(tokens, s, cursor))
    decreases |s| - cursor
  {
    hide SegmentOk;
    if cursor < |s| {
      NextSpecialMeaning(tokens, s, cursor);
      match NextSpecial(tokens, s, cursor)
      case None =>
        OrdinaryOk(tokens, s, cursor, |s|);
        assert s[cursor..|s|] == s[cursor..];
      case Some((i, t)) =>
        if i > cursor {
          OrdinaryOk(tokens, s, cursor, i);
        }
        SpecialOk(tokens, t);
        CutIsOk(tokens, s, i + |t|);
    }
  }

  lemma SpecialOk(tokens: seq<Bytes>, t: Bytes)
    requires t in tokens
    ensures SegmentOk(tokens, Special(t))
  {
  }

  lemma OrdinaryOk(tokens: seq<Bytes>, s: Bytes, from: nat, end: nat)
    requires NonEmpty(tokens) && from < end <= |s|
    requires forall t: Bytes, j: nat :: t in tokens && from <= j < end ==> !OccursAt(s, t, j)
    ensures SegmentOk(tokens, Ordinary(s[from..end]))
  {
    var text := s[from..end];
    forall t: Bytes, j: nat | t in tokens && j < |text| ensures !OccursAt(text, t, j) {
      assert !OccursAt(s, t, from + j);
      OccursInside(s, t, from, end, j);
    }
  }

  lemma OccursInside(s: Bytes, t: Bytes, from: nat, end: nat, j: nat)
    requires from <= end <= |s|
    ensures OccursAt(s[from..end], t, j) ==> OccursAt(s, t, from + j)
  {
    if j + |t| <= end - from {
      var a, b := s[from..end][j..j + |t|], s[from + j..from + j + |t|];
      assert forall x :: 0 <= x < |t| ==> a[x] == b[x];
      assert a == b;
    }
  }

  ghost predicate TokensShortest(tokens: seq<Bytes>) {
    forall t: Bytes :: t in tokens ==> ShortestForm(t)
  }

  ghost predicate AllShortest(segments: seq<Segment>) {
    forall k: nat :: k < |segments| ==> ShortestForm(segments[k].text)
  }

  /** UTF-8 being self-synchronising, a well-formed text is cut at character boundaries only. */
  lemma {:induction false} CutShortest(tokens: seq<Bytes>, s: Bytes, cursor: nat)
    requires NonEmpty(tokens) && TokensShortest(tokens) && cursor <= |s| && ShortestForm(s[cursor..])
    ensures AllShortest(Cut(tokens, s, cursor))
    decreases |s| - cursor
  {
    hide ShortestForm, AllShortest, NextSpecial;
    if cursor == |s| {
      OneShortest([]);
    } else {
      match NextSpecial(tokens, s, cursor)
      case None =>
        OneShortest([Ordinary(s[cursor..])]);
      case Some((i, t)) =>
        var a, b := s[cursor..i], s[i + |t|..];
        assert s[cursor..] == a + t + b;
        ShortestStarts(t);
        SelfSynchronising(a, t, b);
        ShortestSuffix(a, t);
        ShortestSuffix(a + t, b);
        CutShortest(tokens, s, i + |t|);
        var front := if i > cursor then [Ordinary(a)] else [];
        OneShortest(front);
        OneShortest([Special(t)]);
        JoinShortest(front, [Special(t)]);
        JoinShortest(front + [Special(t)], Cut(tokens, s, i + |t|));
    }
  }

  lemma OneShortest(segments: seq<Segment>)
    requires |segments| <= 1 && (segments != [] ==> ShortestForm(segments[0].text))
    ensures AllShortest(segments)
  {
  }

  lemma JoinShortest(a: seq<Segment>, b: seq<Segment>)
    requires AllShortest(a) && AllShortest(b)
    ensures AllShortest(a + b)
  {
  }
}
