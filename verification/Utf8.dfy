/** The UTF-8 codec of utils/src/unicode.cpp. The decoder takes any form of one to four bytes; the
    encoder writes the shortest one. Masks and shifts are written as divisions by powers of two. */
module Utf8 {
  import opened Common

  type Byte = b: int | 0 <= b < 256

  type Bytes = seq<Byte>

  predicate Continues(b: Byte) {
    0x80 <= b < 0xC0
  }

  /** The payload of a continuation byte, and of a leading byte. */
  function Tail(b: Byte): nat {
    b % 0x40
  }

  function Lead(b: Byte, size: nat): nat
    requires size > 0
  {
    b % size
  }

  /** unicode_cpt_from_utf8 at the start of `s`: the code point and how many bytes it takes. */
  function First(s: Bytes): (r: Option<(nat, nat)>)
    requires s != []
    ensures r.Some? ==> 1 <= r.value.1 <= |s|
  {
    if s[0] < 0x80 then Some((s[0], 1))
    else if s[0] < 0xC0 then None
    else if s[0] < 0xE0 then
      if 1 >= |s| || !Continues(s[1]) then None
      else Some((Lead(s[0], 0x20) * 0x40 + Tail(s[1]), 2))
    else if s[0] < 0xF0 then
      if 2 >= |s| || !Continues(s[1]) || !Continues(s[2]) then None
      else Some((Lead(s[0], 0x10) * 0x1000 + Tail(s[1]) * 0x40 + Tail(s[2]), 3))
    else if s[0] < 0xF8 then
      if 3 >= |s| || !Continues(s[1]) || !Continues(s[2]) || !Continues(s[3]) then None
      else Some((Lead(s[0], 0x08) * 0x40000 + Tail(s[1]) * 0x1000 + Tail(s[2]) * 0x40 + Tail(s[3]), 4))
    else None
  }

  /** unicode_cpt_to_utf8; code points above 0x10FFFF are refused. */
  function Encode(cp: nat): (r: Option<Bytes>)
    ensures r.Some? ==> 1 <= |r.value| <= 4
  {
    if cp <= 0x7F then Some([cp])
    else if cp <= 0x7FF then Some([0xC0 + cp / 0x40 % 0x20, 0x80 + cp % 0x40])
    else if cp <= 0xFFFF then Some([0xE0 + cp / 0x1000 % 0x10, 0x80 + cp / 0x40 % 0x40, 0x80 + cp % 0x40])
    else if cp <= 0x10FFFF then
      Some([0xF0 + cp / 0x40000 % 0x08, 0x80 + cp / 0x1000 % 0x40, 0x80 + cp / 0x40 % 0x40, 0x80 + cp % 0x40])
    else None
  }

  /** unicode_cpts_from_utf8. */
  function Cpts(s: Bytes): Option<seq<nat>>
    decreases |s|
  {
    if s == [] then Some([]) else
      match First(s)
      case None => None
      case Some((cp, n)) =>
        match Cpts(s[n..])
        case None => None
        case Some(rest) => Some([cp] + rest)
  }

  /** unicode_cpts_to_utf8. */
  function ToUtf8(cpts: seq<nat>): Option<Bytes> {
    if cpts == [] then Some([]) else
      match (Encode(cpts[0]), ToUtf8(cpts[1..]))
      case (Some(e), Some(rest)) => Some(e + rest)
      case _ => None
  }

  method CptFromUtf8(utf8: Bytes, offset: nat) returns (cp: Option<nat>, offset': nat)
    requires offset < |utf8|
    ensures cp == (if First(utf8[offset..]).Some? then Some(First(utf8[offset..]).value.0) else None)
    ensures cp.Some? ==> offset' == offset + First(utf8[offset..]).value.1 && offset < offset' <= |utf8|
  {
    offset' := offset;
    var s := utf8[offset..];
    if utf8[offset] < 0x80 {
      return Some(utf8[offset]), offset + 1;
    }
    if utf8[offset] < 0xC0 {
      return None, offset;
    }
    if utf8[offset] < 0xE0 {
      if offset + 1 >= |utf8| || !Continues(utf8[offset + 1]) {
        return None, offset;
      }
      return Some(Lead(utf8[offset], 0x20) * 0x40 + Tail(utf8[offset + 1])), offset + 2;
    }
    if utf8[offset] < 0xF0 {
      if offset + 2 >= |utf8| || !Continues(utf8[offset + 1]) || !Continues(utf8[offset + 2]) {
        return None, offset;
      }
      return Some(Lead(utf8[offset], 0x10) * 0x1000 + Tail(utf8[offset + 1]) * 0x40 + Tail(utf8[offset + 2])), offset + 3;
    }
    if utf8[offset] < 0xF8 {
      if offset + 3 >= |utf8| || !Continues(utf8[offset + 1]) || !Continues(utf8[offset + 2]) || !Continues(utf8[offset + 3]) {
        return None, offset;
      }
      return Some(Lead(utf8[offset], 0x08) * 0x40000 + Tail(utf8[offset + 1]) * 0x1000 + Tail(utf8[offset + 2]) * 0x40 + Tail(utf8[offset + 3])), offset + 4;
    }
    return None, offset;
  }

  method CptsFromUtf8(utf8: Bytes) returns (r: Option<seq<nat>>)
    ensures r == Cpts(utf8)
  {
    hide First;
    var result: seq<nat> := [];
    var offset := 0;
    assert utf8[0..] == utf8;
    assert Cpts(utf8).Some? ==> [] + Cpts(utf8).value == Cpts(utf8).value;
    while offset < |utf8|
      invariant 0 <= offset <= |utf8|
      invariant Cpts(utf8) == match Cpts(utf8[offset..]) case None => None case Some(rest) => Some(result + rest)
      decreases |utf8| - offset
    {
      var cp;
      ghost var was := offset;
      cp, offset := CptFromUtf8(utf8, offset);
      if cp.None? {
        return None;
      }
      assert utf8[was..][offset - was..] == utf8[offset..];
      assert Cpts(utf8[offset..]).Some? ==> result + ([cp.value] + Cpts(utf8[offset..]).value) == (result + [cp.value]) + Cpts(utf8[offset..]).value;
      result := result + [cp.value];
    }
    assert utf8[offset..] == [] && result + [] == result;
    return Some(result);
  }

  // ---------------------------------------------------------------- shortest forms

  /** The form is the only one its code point may have: section 4 of RFC 3629, but for the surrogates,
      which the program codes like any other code point. */
  predicate Shortest(s: Bytes, n: nat)
    requires 1 <= n <= |s|
  {
    || n == 1
    || (n == 2 && s[0] >= 0xC2)
    || (n == 3 && (s[0] > 0xE0 || s[1] >= 0xA0))
    || (n == 4 && (s[0] > 0xF0 || s[1] >= 0x90) && (s[0] < 0xF4 || (s[0] == 0xF4 && s[1] < 0x90)))
  }

  /** A string of shortest forms. */
  predicate ShortestForm(s: Bytes)
    decreases |s|
  {
    s == [] || (First(s).Some? && Shortest(s, First(s).value.1) && ShortestForm(s[First(s).value.1..]))
  }

  /** Six bits at a time. */
  lemma Sixes(n: nat)
    ensures n / 0x1000 == n / 0x40 / 0x40 && n / 0x40000 == n / 0x40 / 0x40 / 0x40
    ensures n == n / 0x40 * 0x40 + n % 0x40
    ensures n == n / 0x1000 * 0x1000 + n / 0x40 % 0x40 * 0x40 + n % 0x40
    ensures n == n / 0x40000 * 0x40000 + n / 0x1000 % 0x40 * 0x1000 + n / 0x40 % 0x40 * 0x40 + n % 0x40
  {
  }

  lemma Pack(n: nat, d: nat)
    requires d < 0x40
    ensures (n * 0x40 + d) / 0x40 == n && (n * 0x40 + d) % 0x40 == d
  {
  }

  lemma TailOf(d: nat)
    requires d < 0x40
    ensures Continues(0x80 + d) && Tail(0x80 + d) == d
  {
  }

  /** Decoding undoes encoding, whatever follows. */
  lemma DecodeEncoded(cp: nat, rest: Bytes)
    requires Encode(cp).Some?
    ensures First(Encode(cp).value + rest) == Some((cp, |Encode(cp).value|))
    ensures Shortest(Encode(cp).value + rest, |Encode(cp).value|)
  {
    hide Tail, Continues;
    var s := Encode(cp).value + rest;
    TailOf(cp % 0x40);
    if 0x7F < cp <= 0x7FF {
      Decode2(cp);
    } else if 0x7FF < cp <= 0xFFFF {
      Decode3(cp);
    } else if 0xFFFF < cp {
      Decode4(cp);
    }
  }

  lemma Decode2(cp: nat)
    requires 0x7F < cp <= 0x7FF
    ensures 0xC2 <= 0xC0 + cp / 0x40 % 0x20 < 0xE0 && Lead(0xC0 + cp / 0x40 % 0x20, 0x20) * 0x40 + cp % 0x40 == cp
  {
    assert cp / 0x40 % 0x20 == cp / 0x40;
  }

  lemma Decode3(cp: nat)
    requires 0x7FF < cp <= 0xFFFF
    ensures 0xE0 <= 0xE0 + cp / 0x1000 % 0x10 < 0xF0
    ensures Lead(0xE0 + cp / 0x1000 % 0x10, 0x10) * 0x1000 + cp / 0x40 % 0x40 * 0x40 + cp % 0x40 == cp
    ensures Continues(0x80 + cp / 0x40 % 0x40) && Tail(0x80 + cp / 0x40 % 0x40) == cp / 0x40 % 0x40
    ensures cp / 0x1000 % 0x10 > 0 || 0x80 + cp / 0x40 % 0x40 >= 0xA0
  {
    Sixes(cp);
    assert cp / 0x1000 % 0x10 == cp / 0x1000;
  }

  lemma Decode4(cp: nat)
    requires 0xFFFF < cp <= 0x10FFFF
    ensures 0xF0 <= 0xF0 + cp / 0x40000 % 0x08 < 0xF5
    ensures Lead(0xF0 + cp / 0x40000 % 0x08, 0x08) * 0x40000 + cp / 0x1000 % 0x40 * 0x1000 + cp / 0x40 % 0x40 * 0x40 + cp % 0x40 == cp
    ensures Continues(0x80 + cp / 0x1000 % 0x40) && Tail(0x80 + cp / 0x1000 % 0x40) == cp / 0x1000 % 0x40
    ensures Continues(0x80 + cp / 0x40 % 0x40) && Tail(0x80 + cp / 0x40 % 0x40) == cp / 0x40 % 0x40
    ensures cp / 0x40000 % 0x08 > 0 || 0x80 + cp / 0x1000 % 0x40 >= 0x90
    ensures cp / 0x40000 % 0x08 < 4 || (cp / 0x40000 % 0x08 == 4 && 0x80 + cp / 0x1000 % 0x40 < 0x90)
  {
    Sixes(cp);
    assert cp / 0x40000 % 0x08 == cp / 0x40000;
    var a, b := cp / 0x40000, cp / 0x1000 % 0x40;
    assert cp / 0x1000 == a * 0x40 + b;
  }

  /** Encoding undoes decoding exactly for shortest forms; any other form comes out shorter, if at all. */
  lemma EncodeDecoded(s: Bytes)
    requires s != [] && First(s).Some?
    ensures var (cp, n) := First(s).value;
      && (Shortest(s, n) <==> Encode(cp) == Some(s[..n]))
      && (Encode(cp).Some? && !Shortest(s, n) ==> |Encode(cp).value| < n)
  {
    var (cp, n) := First(s).value;
    if n == 1 {
      assert s[..1] == [s[0]];
    } else if n == 2 {
      Encode2(s[0], s[1]);
      assert s[..2] == [s[0], s[1]];
    } else if n == 3 {
      Encode3(s[0], s[1], s[2]);
      assert s[..3] == [s[0], s[1], s[2]];
    } else {
      Encode4(s[0], s[1], s[2], s[3]);
      assert s[..4] == [s[0], s[1], s[2], s[3]];
    }
  }

  lemma Encode2(a: Byte, b: Byte)
    requires 0xC0 <= a < 0xE0 && Continues(b)
    ensures var cp := Lead(a, 0x20) * 0x40 + Tail(b);
      && (a >= 0xC2 <==> cp > 0x7F) && cp <= 0x7FF
      && Encode(cp) == Some(if cp <= 0x7F then [cp] else [a, b])
  {
    Pack(Lead(a, 0x20), Tail(b));
  }

  lemma Encode3(a: Byte, b: Byte, d: Byte)
    requires 0xE0 <= a < 0xF0 && Continues(b) && Continues(d)
    ensures var cp := Lead(a, 0x10) * 0x1000 + Tail(b) * 0x40 + Tail(d);
      && (a > 0xE0 || b >= 0xA0 <==> cp > 0x7FF) && cp <= 0xFFFF
      && (cp > 0x7FF ==> Encode(cp) == Some([a, b, d]))
  {
    var cp := Lead(a, 0x10) * 0x1000 + Tail(b) * 0x40 + Tail(d);
    var n := Lead(a, 0x10) * 0x40 + Tail(b);
    Pack(Lead(a, 0x10), Tail(b));
    Pack(n, Tail(d));
    Sixes(cp);
    assert cp == n * 0x40 + Tail(d);
  }

  lemma Digits4(a: nat, b: nat, d: nat, e: nat)
    requires a < 8 && b < 0x40 && d < 0x40 && e < 0x40
    ensures var cp := a * 0x40000 + b * 0x1000 + d * 0x40 + e;
      cp / 0x40000 % 0x08 == a && cp / 0x1000 % 0x40 == b && cp / 0x40 % 0x40 == d && cp % 0x40 == e
  {
    var cp := a * 0x40000 + b * 0x1000 + d * 0x40 + e;
    var n := a * 0x40 + b;
    var m := n * 0x40 + d;
    Pack(a, b);
    Pack(n, d);
    Pack(m, e);
    Sixes(cp);
    assert cp == m * 0x40 + e;
  }

  lemma Encode4(a: Byte, b: Byte, d: Byte, e: Byte)
    requires 0xF0 <= a < 0xF8 && Continues(b) && Continues(d) && Continues(e)
    ensures var cp := Lead(a, 0x08) * 0x40000 + Tail(b) * 0x1000 + Tail(d) * 0x40 + Tail(e);
      && (a > 0xF0 || b >= 0x90 <==> cp > 0xFFFF)
      && (a < 0xF4 || (a == 0xF4 && b < 0x90) <==> cp <= 0x10FFFF)
      && (0xFFFF < cp <= 0x10FFFF ==> Encode(cp) == Some([a, b, d, e]))
  {
    TailIs(b);
    TailIs(d);
    TailIs(e);
    hide Tail;
    Digits4(Lead(a, 0x08), Tail(b), Tail(d), Tail(e));
  }

  lemma TailIs(b: Byte)
    requires Continues(b)
    ensures b == 0x80 + Tail(b) && Tail(b) < 0x40
  {
  }

  /** What is decoded does not depend on what follows. */
  lemma FirstOfPrefix(s: Bytes, rest: Bytes)
    requires s != [] && First(s).Some?
    ensures First(s + rest) == First(s) && (Shortest(s + rest, First(s).value.1) <==> Shortest(s, First(s).value.1))
  {
  }

  /** After the first byte of a form come continuation bytes only. */
  lemma FormContinues(s: Bytes, k: nat)
    requires s != [] && First(s).Some? && 1 <= k < First(s).value.1
    ensures Continues(s[k])
  {
  }

  lemma {:induction false} CptsConcat(a: Bytes, b: Bytes)
    requires Cpts(a).Some?
    ensures Cpts(a + b) == match Cpts(b) case None => None case Some(rest) => Some(Cpts(a).value + rest)
    decreases |a|
  {
    hide First;
    if a == [] {
      assert a + b == b;
      assert Cpts(b).Some? ==> [] + Cpts(b).value == Cpts(b).value;
    } else {
      FirstOfPrefix(a, b);
      var n := First(a).value.1;
      assert (a + b)[n..] == a[n..] + b;
      CptsConcat(a[n..], b);
      if Cpts(b).Some? {
        assert [First(a).value.0] + (Cpts(a[n..]).value + Cpts(b).value) == Cpts(a).value + Cpts(b).value;
      }
    }
  }

  lemma {:induction false} ToUtf8Concat(a: seq<nat>, b: seq<nat>)
    ensures ToUtf8(a + b) == match (ToUtf8(a), ToUtf8(b)) case (Some(x), Some(y)) => Some(x + y) case _ => None
  {
    hide Encode;
    if a == [] {
      assert a + b == b;
      assert ToUtf8(b).Some? ==> [] + ToUtf8(b).value == ToUtf8(b).value;
    } else {
      assert (a + b)[1..] == a[1..] + b;
      ToUtf8Concat(a[1..], b);
      if ToUtf8(a).Some? && ToUtf8(b).Some? {
        assert Encode(a[0]).value + (ToUtf8(a[1..]).value + ToUtf8(b).value) == ToUtf8(a).value + ToUtf8(b).value;
      }
    }
  }

  /** Decoding undoes encoding, on whole strings. */
  lemma {:induction false} CptsOfUtf8(cpts: seq<nat>)
    requires ToUtf8(cpts).Some?
    ensures Cpts(ToUtf8(cpts).value) == Some(cpts) && ShortestForm(ToUtf8(cpts).value)
  {
    hide Encode, First, Shortest;
    if cpts != [] {
      var e, rest := Encode(cpts[0]).value, ToUtf8(cpts[1..]).value;
      DecodeEncoded(cpts[0], rest);
      CptsOfUtf8(cpts[1..]);
      assert (e + rest)[|e|..] == rest;
      assert [cpts[0]] + cpts[1..] == cpts;
    }
  }

  /** Encoding undoes decoding exactly for strings of shortest forms; any other comes out shorter. */
  lemma {:induction false} Utf8OfCpts(s: Bytes)
    ensures ShortestForm(s) <==> (Cpts(s).Some? && ToUtf8(Cpts(s).value) == Some(s))
    ensures Cpts(s).Some? && ToUtf8(Cpts(s).value).Some? && !ShortestForm(s) ==> |ToUtf8(Cpts(s).value).value| < |s|
    decreases |s|
  {
    hide Encode, First, Shortest;
    if s != [] && First(s).Some? {
      var (cp, n) := First(s).value;
      EncodeDecoded(s);
      Utf8OfCpts(s[n..]);
      assert s == s[..n] + s[n..];
      if Cpts(s[n..]).Some? {
        var rest := Cpts(s[n..]).value;
        assert ([cp] + rest)[1..] == rest;
      }
    }
  }

  /** A string of shortest forms, cut after some of them, leaves one. */
  lemma {:induction false} ShortestSuffix(a: Bytes, b: Bytes)
    requires ShortestForm(a)
    ensures ShortestForm(a + b) <==> ShortestForm(b)
    decreases |a|
  {
    if a == [] {
      assert a + b == b;
    } else {
      FirstOfPrefix(a, b);
      hide First, Shortest;
      var n := First(a).value.1;
      assert (a + b)[n..] == a[n..] + b;
      ShortestSuffix(a[n..], b);
    }
  }

  /** UTF-8 is self-synchronising: a string of whole forms is found only at a boundary. */
  lemma {:induction false} SelfSynchronising(a: Bytes, t: Bytes, b: Bytes)
    requires ShortestForm(a + t + b) && t != [] && !Continues(t[0])
    ensures ShortestForm(a)
    decreases |a|
  {
    if a != [] {
      var s := a + t + b;
      var n := First(s).value.1;
      if n > |a| {
        FormContinues(s, |a|);
        assert false;
      }
      FirstCut(s, |a|);
      assert s[..|a|] == a;
      hide First, Shortest;
      assert s[n..] == a[n..] + t + b;
      SelfSynchronising(a[n..], t, b);
    }
  }

  lemma FirstCut(s: Bytes, k: nat)
    requires s != [] && First(s).Some? && First(s).value.1 <= k <= |s|
    ensures First(s[..k]) == First(s) && (Shortest(s[..k], First(s).value.1) <==> Shortest(s, First(s).value.1))
  {
  }

  lemma ShortestStarts(t: Bytes)
    requires ShortestForm(t) && t != []
    ensures !Continues(t[0])
  {
  }

  // ---------------------------------------------------------------- the shape and the order of forms

  /** Section 3 of RFC 3629: one byte below 0x80, or a leading byte that tells how many continuation bytes
      follow it. */
  ghost predicate Form(s: Bytes) {
    && s != []
    && (if s[0] < 0x80 then |s| == 1 else if 0xC2 <= s[0] < 0xE0 then |s| == 2 else if 0xE0 <= s[0] < 0xF0 then |s| == 3
        else 0xF0 <= s[0] < 0xF5 && |s| == 4)
    && forall k: nat :: 0 < k < |s| ==> 0x80 <= s[k] < 0xC0
  }

  /** The order of strings by their first different byte. */
  predicate Before(a: Bytes, b: Bytes) {
    if a == [] || b == [] then b != []
    else a[0] < b[0] || (a[0] == b[0] && Before(a[1..], b[1..]))
  }

  /** What is encoded has the form of the standard, and one byte only below 0x80. */
  lemma EncodeForm(cp: nat)
    requires cp <= 0x10FFFF
    ensures Encode(cp).Some? && Form(Encode(cp).value)
    ensures cp < 0x80 ==> Encode(cp).value == [cp]
    ensures |Encode(cp).value| == if cp < 0x80 then 1 else if cp < 0x800 then 2 else if cp < 0x10000 then 3 else 4
  {
    if 0x7F < cp <= 0x7FF {
      Decode2(cp);
    } else if 0x7FF < cp <= 0xFFFF {
      Decode3(cp);
    } else if 0xFFFF < cp {
      Decode4(cp);
    }
  }

  lemma Digit(a: nat, b: nat)
    requires a < b
    ensures a / 0x40 < b / 0x40 || (a / 0x40 == b / 0x40 && a % 0x40 < b % 0x40)
  {
  }

  /** Code points and their forms are ordered alike. As forms and code points also determine each other, no
      other code with these forms does. */
  lemma OrderKept(a: nat, b: nat)
    requires a < b <= 0x10FFFF
    ensures Encode(a).Some? && Encode(b).Some? && Before(Encode(a).value, Encode(b).value)
  {
    EncodeForm(a);
    EncodeForm(b);
    if |Encode(a).value| == |Encode(b).value| {
      if b <= 0x7F {
      } else if b <= 0x7FF {
        Before2(a, b);
      } else if b <= 0xFFFF {
        Before3(a, b);
      } else {
        Before4(a, b);
      }
    }
  }

  lemma Before2(a: nat, b: nat)
    requires 0x7F < a < b <= 0x7FF
    ensures Before(Encode(a).value, Encode(b).value)
  {
    Digit(a, b);
    Cut2(a);
    Cut2(b);
    BeforeTwo(0xC0 + a / 0x40 % 0x20, 0x80 + a % 0x40, 0xC0 + b / 0x40 % 0x20, 0x80 + b % 0x40);
  }

  lemma Cut2(cp: nat)
    requires cp <= 0x7FF
    ensures cp / 0x40 % 0x20 == cp / 0x40
  {
  }

  lemma BeforeTwo(a: Byte, b: Byte, a': Byte, b': Byte)
    requires a < a' || (a == a' && b < b')
    ensures Before([a, b], [a', b'])
  {
    assert [a, b][1..] == [b] && [a', b'][1..] == [b'];
  }

  lemma BeforeMore(a: Byte, s: Bytes, a': Byte, s': Bytes)
    requires a < a' || (a == a' && Before(s, s'))
    ensures Before([a] + s, [a'] + s')
  {
  }

  lemma Before3(a: nat, b: nat)
    requires 0x7FF < a < b <= 0xFFFF
    ensures Before(Encode(a).value, Encode(b).value)
  {
    Digit(a, b);
    if a / 0x40 < b / 0x40 {
      Digit(a / 0x40, b / 0x40);
    }
    Cut3(a);
    Cut3(b);
    hide Before;
    Tail3(a, b);
  }

  lemma Cut3(cp: nat)
    requires cp <= 0xFFFF
    ensures cp / 0x40 / 0x40 == cp / 0x1000 == cp / 0x1000 % 0x10
  {
    Sixes(cp);
  }

  lemma Tail3(a: nat, b: nat)
    requires 0x7FF < a <= 0xFFFF && 0x7FF < b <= 0xFFFF
    requires a / 0x1000 % 0x10 < b / 0x1000 % 0x10 || (a / 0x1000 % 0x10 == b / 0x1000 % 0x10 &&
      (a / 0x40 % 0x40 < b / 0x40 % 0x40 || (a / 0x40 % 0x40 == b / 0x40 % 0x40 && a % 0x40 < b % 0x40)))
    ensures Before(Encode(a).value, Encode(b).value)
  {
    hide Before;
    var x, y := [0x80 + a / 0x40 % 0x40, 0x80 + a % 0x40], [0x80 + b / 0x40 % 0x40, 0x80 + b % 0x40];
    if a / 0x1000 % 0x10 == b / 0x1000 % 0x10 {
      BeforeTwo(x[0], x[1], y[0], y[1]);
    }
    BeforeMore(0xE0 + a / 0x1000 % 0x10, x, 0xE0 + b / 0x1000 % 0x10, y);
    assert Encode(a).value == [0xE0 + a / 0x1000 % 0x10] + x;
    assert Encode(b).value == [0xE0 + b / 0x1000 % 0x10] + y;
  }

  lemma Before4(a: nat, b: nat)
    requires 0xFFFF < a < b <= 0x10FFFF
    ensures Before(Encode(a).value, Encode(b).value)
  {
    Digit(a, b);
    if a / 0x40 < b / 0x40 {
      Digit(a / 0x40, b / 0x40);
      if a / 0x40 / 0x40 < b / 0x40 / 0x40 {
        Digit(a / 0x40 / 0x40, b / 0x40 / 0x40);
      }
    }
    Cut4(a);
    Cut4(b);
    hide Before;
    Tail4(a, b);
  }

  lemma Cut4(cp: nat)
    requires cp <= 0x10FFFF
    ensures cp / 0x40 / 0x40 == cp / 0x1000 && cp / 0x40 / 0x40 / 0x40 == cp / 0x40000 == cp / 0x40000 % 0x08
  {
    Sixes(cp);
  }

  lemma Tail4(a: nat, b: nat)
    requires 0xFFFF < a <= 0x10FFFF && 0xFFFF < b <= 0x10FFFF
    requires a / 0x40000 % 0x08 < b / 0x40000 % 0x08 || (a / 0x40000 % 0x08 == b / 0x40000 % 0x08 &&
      (a / 0x1000 % 0x40 < b / 0x1000 % 0x40 || (a / 0x1000 % 0x40 == b / 0x1000 % 0x40 &&
      (a / 0x40 % 0x40 < b / 0x40 % 0x40 || (a / 0x40 % 0x40 == b / 0x40 % 0x40 && a % 0x40 < b % 0x40)))))
    ensures Before(Encode(a).value, Encode(b).value)
  {
    hide Before;
    var x, y := [0x80 + a / 0x40 % 0x40, 0x80 + a % 0x40], [0x80 + b / 0x40 % 0x40, 0x80 + b % 0x40];
    var d, e := 0x80 + a / 0x1000 % 0x40, 0x80 + b / 0x1000 % 0x40;
    if a / 0x40000 % 0x08 == b / 0x40000 % 0x08 {
      if d == e {
        BeforeTwo(x[0], x[1], y[0], y[1]);
      }
      BeforeMore(d, x, e, y);
    }
    BeforeMore(0xF0 + a / 0x40000 % 0x08, [d] + x, 0xF0 + b / 0x40000 % 0x08, [e] + y);
    assert Encode(a).value == [0xF0 + a / 0x40000 % 0x08] + ([d] + x);
    assert Encode(b).value == [0xF0 + b / 0x40000 % 0x08] + ([e] + y);
  }
}
