/** Attention over contiguous keys and values, as paged_attention_cpu computes it head by head: the
    reference the paged form is compared with. Reals stand for floats. */
module Attention {

  type Vec = seq<real>

  datatype KV = KV(key: Vec, value: Vec)

  /** Head `h` reads the key and value columns of head `h / kvMul`. `exp` need only be positive. */
  datatype Heads = Heads(headNum: nat, kvMul: nat, headSize: nat, scale: real, exp: real -> real) {
    ghost predicate Valid() {
      kvMul > 0 && headSize > 0 && forall x :: exp(x) > 0.0
    }

    /** The first column of a query head's keys and values. */
    function Column(head: nat): nat
      requires kvMul > 0
    {
      head / kvMul * headSize
    }
  }

  function At(v: Vec, i: int): real {
    if 0 <= i < |v| then v[i] else 0.0
  }

  /** The dot product of `n` entries of `a` from `i` and of `b` from `j`. */
  function Dot(a: Vec, i: int, b: Vec, j: int, n: nat): real {
    if n == 0 then 0.0 else Dot(a, i, b, j, n - 1) + At(a, i + n - 1) * At(b, j + n - 1)
  }

  /** The scaled score of one token under a query head. */
  function Score(s: Heads, q: Vec, kv: KV, head: nat): real
    requires s.kvMul > 0
  {
    Dot(q, head * s.headSize, kv.key, s.Column(head), s.headSize) * s.scale
  }

  function Scores(s: Heads, q: Vec, context: seq<KV>, head: nat, n: nat): (r: seq<real>)
    requires n <= |context| && s.kvMul > 0
    ensures |r| == n
  {
    if n == 0 then []
    else Scores(s, q, context, head, n - 1) + [Score(s, q, context[n - 1], head)]
  }

  /** std::max_element's value. */
  function Max(xs: seq<real>): (m: real)
    requires xs != []
    ensures m in xs && forall i :: 0 <= i < |xs| ==> xs[i] <= m
  {
    if |xs| == 1 then xs[0]
    else
      var m := Max(xs[..|xs| - 1]);
      assert forall i :: 0 <= i < |xs| - 1 ==> xs[i] == xs[..|xs| - 1][i];
      if m < xs[|xs| - 1] then xs[|xs| - 1] else m
  }

  function Exps(s: Heads, xs: seq<real>, m: real): (r: seq<real>)
    ensures |r| == |xs|
  {
    if xs == [] then [] else Exps(s, xs[..|xs| - 1], m) + [s.exp(xs[|xs| - 1] - m)]
  }

  function Sum(xs: seq<real>): real {
    if xs == [] then 0.0 else Sum(xs[..|xs| - 1]) + xs[|xs| - 1]
  }

  function Quotient(x: real, d: real): real
    requires d != 0.0
  {
    x / d
  }

  function Scaled(xs: seq<real>, d: real): (r: seq<real>)
    requires d != 0.0
    ensures |r| == |xs|
  {
    if xs == [] then [] else Scaled(xs[..|xs| - 1], d) + [Quotient(xs[|xs| - 1], d)]
  }

  lemma ExpsPositive(s: Heads, xs: seq<real>, m: real)
    requires s.Valid()
    ensures xs != [] ==> Sum(Exps(s, xs, m)) > 0.0
    ensures Sum(Exps(s, xs, m)) >= 0.0
  {
    if xs != [] {
      ExpsPositive(s, xs[..|xs| - 1], m);
      var e := Exps(s, xs, m);
      assert e[..|e| - 1] == Exps(s, xs[..|xs| - 1], m);
    }
  }

  /** The softmax of one head's scores, with the maximum subtracted first. */
  ghost function Weights(s: Heads, q: Vec, context: seq<KV>, head: nat): (r: seq<real>)
    requires s.Valid() && context != []
    ensures |r| == |context|
  {
    var xs := Scores(s, q, context, head, |context|);
    ExpsPositive(s, xs, Max(xs));
    Scaled(Exps(s, xs, Max(xs)), Sum(Exps(s, xs, Max(xs))))
  }

  /** Column `j` of the values, weighted over the first `n` positions. */
  ghost function Mix(w: seq<real>, context: seq<KV>, j: int, n: nat): real
    requires n <= |w| && n <= |context|
  {
    if n == 0 then 0.0 else Mix(w, context, j, n - 1) + w[n - 1] * At(context[n - 1].value, j)
  }

  ghost function AttendAt(s: Heads, q: Vec, context: seq<KV>, head: nat, dim: nat): real
    requires s.Valid() && context != []
  {
    Mix(Weights(s, q, context, head), context, s.Column(head) + dim, |context|)
  }

  /** The attention output of all heads, one after the other. */
  ghost function Attend(s: Heads, q: Vec, context: seq<KV>): (r: Vec)
    requires s.Valid() && context != []
  {
    seq(s.headNum * s.headSize, i requires 0 <= i < s.headNum * s.headSize =>
      AttendAt(s, q, context, i / s.headSize, i % s.headSize))
  }
}
