/** What attention computes, in sums over columns: each query head reads its own columns of the query and those
    of its group in the keys and values, whatever functions the reference is made of. */
module AttentionLaws {
  import opened Blocks
  import opened Attention

  /** f(0) + .. + f(n - 1). */
  ghost function SumOf(n: nat, f: nat -> real): real {
    if n == 0 then 0.0 else SumOf(n - 1, f) + f(n - 1)
  }

  lemma {:induction false} SumSame(n: nat, f: nat -> real, g: nat -> real)
    requires forall t: nat :: t < n ==> f(t) == g(t)
    ensures SumOf(n, f) == SumOf(n, g)
  {
    if n > 0 {
      SumSame(n - 1, f, g);
    }
  }

  function Product(x: real, y: real): real {
    x * y
  }

  ghost function Dotted(a: Vec, i: int, b: Vec, j: int): nat -> real {
    (d: nat) => Product(At(a, i + d), At(b, j + d))
  }

  lemma {:induction false} DotIsSum(a: Vec, i: int, b: Vec, j: int, n: nat)
    ensures Dot(a, i, b, j, n) == SumOf(n, Dotted(a, i, b, j))
  {
    if n > 0 {
      DotIsSum(a, i, b, j, n - 1);
      LastDot(a, i, b, j, n);
      hide At, Dot, Dotted;
    }
  }

  lemma LastDot(a: Vec, i: int, b: Vec, j: int, n: nat)
    requires n > 0
    ensures Dot(a, i, b, j, n) == Dot(a, i, b, j, n - 1) + Dotted(a, i, b, j)(n - 1)
  {
    hide At;
    var k: nat := n - 1;
    var x, y := At(a, i + n - 1), At(b, j + n - 1);
    assert i + k == i + n - 1 && j + k == j + n - 1;
    assert Dotted(a, i, b, j)(k) == Product(x, y) == x * y;
  }

  ghost function Mixture(w: seq<real>, context: seq<KV>, j: int): nat -> real
    requires |w| == |context|
  {
    (t: nat) => if t < |w| then Product(w[t], At(context[t].value, j)) else 0.0
  }

  lemma {:induction false} MixIsSum(w: seq<real>, context: seq<KV>, j: int, n: nat)
    requires |w| == |context| && n <= |w|
    ensures Mix(w, context, j, n) == SumOf(n, Mixture(w, context, j))
  {
    if n > 0 {
      MixIsSum(w, context, j, n - 1);
    }
  }

  /** The scaled dot product of a query head with a token's key: columns from `head * headSize` of the query
      and from `head / kvMul * headSize` of the key. */
  ghost function ScoreOf(s: Heads, q: Vec, context: seq<KV>, head: nat, t: nat): real
    requires s.kvMul > 0 && t < |context|
  {
    Product(SumOf(s.headSize, Dotted(q, head * s.headSize, context[t].key, head / s.kvMul * s.headSize)), s.scale)
  }

  lemma {:induction false} ScoresAre(s: Heads, q: Vec, context: seq<KV>, head: nat, n: nat, t: nat)
    requires s.kvMul > 0 && t < n <= |context|
    ensures Scores(s, q, context, head, n)[t] == ScoreOf(s, q, context, head, t)
  {
    if t < n - 1 {
      ScoresAre(s, q, context, head, n - 1, t);
    } else {
      DotIsSum(q, head * s.headSize, context[t].key, head / s.kvMul * s.headSize, s.headSize);
    }
  }

  // ---------------------------------------------------------------- the softmax

  lemma {:induction false} ExpsAt(s: Heads, xs: seq<real>, m: real, t: nat)
    requires t < |xs|
    ensures Exps(s, xs, m)[t] == s.exp(xs[t] - m)
    decreases |xs|
  {
    if t < |xs| - 1 {
      ExpsAt(s, xs[..|xs| - 1], m, t);
    }
  }

  lemma {:induction false} ScaledAt(xs: seq<real>, d: real, t: nat)
    requires d != 0.0 && t < |xs|
    ensures Scaled(xs, d)[t] == Quotient(xs[t], d)
    decreases |xs|
  {
    if t < |xs| - 1 {
      ScaledAt(xs[..|xs| - 1], d, t);
    }
  }

  lemma QuotientSum(a: real, b: real, d: real)
    requires d != 0.0
    ensures Quotient(a, d) + Quotient(b, d) == Quotient(a + b, d)
  {
  }

  lemma {:induction false} ScaledSum(xs: seq<real>, d: real)
    requires d != 0.0
    ensures Sum(Scaled(xs, d)) == Quotient(Sum(xs), d)
    decreases |xs|
  {
    if xs == [] {
      assert Quotient(0.0, d) == 0.0;
    } else {
      hide Quotient;
      var init, last := xs[..|xs| - 1], xs[|xs| - 1];
      ScaledSum(init, d);
      var r := Scaled(xs, d);
      assert r[..|r| - 1] == Scaled(init, d);
      QuotientSum(Sum(init), last, d);
    }
  }

  lemma Whole(d: real)
    requires d != 0.0
    ensures Quotient(d, d) == 1.0
  {
  }

  lemma PositiveQuotient(x: real, d: real)
    requires x > 0.0 && d > 0.0
    ensures Quotient(x, d) > 0.0
  {
  }

  ghost function Entries(xs: seq<real>): nat -> real {
    (t: nat) => if t < |xs| then xs[t] else 0.0
  }

  lemma {:induction false} SumIs(xs: seq<real>)
    ensures Sum(xs) == SumOf(|xs|, Entries(xs))
    decreases |xs|
  {
    if xs != [] {
      var n := |xs| - 1;
      SumIs(xs[..n]);
      SumSame(n, Entries(xs[..n]), Entries(xs));
    }
  }

  /** Shares of one whole, positive, summing to 1. */
  ghost predicate Shares(w: seq<real>) {
    (forall t: nat :: t < |w| ==> w[t] > 0.0) && SumOf(|w|, Entries(w)) == 1.0
  }

  ghost function Shifted(s: Heads, q: Vec, context: seq<KV>, head: nat, m: real, t: nat): real
    requires s.kvMul > 0 && t < |context|
  {
    s.exp(ScoreOf(s, q, context, head, t) - m)
  }

  /** The weights are shares in proportion to the exponentials of the scores, less one common number. */
  lemma WeightsAre(s: Heads, q: Vec, context: seq<KV>, head: nat) returns (m: real, d: real)
    requires s.Valid() && context != []
    ensures Shares(Weights(s, q, context, head)) && d > 0.0
    ensures forall t: nat :: t < |context| ==> Weights(s, q, context, head)[t] == Quotient(Shifted(s, q, context, head, m, t), d)
  {
    hide Quotient, ScoreOf, Scores, Max, Exps, Scaled, Sum, Shifted, SumOf, Entries;
    var xs := Scores(s, q, context, head, |context|);
    m := Max(xs);
    ExpsPositive(s, xs, m);
    var es := Exps(s, xs, m);
    d := Sum(es);
    ScaledSum(es, d);
    SumIs(Scaled(es, d));
    Whole(d);
    forall t: nat | t < |context|
      ensures Weights(s, q, context, head)[t] == Quotient(Shifted(s, q, context, head, m, t), d) && Weights(s, q, context, head)[t] > 0.0
    {
      WeightAt(s, q, context, head, xs, es, m, d, t);
    }
  }

  lemma WeightAt(s: Heads, q: Vec, context: seq<KV>, head: nat, xs: seq<real>, es: seq<real>, m: real, d: real, t: nat)
    requires s.Valid() && xs == Scores(s, q, context, head, |context|) && es == Exps(s, xs, m) && d > 0.0 && t < |context|
    ensures Scaled(es, d)[t] == Quotient(Shifted(s, q, context, head, m, t), d) > 0.0
  {
    hide Quotient, ScoreOf, Scores, Exps, Scaled;
    ScoresAre(s, q, context, head, |context|, t);
    ExpsAt(s, xs, m, t);
    ScaledAt(es, d, t);
    PositiveQuotient(es[t], d);
  }

  // ---------------------------------------------------------------- the laws

  /** The exponential turns sums into products. */
  ghost predicate TurnsSums(exp: real -> real) {
    forall x: real, y: real :: exp(x + y) == Product(exp(x), exp(y))
  }

  /** Then two weights stand in the ratio of the exponentials of their scores. */
  ghost predicate InRatio(s: Heads, q: Vec, context: seq<KV>, head: nat, w: seq<real>)
    requires s.kvMul > 0 && |w| == |context|
  {
    forall t: nat, u: nat :: t < |w| && u < |w| ==>
      Product(w[t], s.exp(ScoreOf(s, q, context, head, u))) == Product(w[u], s.exp(ScoreOf(s, q, context, head, t)))
  }

  lemma RatioOf(a: real, b: real, e: real, d: real)
    requires d != 0.0
    ensures Product(Quotient(Product(a, e), d), b) == Product(Quotient(Product(b, e), d), a)
  {
    assert (a * e / d) * b == (a * b * e) / d;
    assert (b * e / d) * a == (a * b * e) / d;
  }

  lemma ShiftedIs(s: Heads, q: Vec, context: seq<KV>, head: nat, m: real, t: nat)
    requires s.kvMul > 0 && t < |context| && TurnsSums(s.exp)
    ensures Shifted(s, q, context, head, m, t) == Product(s.exp(ScoreOf(s, q, context, head, t)), s.exp(-m))
  {
    hide ScoreOf, Product;
    var x := ScoreOf(s, q, context, head, t);
    assert x + (-m) == x - m;
    assert s.exp(x + (-m)) == Product(s.exp(x), s.exp(-m));
  }

  lemma WeightsInRatio(s: Heads, q: Vec, context: seq<KV>, head: nat)
    requires s.Valid() && context != [] && TurnsSums(s.exp)
    ensures InRatio(s, q, context, head, Weights(s, q, context, head))
  {
    var m, d := WeightsAre(s, q, context, head);
    var w := Weights(s, q, context, head);
    hide ScoreOf, Weights, Product, Quotient, Shifted, TurnsSums, Shares;
    forall t: nat, u: nat | t < |w| && u < |w|
      ensures Product(w[t], s.exp(ScoreOf(s, q, context, head, u))) == Product(w[u], s.exp(ScoreOf(s, q, context, head, t)))
    {
      ShiftedIs(s, q, context, head, m, t);
      ShiftedIs(s, q, context, head, m, u);
      RatioOf(s.exp(ScoreOf(s, q, context, head, t)), s.exp(ScoreOf(s, q, context, head, u)), s.exp(-m), d);
    }
  }

  function OutputColumn(s: Heads, head: nat, dim: nat): int {
    head * s.headSize + dim
  }

  lemma ColumnOf(s: Heads, head: nat, dim: nat)
    requires s.headSize > 0 && head < s.headNum && dim < s.headSize
    ensures 0 <= OutputColumn(s, head, dim) < s.headNum * s.headSize
    ensures OutputColumn(s, head, dim) / s.headSize == head && OutputColumn(s, head, dim) % s.headSize == dim
  {
    MulMono(0, head, s.headSize);
    MulMonoStrict(head, s.headNum, s.headSize);
    DivUnique(head * s.headSize + dim, head, s.headSize);
  }

  /** Column `dim` of a head's output mixes column `head / kvMul * headSize + dim` of the values, in positive
      shares of 1 that stand in the ratio of the exponentials of the scaled dot products. */
  lemma AttendMixes(s: Heads, q: Vec, context: seq<KV>, head: nat) returns (w: seq<real>)
    requires s.Valid() && context != [] && head < s.headNum
    ensures |w| == |context| && Shares(w)
    ensures TurnsSums(s.exp) ==> InRatio(s, q, context, head, w)
    ensures forall dim: nat :: dim < s.headSize ==>
      && 0 <= OutputColumn(s, head, dim) < |Attend(s, q, context)|
      && Attend(s, q, context)[OutputColumn(s, head, dim)] == SumOf(|context|, Mixture(w, context, head / s.kvMul * s.headSize + dim))
  {
    hide Weights, Mix, SumOf, Mixture, Shares, InRatio, Attend, OutputColumn, TurnsSums;
    w := Weights(s, q, context, head);
    var m, d := WeightsAre(s, q, context, head);
    if TurnsSums(s.exp) {
      WeightsInRatio(s, q, context, head);
    }
    forall dim: nat | dim < s.headSize
      ensures 0 <= OutputColumn(s, head, dim) < |Attend(s, q, context)|
      ensures Attend(s, q, context)[OutputColumn(s, head, dim)] == SumOf(|context|, Mixture(w, context, head / s.kvMul * s.headSize + dim))
    {
      AttendColumn(s, q, context, head, dim);
    }
  }

  lemma AttendColumn(s: Heads, q: Vec, context: seq<KV>, head: nat, dim: nat)
    requires s.Valid() && context != [] && head < s.headNum && dim < s.headSize
    ensures 0 <= OutputColumn(s, head, dim) < |Attend(s, q, context)|
    ensures Attend(s, q, context)[OutputColumn(s, head, dim)] ==
      SumOf(|context|, Mixture(Weights(s, q, context, head), context, head / s.kvMul * s.headSize + dim))
  {
    hide Weights, Mix, SumOf, Mixture, OutputColumn;
    ColumnOf(s, head, dim);
    MixIsSum(Weights(s, q, context, head), context, head / s.kvMul * s.headSize + dim, |context|);
  }

  /** Over one token every head gives that token's values, from the columns of its group. */
  lemma AttendToOne(s: Heads, q: Vec, context: seq<KV>, head: nat, dim: nat)
    requires s.Valid() && |context| == 1 && head < s.headNum && dim < s.headSize
    ensures 0 <= head * s.headSize + dim < |Attend(s, q, context)|
    ensures Attend(s, q, context)[head * s.headSize + dim] == At(context[0].value, head / s.kvMul * s.headSize + dim)
  {
    hide Attend, InRatio, TurnsSums, At, Shares;
    var w := AttendMixes(s, q, context, head);
    assert OutputColumn(s, head, dim) == head * s.headSize + dim;
    OneShare(w);
    OneOfMixture(w, context, head / s.kvMul * s.headSize + dim);
  }

  lemma OneOfMixture(w: seq<real>, context: seq<KV>, j: int)
    requires |w| == |context| == 1 && w[0] == 1.0
    ensures SumOf(1, Mixture(w, context, j)) == At(context[0].value, j)
  {
    hide At;
    assert SumOf(1, Mixture(w, context, j)) == SumOf(0, Mixture(w, context, j)) + Mixture(w, context, j)(0);
  }

  lemma OneShare(w: seq<real>)
    requires |w| == 1 && Shares(w)
    ensures w[0] == 1.0
  {
    assert SumOf(1, Entries(w)) == SumOf(0, Entries(w)) + Entries(w)(0);
  }
}
