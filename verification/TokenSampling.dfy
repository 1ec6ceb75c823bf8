/** The weighted draw of LLMEngine::sample at positive temperature, with its top-p cut. The exponential, the
    order in which the sort leaves equal weights, and the discrete distribution are parameters. */
module TokenSampling {
  import opened Common
  import opened Attention
  import opened AttentionLaws

  datatype Sampler = Sampler(
    exp: real -> real,
    order: seq<real> -> seq<nat>,
    pick: (seq<real>, Rng) -> (nat, Rng))
  {
    ghost predicate Valid() {
      && (forall x :: exp(x) > 0.0)
      && (forall weights :: Descending(weights, order(weights)))
    }
  }

  /** All indices, the greater weights first. */
  ghost predicate Descending(weights: seq<real>, order: seq<nat>) {
    && |order| == |weights|
    && (forall j: nat :: j < |order| ==> order[j] < |weights|)
    && (forall a: nat, b: nat :: a < b < |order| ==> order[a] != order[b])
    && (forall a: nat, b: nat :: a < b < |order| ==> At(weights, order[a]) >= At(weights, order[b]))
  }

  /** The weights before the cut: the greatest logit has that of 0. */
  function Heated(exp: real -> real, logits: Vec, temperature: real): (r: seq<real>)
    requires logits != [] && temperature > 0.0
    ensures |r| == |logits|
  {
    seq(|logits|, i requires 0 <= i < |logits| => exp(Over(logits[i] - Max(logits), temperature)))
  }

  function Over(x: real, d: real): real
    requires d != 0.0
  {
    x * (1.0 / d)
  }

  /** What the loop of the cut holds after some indices. */
  datatype Cutting = Cutting(weights: seq<real>, cumulative: real, reached: bool)

  function CutUpTo(weights: seq<real>, order: seq<nat>, threshold: real, n: nat): (r: Cutting)
    requires n <= |order| && forall j: nat :: j < |order| ==> order[j] < |weights|
    ensures |r.weights| == |weights|
  {
    if n == 0 then Cutting(weights, 0.0, false)
    else
      var before := CutUpTo(weights, order, threshold, n - 1);
      if before.reached then before.(weights := before.weights[order[n - 1] := 0.0])
      else
        var cumulative := before.cumulative + before.weights[order[n - 1]];
        before.(cumulative := cumulative, reached := cumulative >= threshold)
  }

  /** The weights after the cut. */
  function Nucleus(weights: seq<real>, order: seq<nat>, topP: real): (r: seq<real>)
    requires forall j: nat :: j < |order| ==> order[j] < |weights|
    ensures |r| == |weights|
  {
    CutUpTo(weights, order, Share(Sum(weights), topP), |order|).weights
  }

  function Share(total: real, topP: real): real {
    total * topP
  }

  /** The whole draw. */
  ghost function Draw(s: Sampler, logits: Vec, temperature: real, topP: real, rng: Rng): (nat, Rng)
    requires s.Valid() && logits != [] && temperature > 0.0
  {
    var weights := Heated(s.exp, logits, temperature);
    assert Descending(weights, s.order(weights));
    s.pick(if topP < 1.0 then Nucleus(weights, s.order(weights), topP) else weights, rng)
  }

  // ---------------------------------------------------------------- what the cut keeps

  /** The weight of the first `n` indices of the order. */
  ghost function Mass(weights: seq<real>, order: seq<nat>, n: nat): real
    requires n <= |order|
  {
    if n == 0 then 0.0 else Mass(weights, order, n - 1) + At(weights, order[n - 1])
  }

  /** The first `kept` indices keep their weights, the others among the first `n` have lost theirs. */
  ghost predicate KeptFirst(weights: seq<real>, order: seq<nat>, cut: seq<real>, kept: nat, n: nat) {
    && |cut| == |weights| && kept <= n <= |order|
    && (forall j: nat :: j < |order| && (j < kept || j >= n) ==> At(cut, order[j]) == At(weights, order[j]))
    && (forall j: nat :: kept <= j < n ==> At(cut, order[j]) == 0.0)
  }

  lemma {:induction false} CutKeeps(weights: seq<real>, order: seq<nat>, threshold: real, n: nat) returns (kept: nat)
    requires Descending(weights, order) && n <= |order|
    ensures kept <= n && KeptFirst(weights, order, CutUpTo(weights, order, threshold, n).weights, kept, n)
    ensures var r := CutUpTo(weights, order, threshold, n);
      && r.cumulative == Mass(weights, order, kept)
      && (r.reached <==> kept > 0 && Mass(weights, order, kept) >= threshold)
      && (!r.reached ==> kept == n)
      && forall k: nat :: 0 < k < kept ==> Mass(weights, order, k) < threshold
  {
    hide Descending, KeptFirst, At;
    InOrder(weights, order);
    if n == 0 {
      kept := 0;
      KeptNone(weights, order);
    } else {
      kept := CutKeeps(weights, order, threshold, n - 1);
      var before := CutUpTo(weights, order, threshold, n - 1);
      KeptNext(weights, order, before.weights, kept, n - 1);
      if !before.reached {
        kept := n;
      }
    }
  }

  lemma InOrder(weights: seq<real>, order: seq<nat>)
    requires Descending(weights, order)
    ensures |order| == |weights| && forall j: nat :: j < |order| ==> order[j] < |weights|
  {
  }

  lemma KeptNone(weights: seq<real>, order: seq<nat>)
    ensures KeptFirst(weights, order, weights, 0, 0)
  {
  }

  /** One index further: it keeps its weight if all so far have, and loses it otherwise. */
  lemma KeptNext(weights: seq<real>, order: seq<nat>, cut: seq<real>, kept: nat, n: nat)
    requires Descending(weights, order) && KeptFirst(weights, order, cut, kept, n) && n < |order|
    ensures order[n] < |cut| && cut[order[n]] == At(weights, order[n])
    ensures KeptFirst(weights, order, cut[order[n] := 0.0], kept, n + 1)
    ensures kept == n ==> KeptFirst(weights, order, cut, n + 1, n + 1)
  {
    assert At(cut, order[n]) == At(weights, order[n]);
  }

  /** The cut keeps the fewest of the greatest weights that together reach the share topP, or all of them;
      at least one, and none that it drops is greater than one that it keeps. */
  lemma NucleusKeeps(weights: seq<real>, order: seq<nat>, topP: real) returns (kept: nat)
    requires Descending(weights, order) && weights != []
    ensures 0 < kept <= |order| && KeptFirst(weights, order, Nucleus(weights, order, topP), kept, |order|)
    ensures kept == |order| || Mass(weights, order, kept) >= Share(Sum(weights), topP)
    ensures forall k: nat :: 0 < k < kept ==> Mass(weights, order, k) < Share(Sum(weights), topP)
    ensures forall a: nat, b: nat :: a < kept <= b < |order| ==> At(weights, order[a]) >= At(weights, order[b])
  {
    hide CutUpTo, KeptFirst, Sum, Mass, At;
    InOrder(weights, order);
    kept := CutKeeps(weights, order, Share(Sum(weights), topP), |order|);
  }

  // ---------------------------------------------------------------- what the temperature does

  ghost predicate Greatest(xs: seq<real>, m: real) {
    m in xs && forall j: nat :: j < |xs| ==> xs[j] <= m
  }

  /** Each weight is the exponential of what its logit is below the greatest, in units of the temperature. */
  ghost predicate Softened(exp: real -> real, logits: Vec, temperature: real, weights: seq<real>) {
    && temperature > 0.0 && |weights| == |logits|
    && forall i: nat, m: real :: i < |logits| && Greatest(logits, m) ==> weights[i] == exp((logits[i] - m) / temperature)
  }

  lemma OverIs(x: real, d: real)
    requires d != 0.0
    ensures Over(x, d) == x / d
  {
  }

  lemma OneGreatest(xs: seq<real>, m: real)
    requires xs != [] && Greatest(xs, m)
    ensures m == Max(xs)
  {
    hide Max;
    var i: nat :| i < |xs| && xs[i] == m;
    var j: nat :| j < |xs| && xs[j] == Max(xs);
  }

  lemma HeatedSoftens(exp: real -> real, logits: Vec, temperature: real)
    requires logits != [] && temperature > 0.0
    ensures Softened(exp, logits, temperature, Heated(exp, logits, temperature))
  {
    hide Max, Over, Greatest;
    forall i: nat, m: real | i < |logits| && Greatest(logits, m)
      ensures Heated(exp, logits, temperature)[i] == exp((logits[i] - m) / temperature)
    {
      OneGreatest(logits, m);
      OverIs(logits[i] - m, temperature);
    }
  }

  lemma {:induction false} SomeGreatest(xs: seq<real>) returns (m: real)
    requires xs != []
    ensures Greatest(xs, m)
  {
    m := Max(xs);
  }

  /** There is only one way to soften. */
  lemma SoftenedOnce(exp: real -> real, logits: Vec, temperature: real, a: seq<real>, b: seq<real>)
    requires logits != [] && Softened(exp, logits, temperature, a) && Softened(exp, logits, temperature, b)
    ensures a == b
  {
    var m := SomeGreatest(logits);
    hide Greatest;
    forall i: nat | i < |logits| ensures a[i] == b[i] {
      assert a[i] == exp((logits[i] - m) / temperature);
    }
  }

  lemma ScaledOver(x: real, m: real, t: real, k: real)
    requires t > 0.0 && k > 0.0
    ensures k * t > 0.0 && (k * x - k * m) / (k * t) == (x - m) / t
  {
    var y := (x - m) / t;
    assert (x - m) == y * t;
    assert k * x - k * m == k * (x - m) == y * (k * t);
  }

  /** Logits and temperature multiplied alike give the same weights. */
  lemma SoftenedScales(exp: real -> real, logits: Vec, others: Vec, temperature: real, k: real, weights: seq<real>)
    requires k > 0.0 && |others| == |logits| && (forall i: nat :: i < |logits| ==> others[i] == k * logits[i])
    requires logits != [] && Softened(exp, logits, temperature, weights)
    ensures k * temperature > 0.0 && Softened(exp, others, k * temperature, weights)
  {
    var m := SomeGreatest(logits);
    ScaledOver(0.0, 0.0, temperature, k);
    ScaledGreatest(logits, others, m, k);
    forall i: nat, m': real | i < |others| && Greatest(others, m') ensures weights[i] == exp((others[i] - m') / (k * temperature)) {
      GreatestUnique(others, m', k * m);
      ScaledOver(logits[i], m, temperature, k);
      var x := logits[i];
      assert weights[i] == exp((x - m) / temperature);
      assert others[i] == k * x;
      assert (others[i] - m') / (k * temperature) == (x - m) / temperature;
    }
  }

  lemma ScaledGreatest(logits: Vec, others: Vec, m: real, k: real)
    requires k > 0.0 && |others| == |logits| && (forall i: nat :: i < |logits| ==> others[i] == k * logits[i]) && Greatest(logits, m)
    ensures Greatest(others, k * m)
  {
    var i: nat :| i < |logits| && logits[i] == m;
    assert others[i] == k * m;
    forall j: nat | j < |others| ensures others[j] <= k * m {
      TimesMono(logits[j], m, k);
    }
  }

  lemma TimesMono(x: real, y: real, k: real)
    requires k > 0.0 && x <= y
    ensures k * x <= k * y
  {
  }

  lemma GreatestUnique(xs: seq<real>, a: real, b: real)
    requires Greatest(xs, a) && Greatest(xs, b)
    ensures a == b
  {
    var i: nat :| i < |xs| && xs[i] == a;
    var j: nat :| j < |xs| && xs[j] == b;
  }

  /** So does the same number added to all logits. */
  lemma SoftenedShifts(exp: real -> real, logits: Vec, others: Vec, temperature: real, d: real, weights: seq<real>)
    requires |others| == |logits| && (forall i: nat :: i < |logits| ==> others[i] == logits[i] + d)
    requires logits != [] && Softened(exp, logits, temperature, weights)
    ensures Softened(exp, others, temperature, weights)
  {
    var m := SomeGreatest(logits);
    var g: nat :| g < |logits| && logits[g] == m;
    assert others[g] == m + d;
    assert Greatest(others, m + d);
    forall i: nat, m': real | i < |others| && Greatest(others, m') ensures weights[i] == exp((others[i] - m') / temperature) {
      GreatestUnique(others, m', m + d);
      assert others[i] - m' == logits[i] - m;
    }
  }

  lemma QuotientOrder(x: real, t: real, t': real)
    requires x <= 0.0 && 0.0 < t <= t'
    ensures x / t <= x / t'
  {
    var y, z := x / t, x / t';
    assert y * t == x && z * t' == x;
  }

  /** With an exponential that grows, more heat lowers no weight: the distribution gets flatter. */
  lemma HotterIsFlatter(exp: real -> real, logits: Vec, t: real, t': real, a: seq<real>, b: seq<real>)
    requires logits != [] && t <= t' && Softened(exp, logits, t, a) && Softened(exp, logits, t', b)
    requires forall x: real, y: real :: x <= y ==> exp(x) <= exp(y)
    ensures forall i: nat :: i < |logits| ==> a[i] <= b[i]
  {
    var m := SomeGreatest(logits);
    forall i: nat | i < |logits| ensures a[i] <= b[i] {
      QuotientOrder(logits[i] - m, t, t');
      assert a[i] == exp((logits[i] - m) / t) && b[i] == exp((logits[i] - m) / t');
    }
  }

  // ---------------------------------------------------------------- the draw in these terms

  /** The cut, whatever the loop: the fewest of the greatest weights that together reach the share of the
      whole, or all; the others lose theirs. */
  ghost predicate KeepsTop(weights: seq<real>, order: seq<nat>, topP: real, cut: seq<real>) {
    && |order| == |weights|
    && exists kept: nat :: 0 < kept <= |order| && KeptFirst(weights, order, cut, kept, |order|) && FewestReaching(weights, order, topP, kept)
  }

  ghost predicate FewestReaching(weights: seq<real>, order: seq<nat>, topP: real, kept: nat)
    requires kept <= |order|
  {
    var whole := SumOf(|weights|, Entries(weights));
    && (kept == |order| || Mass(weights, order, kept) >= whole * topP)
    && forall k: nat :: 0 < k < kept ==> Mass(weights, order, k) < whole * topP
  }

  /** The weights that the draw is from. */
  ghost predicate DrawnWeights(s: Sampler, logits: Vec, temperature: real, topP: real, weights: seq<real>)
    requires s.Valid()
  {
    exists all: seq<real> :: Softened(s.exp, logits, temperature, all) &&
      if topP >= 1.0 then weights == all else Descending(all, s.order(all)) && KeepsTop(all, s.order(all), topP, weights)
  }

  lemma NucleusTop(weights: seq<real>, order: seq<nat>, topP: real)
    requires Descending(weights, order) && weights != []
    ensures KeepsTop(weights, order, topP, Nucleus(weights, order, topP))
  {
    hide Nucleus, KeptFirst, Mass, SumOf, Entries;
    InOrder(weights, order);
    var kept := NucleusKeeps(weights, order, topP);
    SumIs(weights);
  }

  /** What the draw gives, in terms of the logits and the temperature alone. */
  lemma DrawMeaning(s: Sampler, logits: Vec, temperature: real, topP: real, rng: Rng) returns (weights: seq<real>)
    requires s.Valid() && logits != [] && temperature > 0.0
    ensures DrawnWeights(s, logits, temperature, topP, weights) && Draw(s, logits, temperature, topP, rng) == s.pick(weights, rng)
  {
    hide Heated, Nucleus, Softened, KeepsTop;
    var all := Heated(s.exp, logits, temperature);
    HeatedSoftens(s.exp, logits, temperature);
    assert Descending(all, s.order(all));
    if topP < 1.0 {
      NucleusTop(all, s.order(all), topP);
      weights := Nucleus(all, s.order(all), topP);
    } else {
      weights := all;
    }
  }

  /** Logits and temperature multiplied alike give the same draw. */
  lemma DrawScales(s: Sampler, logits: Vec, others: Vec, temperature: real, k: real, topP: real, rng: Rng)
    requires s.Valid() && logits != [] && temperature > 0.0 && k > 0.0
    requires |others| == |logits| && forall i: nat :: i < |logits| ==> others[i] == k * logits[i]
    ensures k * temperature > 0.0 && Draw(s, others, k * temperature, topP, rng) == Draw(s, logits, temperature, topP, rng)
  {
    hide Heated, Nucleus, Softened;
    var all := Heated(s.exp, logits, temperature);
    HeatedSoftens(s.exp, logits, temperature);
    SoftenedScales(s.exp, logits, others, temperature, k, all);
    HeatedSoftens(s.exp, others, k * temperature);
    SoftenedOnce(s.exp, others, k * temperature, all, Heated(s.exp, others, k * temperature));
  }

  /** And so does the same number added to all logits. */
  lemma DrawShifts(s: Sampler, logits: Vec, others: Vec, temperature: real, d: real, topP: real, rng: Rng)
    requires s.Valid() && logits != [] && temperature > 0.0
    requires |others| == |logits| && forall i: nat :: i < |logits| ==> others[i] == logits[i] + d
    ensures Draw(s, others, temperature, topP, rng) == Draw(s, logits, temperature, topP, rng)
  {
    hide Heated, Nucleus, Softened;
    var all := Heated(s.exp, logits, temperature);
    HeatedSoftens(s.exp, logits, temperature);
    SoftenedShifts(s.exp, logits, others, temperature, d, all);
    HeatedSoftens(s.exp, others, temperature);
    SoftenedOnce(s.exp, others, temperature, all, Heated(s.exp, others, temperature));
  }

  // ---------------------------------------------------------------- the loops

  method Heat(s: Sampler, logits: Vec, temperature: real) returns (weights: seq<real>)
    requires logits != [] && temperature > 0.0
    ensures weights == Heated(s.exp, logits, temperature)
  {
    hide Max;
    var maxLogit := Max(logits);
    var inverseTemperature := 1.0 / temperature;
    weights := [];
    var index := 0;
    while index < |logits|
      invariant 0 <= index <= |logits| == |Heated(s.exp, logits, temperature)|
      invariant weights == Heated(s.exp, logits, temperature)[..index]
    {
      var x := logits[index] - maxLogit;
      assert x * inverseTemperature == Over(x, temperature);
      hide Over;
      weights := weights + [s.exp(x * inverseTemperature)];
      index := index + 1;
    }
  }

  method CutTail(all: seq<real>, order: seq<nat>, topP: real) returns (weights: seq<real>)
    requires forall j: nat :: j < |order| ==> order[j] < |all|
    ensures weights == Nucleus(all, order, topP)
  {
    var total := Accumulate(all);
    var threshold := Share(total, topP);
    weights := all;
    var cumulative, reached := 0.0, false;
    var j := 0;
    while j < |order|
      invariant 0 <= j <= |order| && Cutting(weights, cumulative, reached) == CutUpTo(all, order, threshold, j)
    {
      if reached {
        weights := weights[order[j] := 0.0];
      } else {
        cumulative := cumulative + weights[order[j]];
        reached := cumulative >= threshold;
      }
      j := j + 1;
    }
  }

  /** The weights, and the cut if there is one. */
  method CutWeights(s: Sampler, logits: Vec, temperature: real, topP: real) returns (weights: seq<real>)
    requires s.Valid() && logits != [] && temperature > 0.0
    ensures |weights| == |logits|
    ensures weights == var all := Heated(s.exp, logits, temperature); if topP < 1.0 then Nucleus(all, s.order(all), topP) else all
    ensures DrawnWeights(s, logits, temperature, topP, weights)
    ensures topP >= 1.0 ==> Softened(s.exp, logits, temperature, weights)
  {
    hide Heated, Nucleus, Softened, KeepsTop;
    HeatedSoftens(s.exp, logits, temperature);
    ghost var all := Heated(s.exp, logits, temperature);
    assert Descending(all, s.order(all));
    if topP < 1.0 {
      NucleusTop(all, s.order(all), topP);
    }
    weights := Heat(s, logits, temperature);
    if topP < 1.0 {
      assert Descending(weights, s.order(weights));
      weights := CutTail(weights, s.order(weights), topP);
    }
  }

  /** std::accumulate. */
  method Accumulate(xs: seq<real>) returns (sum: real)
    ensures sum == Sum(xs)
  {
    sum := 0.0;
    var i := 0;
    while i < |xs|
      invariant 0 <= i <= |xs| && sum == Sum(xs[..i])
    {
      assert xs[..i + 1][..i] == xs[..i];
      sum := sum + xs[i];
      i := i + 1;
    }
    assert xs[..i] == xs;
  }
}
