/** The two moves of the bucket ring: making room for an entry, and closing the gap of an erased one. */
module RobinHoodMoves {
  import opened Common
  import opened RobinHood

  function Up(x: Bucket): Bucket {
    x.(daf := x.daf + DistInc)
  }

  function Down(x: Bucket): Bucket {
    if x.daf >= DistInc then x.(daf := x.daf - DistInc) else x
  }

  // ---------------------------------------------------------------- making room

  /** What stands `x` steps after `q` once `first` was placed at `q` and the `m` entries from there on moved
      one step up. */
  function UpAt(b: seq<Bucket>, q: nat, m: nat, first: Bucket, x: nat): Bucket
    requires q < |b| && x < |b|
  {
    if x == 0 then first else if x <= m then Up(b[Walk(|b|, q, x - 1)]) else b[Walk(|b|, q, x)]
  }

  ghost predicate ShiftedUp(b: seq<Bucket>, b': seq<Bucket>, q: nat, m: nat, first: Bucket) {
    && |b'| == |b| && q < |b| && m < |b| && b[Walk(|b|, q, m)].daf == 0
    && (forall x: nat :: x < m ==> Live(b[Walk(|b|, q, x)]))
    && (forall x: nat :: x < |b| ==> b'[Walk(|b|, q, x)] == UpAt(b, q, m, first, x))
  }

  /** The place where an entry goes, as the probe that found it knows it. */
  ghost predicate Place<K(!new)>(g: Ring<K>, b: seq<Bucket>, key: K, j: nat)
    requires g.Valid() && |b| == g.n
  {
    && j < g.n
    && b[Walk(g.n, g.home(key), j)].daf <= Probe(g, key, j)
    && (j > 0 ==> b[Walk(g.n, g.home(key), j - 1)].daf >= Probe(g, key, j - 1))
  }

  lemma DistOfProbe<K(!new)>(g: Ring<K>, key: K, j: nat)
    requires g.Valid()
    ensures Dist(Probe(g, key, j)) == j + 1 && Probe(g, key, j) + DistInc == Probe(g, key, j + 1)
    ensures Probe(g, key, j) >= DistInc && (Probe(g, key, j) >= 2 * DistInc <==> j > 0)
  {
  }

  lemma UpStands<K(!new)>(g: Ring<K>, b: seq<Bucket>, keys: seq<K>, q: nat, m: nat, x: nat) returns (j: nat)
    requires Shape(g, b, keys) && q < g.n && m < g.n && b[Walk(g.n, q, m)].daf == 0 && 0 < x <= m && Live(b[Walk(g.n, q, x - 1)])
    ensures var p := Walk(g.n, q, x - 1);
      && b[p].idx < |keys| && Up(b[p]).daf == Probe(g, keys[b[p].idx], j + 1) && j + 1 < g.n
      && Walk(g.n, g.home(keys[b[p].idx]), j + 1) == Walk(g.n, q, x)
  {
    hide BucketOk, OrderAt;
    var p := Walk(g.n, q, x - 1);
    j := Standing(g, b, keys, p);
    var key := keys[b[p].idx];
    var h := g.home(key);
    var e := Steps(g.n, h, Walk(g.n, q, m));
    BeforeEmpty(g, b, keys, p, j, e);
    DistOfProbe(g, key, j);
    WalkNext(g.n, h, j);
    WalkNext(g.n, q, x - 1);
  }

  lemma BucketOkBy<K(!new)>(g: Ring<K>, b: seq<Bucket>, keys: seq<K>, p: nat, j: nat)
    requires g.Valid() && |b| == g.n && Stands(g, b, keys, p, j)
    ensures BucketOk(g, b, keys, p)
  {
    DistOfProbe(g, keys[b[p].idx], j);
  }

  lemma UpBuckets<K(!new)>(g: Ring<K>, b: seq<Bucket>, keys: seq<K>, b': seq<Bucket>, q: nat, m: nat, first: Bucket, key: K, j: nat)
    requires Shape(g, b, keys) && ShiftedUp(b, b', q, m, first) && Place(g, b, key, j)
    requires first == Bucket(Probe(g, key, j), |keys|) && Walk(g.n, g.home(key), j) == q
    ensures forall p: nat :: p < g.n ==> BucketOk(g, b', keys + [key], p)
  {
    hide OrderAt, Probe, Walk, Steps;
    WalkStart(g.n, q);
    var keys' := keys + [key];
    forall p: nat | p < g.n ensures BucketOk(g, b', keys', p) {
      var x := Steps(g.n, q, p);
      assert b'[p] == UpAt(b, q, m, first, x);
      if x == 0 {
        BucketOkBy(g, b', keys', p, j);
      } else if x <= m {
        assert Live(b[Walk(g.n, q, x - 1)]);
        var i := UpStands(g, b, keys, q, m, x);
        BucketOkBy(g, b', keys', p, i + 1);
      } else {
        assert BucketOk(g, b, keys, p);
        if Live(b[p]) {
          var i := Standing(g, b, keys, p);
          BucketOkBy(g, b', keys', p, i);
        }
      }
    }
  }

  lemma UpOrderInside(b: seq<Bucket>, q: nat, m: nat, first: Bucket, x: nat)
    requires q < |b| && m < |b| && x + 1 < |b| && b[Walk(|b|, q, m)].daf == 0 && b[q].daf <= first.daf
    requires forall y: nat :: y < m ==> b[Walk(|b|, q, y)].daf >= DistInc
    requires forall p: nat :: p < |b| ==> OrderAt(b, p)
    ensures UpAt(b, q, m, first, x + 1).daf >= 2 * DistInc ==> UpAt(b, q, m, first, x + 1).daf <= UpAt(b, q, m, first, x).daf + DistInc
  {
    hide Walk;
    assert Walk(|b|, q, 0) == q by {
      WalkStart(|b|, q);
    }
    if x > 0 {
      WalkNext(|b|, q, x - 1);
      assert OrderAt(b, Walk(|b|, q, x - 1));
    }
    WalkNext(|b|, q, x);
    assert OrderAt(b, Walk(|b|, q, x));
  }

  lemma WalkStart(n: nat, q: nat)
    requires q < n
    ensures Walk(n, q, 0) == q
  {
  }

  lemma LiveDist<K(!new)>(g: Ring<K>, b: seq<Bucket>, keys: seq<K>, p: nat)
    requires Shape(g, b, keys) && p < g.n && Live(b[p])
    ensures b[p].daf >= DistInc
  {
    var j := Standing(g, b, keys, p);
  }

  /** Order is a matter of steps from any bucket. */
  lemma OrderBySteps(b: seq<Bucket>, q: nat)
    requires q < |b|
    requires forall x: nat :: x + 1 < |b| && b[Walk(|b|, q, x + 1)].daf >= 2 * DistInc ==> b[Walk(|b|, q, x + 1)].daf <= b[Walk(|b|, q, x)].daf + DistInc
    requires b[q].daf >= 2 * DistInc ==> b[q].daf <= b[Walk(|b|, q, |b| - 1)].daf + DistInc
    ensures forall p: nat :: p < |b| ==> OrderAt(b, p)
  {
    forall p: nat | p < |b| ensures OrderAt(b, p) {
      var x := Steps(|b|, q, p);
      if x + 1 < |b| {
        WalkNext(|b|, q, x);
        assert b[Walk(|b|, q, x + 1)] == b[Next(|b|, p)];
      } else {
        assert Next(|b|, p) == q;
      }
    }
  }

  lemma UpOrder<K(!new)>(g: Ring<K>, b: seq<Bucket>, keys: seq<K>, b': seq<Bucket>, q: nat, m: nat, first: Bucket, key: K, j: nat)
    requires Shape(g, b, keys) && ShiftedUp(b, b', q, m, first) && Place(g, b, key, j)
    requires first == Bucket(Probe(g, key, j), |keys|) && Walk(g.n, g.home(key), j) == q
    ensures forall p: nat :: p < g.n ==> OrderAt(b', p)
  {
    hide BucketOk, Probe, OrderAt, Walk, UpAt, Place;
    PlaceBelow(g, b, key, j);
    forall y: nat | y < m ensures b[Walk(g.n, q, y)].daf >= DistInc {
      assert Live(b[Walk(g.n, q, y)]);
      LiveDist(g, b, keys, Walk(g.n, q, y));
    }
    WalkStart(g.n, q);
    forall x: nat | x + 1 < g.n && b'[Walk(g.n, q, x + 1)].daf >= 2 * DistInc
      ensures b'[Walk(g.n, q, x + 1)].daf <= b'[Walk(g.n, q, x)].daf + DistInc
    {
      UpOrderInside(b, q, m, first, x);
      assert b'[Walk(g.n, q, x + 1)] == UpAt(b, q, m, first, x + 1) && b'[Walk(g.n, q, x)] == UpAt(b, q, m, first, x);
    }
    UpOrderBehind(g, b, keys, b', q, m, first, key, j);
    OrderBySteps(b', q);
  }

  lemma PlaceBelow<K(!new)>(g: Ring<K>, b: seq<Bucket>, key: K, j: nat)
    requires g.Valid() && |b| == g.n && Place(g, b, key, j)
    ensures b[Walk(g.n, g.home(key), j)].daf <= Probe(g, key, j)
  {
  }

  lemma UpOrderBehind<K(!new)>(g: Ring<K>, b: seq<Bucket>, keys: seq<K>, b': seq<Bucket>, q: nat, m: nat, first: Bucket, key: K, j: nat)
    requires Shape(g, b, keys) && ShiftedUp(b, b', q, m, first) && Place(g, b, key, j)
    requires first == Bucket(Probe(g, key, j), |keys|) && Walk(g.n, g.home(key), j) == q
    ensures b'[q].daf >= 2 * DistInc ==> b'[q].daf <= b'[Walk(g.n, q, g.n - 1)].daf + DistInc
  {
    hide BucketOk, Probe, OrderAt;
    WalkStart(g.n, q);
    assert b'[q] == UpAt(b, q, m, first, 0) == first;
    DistOfProbe(g, key, j);
    if j > 0 {
      DistOfProbe(g, key, j - 1);
      var p := Walk(g.n, q, g.n - 1);
      assert p == Walk(g.n, g.home(key), j - 1);
      assert b'[p] == UpAt(b, q, m, first, g.n - 1);
      assert b[p].daf > 0;
    }
  }

  /** Making room keeps every entry on its probe path and the ring in order. */
  lemma UpShape<K(!new)>(g: Ring<K>, b: seq<Bucket>, keys: seq<K>, b': seq<Bucket>, q: nat, m: nat, first: Bucket, key: K, j: nat)
    requires Shape(g, b, keys) && ShiftedUp(b, b', q, m, first) && Place(g, b, key, j)
    requires first == Bucket(Probe(g, key, j), |keys|) && Walk(g.n, g.home(key), j) == q
    ensures Shape(g, b', keys + [key])
  {
    UpBuckets(g, b, keys, b', q, m, first, key, j);
    UpOrder(g, b, keys, b', q, m, first, key, j);
    hide BucketOk, OrderAt, Place, ShiftedUp;
  }

  /** Where the entry that stands `x` steps after `q` came from. */
  function UpFrom(m: nat, x: nat): nat {
    if 0 < x <= m then x - 1 else x
  }

  lemma UpSource(b: seq<Bucket>, b': seq<Bucket>, q: nat, m: nat, first: Bucket, p: nat) returns (s: nat)
    requires ShiftedUp(b, b', q, m, first) && p < |b| && p != q && Live(b'[p])
    ensures s < |b| && Live(b[s]) && b'[p].idx == b[s].idx && s == Walk(|b|, q, UpFrom(m, Steps(|b|, q, p)))
    ensures Steps(|b|, q, p) > 0 && UpFrom(m, Steps(|b|, q, p)) != m
  {
    var x := Steps(|b|, q, p);
    assert b'[p] == UpAt(b, q, m, first, x);
    s := Walk(|b|, q, UpFrom(m, x));
    if 0 < x <= m {
      assert Live(b[Walk(|b|, q, x - 1)]);
    }
  }

  /** Making room keeps the one bucket of each value, and gives the new value its own. */
  lemma UpLinked(b: seq<Bucket>, b': seq<Bucket>, q: nat, m: nat, first: Bucket, count: nat)
    requires Linked(b, count) && ShiftedUp(b, b', q, m, first) && first.idx == count && Live(first)
    ensures Linked(b', count + 1)
  {
    WalkStart(|b|, q);
    assert b'[q] == UpAt(b, q, m, first, 0) == first;
    forall p: nat | p < |b'| && Live(b'[p]) ensures b'[p].idx < count + 1 && (p != q ==> b'[p].idx < count) {
      if p != q {
        var s := UpSource(b, b', q, m, first, p);
      }
    }
    forall p: nat, r: nat | p < r < |b'| && Live(b'[p]) && Live(b'[r]) ensures b'[p].idx != b'[r].idx {
      if p != q && r != q {
        var s := UpSource(b, b', q, m, first, p);
        var t := UpSource(b, b', q, m, first, r);
        WalkApart(|b|, q, UpFrom(m, Steps(|b|, q, p)), UpFrom(m, Steps(|b|, q, r)));
        UpFromInjective(|b|, q, m, p, r);
        assert s < t || t < s;
      }
    }
    forall i: nat | i < count + 1 ensures HasIndex(b', i) {
      if i == count {
        assert b'[q].idx == i;
      } else {
        assert HasIndex(b, i);
        var s: nat :| s < |b| && Live(b[s]) && b[s].idx == i;
        var x := Steps(|b|, q, s);
        assert x != m;
        var y := if x < m then x + 1 else x;
        var p := Walk(|b|, q, y);
        assert b'[p] == UpAt(b, q, m, first, y);
        assert Live(b'[p]) && b'[p].idx == i;
      }
    }
  }

  lemma WalkApart(n: nat, q: nat, i: nat, j: nat)
    requires q < n && i < n && j < n
    ensures Walk(n, q, i) == Walk(n, q, j) ==> i == j
  {
  }

  lemma UpFromInjective(n: nat, q: nat, m: nat, p: nat, r: nat)
    requires q < n && p < n && r < n && p != r && p != q && r != q && m < n
    requires UpFrom(m, Steps(n, q, p)) != m && UpFrom(m, Steps(n, q, r)) != m
    ensures UpFrom(m, Steps(n, q, p)) != UpFrom(m, Steps(n, q, r))
  {
  }

  // ---------------------------------------------------------------- closing a gap

  /** What stands `x` steps after `q` once `m` entries behind it have moved one step back. */
  function DownSoFar(b: seq<Bucket>, q: nat, m: nat, x: nat): Bucket
    requires q < |b| && x < |b|
  {
    if x < m then Down(b[Walk(|b|, q, x + 1)]) else b[Walk(|b|, q, x)]
  }

  /** And once the last place is emptied: the entry at `q` is gone. */
  function DownAt(b: seq<Bucket>, q: nat, m: nat, x: nat): Bucket
    requires q < |b| && m < |b| && x < |b|
  {
    if x == m then Empty else DownSoFar(b, q, m, x)
  }

  ghost predicate ShiftedDown(b: seq<Bucket>, b': seq<Bucket>, q: nat, m: nat) {
    && |b'| == |b| && q < |b| && m < |b| && Live(b[q])
    && (forall x: nat :: 0 < x <= m ==> b[Walk(|b|, q, x)].daf >= 2 * DistInc)
    && b[Walk(|b|, q, m + 1)].daf < 2 * DistInc
    && (forall x: nat :: x < |b| ==> b'[Walk(|b|, q, x)] == DownAt(b, q, m, x))
  }

  lemma DownBuckets<K(!new)>(g: Ring<K>, b: seq<Bucket>, keys: seq<K>, b': seq<Bucket>, q: nat, m: nat)
    requires Shape(g, b, keys) && ShiftedDown(b, b', q, m)
    ensures forall p: nat :: p < g.n ==> BucketOk(g, b', keys, p)
  {
    hide OrderAt, Probe;
    forall p: nat | p < g.n ensures BucketOk(g, b', keys, p) {
      var x := Steps(g.n, q, p);
      assert b'[p] == DownAt(b, q, m, x);
      if x < m {
        var s := Walk(g.n, q, x + 1);
        assert b[s].daf >= 2 * DistInc;
        var j := Standing(g, b, keys, s);
        DistOfProbe(g, keys[b[s].idx], j);
        DistOfProbe(g, keys[b[s].idx], j - 1);
        WalkNext(g.n, q, x);
        WalkNext(g.n, g.home(keys[b[s].idx]), j - 1);
        BucketOkBy(g, b', keys, p, j - 1);
      } else if x > m {
        assert BucketOk(g, b, keys, p);
        if Live(b[p]) {
          var j := Standing(g, b, keys, p);
          BucketOkBy(g, b', keys, p, j);
        }
      }
    }
  }

  lemma DownOrderInside(b: seq<Bucket>, q: nat, m: nat, x: nat)
    requires q < |b| && m < |b| && x + 1 < |b|
    requires forall y: nat :: 0 < y <= m ==> b[Walk(|b|, q, y)].daf >= 2 * DistInc
    requires b[Walk(|b|, q, m + 1)].daf < 2 * DistInc
    requires forall p: nat :: p < |b| ==> OrderAt(b, p)
    ensures DownAt(b, q, m, x + 1).daf >= 2 * DistInc ==> DownAt(b, q, m, x + 1).daf <= DownAt(b, q, m, x).daf + DistInc
  {
    hide Walk;
    WalkNext(|b|, q, x);
    assert OrderAt(b, Walk(|b|, q, x));
    if x + 1 < m {
      WalkNext(|b|, q, x + 1);
      assert OrderAt(b, Walk(|b|, q, x + 1));
    }
  }

  lemma DownOrder<K(!new)>(g: Ring<K>, b: seq<Bucket>, keys: seq<K>, b': seq<Bucket>, q: nat, m: nat)
    requires Shape(g, b, keys) && ShiftedDown(b, b', q, m) && HasEmpty(b)
    ensures forall p: nat :: p < g.n ==> OrderAt(b', p)
  {
    hide BucketOk, OrderAt;
    forall x: nat | x + 1 < g.n && b'[Walk(g.n, q, x + 1)].daf >= 2 * DistInc
      ensures b'[Walk(g.n, q, x + 1)].daf <= b'[Walk(g.n, q, x)].daf + DistInc
    {
      DownOrderInside(b, q, m, x);
      assert b'[Walk(g.n, q, x + 1)] == DownAt(b, q, m, x + 1) && b'[Walk(g.n, q, x)] == DownAt(b, q, m, x);
    }
    DownOrderBehind(g, b, keys, b', q, m);
    OrderBySteps(b', q);
  }

  lemma DownOrderBehind<K(!new)>(g: Ring<K>, b: seq<Bucket>, keys: seq<K>, b': seq<Bucket>, q: nat, m: nat)
    requires Shape(g, b, keys) && ShiftedDown(b, b', q, m) && HasEmpty(b)
    ensures b'[q].daf >= 2 * DistInc ==> b'[q].daf <= b'[Walk(g.n, q, g.n - 1)].daf + DistInc
  {
    hide BucketOk;
    var last := Walk(g.n, q, g.n - 1);
    WalkStart(g.n, q);
    assert b'[q] == DownAt(b, q, m, 0) && b'[last] == DownAt(b, q, m, g.n - 1);
    assert OrderAt(b, last) && Next(g.n, last) == q;
    WalkNext(g.n, q, 0);
    assert OrderAt(b, q);
    GapEnds(b, b', q, m);
  }

  /** The entries that move back end before the ring is round. */
  lemma GapEnds(b: seq<Bucket>, b': seq<Bucket>, q: nat, m: nat)
    requires ShiftedDown(b, b', q, m) && HasEmpty(b)
    ensures m + 1 < |b|
  {
    var e: nat :| e < |b| && b[e].daf == 0;
    var x := Steps(|b|, q, e);
    assert Walk(|b|, q, x) == e && x != 0;
    assert x > m;
  }

  /** Closing a gap keeps every entry on its probe path and the ring in order. */
  lemma DownShape<K(!new)>(g: Ring<K>, b: seq<Bucket>, keys: seq<K>, b': seq<Bucket>, q: nat, m: nat)
    requires Shape(g, b, keys) && ShiftedDown(b, b', q, m) && HasEmpty(b)
    ensures Shape(g, b', keys)
  {
    DownBuckets(g, b, keys, b', q, m);
    DownOrder(g, b, keys, b', q, m);
    hide BucketOk, OrderAt, ShiftedDown;
  }

  /** All values but one have their one bucket. */
  ghost predicate LinkedBut(b: seq<Bucket>, count: nat, gone: nat) {
    && (forall p: nat, q: nat :: p < q < |b| && Live(b[p]) && Live(b[q]) ==> b[p].idx != b[q].idx)
    && (forall p: nat :: p < |b| && Live(b[p]) ==> b[p].idx < count && b[p].idx != gone)
    && (forall i: nat :: i < count && i != gone ==> HasIndex(b, i))
  }

  function DownFrom(m: nat, x: nat): nat {
    if x < m then x + 1 else x
  }

  lemma DownSource(b: seq<Bucket>, b': seq<Bucket>, q: nat, m: nat, p: nat) returns (s: nat)
    requires ShiftedDown(b, b', q, m) && p < |b| && Live(b'[p])
    ensures s < |b| && s != q && Live(b[s]) && b'[p].idx == b[s].idx && s == Walk(|b|, q, DownFrom(m, Steps(|b|, q, p)))
    ensures Steps(|b|, q, p) != m
  {
    var x := Steps(|b|, q, p);
    assert b'[p] == DownAt(b, q, m, x);
    s := Walk(|b|, q, DownFrom(m, x));
    if x < m {
      assert b[Walk(|b|, q, x + 1)].daf >= 2 * DistInc;
    }
    WalkStart(|b|, q);
    WalkApart(|b|, q, 0, DownFrom(m, x));
  }

  lemma DownApart(b: seq<Bucket>, b': seq<Bucket>, q: nat, m: nat, count: nat, p: nat, r: nat)
    requires Linked(b, count) && ShiftedDown(b, b', q, m) && p < r < |b'| && Live(b'[p]) && Live(b'[r])
    ensures b'[p].idx != b'[r].idx
  {
    var s := DownSource(b, b', q, m, p);
    var t := DownSource(b, b', q, m, r);
    hide ShiftedDown, Walk;
    DownFromInjective(|b|, q, m, p, r);
    assert s < t || t < s;
  }

  lemma DownFromInjective(n: nat, q: nat, m: nat, p: nat, r: nat)
    requires q < n && p < n && r < n && p != r && m < n && Steps(n, q, p) != m && Steps(n, q, r) != m
    ensures DownFrom(m, Steps(n, q, p)) < n && DownFrom(m, Steps(n, q, r)) < n
    ensures Walk(n, q, DownFrom(m, Steps(n, q, p))) != Walk(n, q, DownFrom(m, Steps(n, q, r)))
  {
    WalkApart(n, q, DownFrom(m, Steps(n, q, p)), DownFrom(m, Steps(n, q, r)));
  }

  lemma DownHas(b: seq<Bucket>, b': seq<Bucket>, q: nat, m: nat, count: nat, i: nat)
    requires Linked(b, count) && ShiftedDown(b, b', q, m) && i < count && i != b[q].idx
    ensures HasIndex(b', i)
  {
    assert HasIndex(b, i);
    var s: nat :| s < |b| && Live(b[s]) && b[s].idx == i;
    hide ShiftedDown, Live;
    var p := DownTarget(b, b', q, m, s);
    assert b'[p].idx == i;
  }

  lemma DownTarget(b: seq<Bucket>, b': seq<Bucket>, q: nat, m: nat, s: nat) returns (p: nat)
    requires ShiftedDown(b, b', q, m) && s < |b| && s != q && Live(b[s])
    ensures p < |b'| && Live(b'[p]) && b'[p].idx == b[s].idx
  {
    var x := Steps(|b|, q, s);
    assert 0 < x;
    if x <= m {
      assert b[Walk(|b|, q, x)].daf >= 2 * DistInc;
      p := Walk(|b|, q, x - 1);
      assert b'[p] == DownAt(b, q, m, x - 1);
    } else {
      p := s;
      assert b'[Walk(|b|, q, x)] == DownAt(b, q, m, x);
    }
  }

  lemma DownLinked(b: seq<Bucket>, b': seq<Bucket>, q: nat, m: nat, count: nat)
    requires Linked(b, count) && ShiftedDown(b, b', q, m)
    ensures LinkedBut(b', count, b[q].idx)
  {
    hide Walk;
    forall p: nat | p < |b'| && Live(b'[p]) ensures b'[p].idx < count && b'[p].idx != b[q].idx {
      var s := DownSource(b, b', q, m, p);
      assert s < q || q < s;
    }
    forall p: nat, r: nat | p < r < |b'| && Live(b'[p]) && Live(b'[r]) ensures b'[p].idx != b'[r].idx {
      DownApart(b, b', q, m, count, p, r);
    }
    forall i: nat | i < count && i != b[q].idx ensures HasIndex(b', i) {
      DownHas(b, b', q, m, count, i);
    }
  }

  // ---------------------------------------------------------------- the last value fills the hole

  /** The entry of the last value now points where that value has moved. */
  lemma MoveLast<K(!new)>(g: Ring<K>, b: seq<Bucket>, keys: seq<K>, gone: nat, p: nat)
    requires Shape(g, b, keys) && LinkedBut(b, |keys|, gone) && gone + 1 < |keys|
    requires p < g.n && Live(b[p]) && b[p].idx == |keys| - 1
    ensures var last := |keys| - 1;
      var b' := b[p := b[p].(idx := gone)];
      var keys' := keys[gone := keys[last]][..last];
      Shape(g, b', keys') && Linked(b', last)
  {
    hide Probe;
    var last := |keys| - 1;
    var b' := b[p := b[p].(idx := gone)];
    var keys' := keys[gone := keys[last]][..last];
    forall r: nat | r < g.n ensures BucketOk(g, b', keys', r) {
      assert BucketOk(g, b, keys, r);
      if Live(b[r]) {
        var j := Standing(g, b, keys, r);
        assert r != p ==> b[r].idx != last;
        assert keys'[b'[r].idx] == keys[b[r].idx];
        BucketOkBy(g, b', keys', r, j);
      }
    }
    forall r: nat | r < g.n ensures OrderAt(b', r) {
      assert OrderAt(b, r);
    }
    forall i: nat | i < last ensures HasIndex(b', i) {
      if i == gone {
        assert b'[p].idx == i;
      } else {
        assert HasIndex(b, i);
        var r: nat :| r < |b| && Live(b[r]) && b[r].idx == i;
        assert b'[r].idx == i;
      }
    }
    forall r: nat | r < |b'| && Live(b'[r]) ensures b'[r].idx < last {
      assert r != p ==> b[r].idx != last;
    }
  }

  /** The last value itself was the one erased. */
  lemma DropLast<K(!new)>(g: Ring<K>, b: seq<Bucket>, keys: seq<K>)
    requires keys != [] && Shape(g, b, keys) && LinkedBut(b, |keys|, |keys| - 1)
    ensures Shape(g, b, keys[..|keys| - 1]) && Linked(b, |keys| - 1)
  {
    hide Probe;
    var keys' := keys[..|keys| - 1];
    forall r: nat | r < g.n ensures BucketOk(g, b, keys', r) {
      assert BucketOk(g, b, keys, r);
      if Live(b[r]) {
        var j := Standing(g, b, keys, r);
        BucketOkBy(g, b, keys', r, j);
      }
    }
  }
}
