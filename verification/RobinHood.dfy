/** The bucket ring of utils/include/unordered_dense.h: open addressing where a bucket keeps its distance
    from home and a fingerprint in one number, and richer entries make way for poorer ones. */
module RobinHood {
  import opened Common
  import opened Counting

  const DistInc := 256

  /** `daf` is the distance times DistInc, plus the fingerprint; 0 in an empty bucket. */
  datatype Bucket = Bucket(daf: nat, idx: nat)

  const Empty := Bucket(0, 0)

  /** Where keys belong in a ring of `n` buckets. */
  datatype Ring<!K(==, !new)> = Ring(n: nat, home: K -> nat, fp: K -> nat) {
    ghost predicate Valid() {
      n > 0 && forall k: K :: home(k) < n && fp(k) < DistInc
    }
  }

  function Next(n: nat, p: nat): nat {
    if p + 1 == n then 0 else p + 1
  }

  /** The bucket `j` steps after `h`. */
  function Walk(n: nat, h: nat, j: nat): nat
    requires h < n && j < 2 * n
    ensures Walk(n, h, j) < n
  {
    if h + j < n then h + j else if h + j < 2 * n then h + j - n else h + j - 2 * n
  }

  /** How many steps it is from `h` to `p`. */
  function Steps(n: nat, h: nat, p: nat): nat
    requires h < n && p < n
    ensures Steps(n, h, p) < n && Walk(n, h, Steps(n, h, p)) == p
  {
    if p >= h then p - h else p + n - h
  }

  lemma WalkNext(n: nat, h: nat, j: nat)
    requires h < n && j + 1 < 2 * n
    ensures Walk(n, h, j + 1) == Next(n, Walk(n, h, j))
  {
  }

  /** The probe for `key` after `j` steps. */
  function Probe<K(!new)>(g: Ring<K>, key: K, j: nat): nat {
    DistInc * (j + 1) + g.fp(key)
  }

  /** Bucket `p` is where its key is after `j` steps from home. */
  ghost predicate Stands<K(!new)>(g: Ring<K>, b: seq<Bucket>, keys: seq<K>, p: nat, j: nat)
    requires g.Valid() && |b| == g.n
  {
    && p < g.n && j < g.n && b[p].idx < |keys|
    && b[p].daf == Probe(g, keys[b[p].idx], j) && Walk(g.n, g.home(keys[b[p].idx]), j) == p
  }

  function Dist(daf: nat): nat {
    daf / DistInc
  }

  ghost predicate BucketOk<K(!new)>(g: Ring<K>, b: seq<Bucket>, keys: seq<K>, p: nat)
    requires g.Valid() && |b| == g.n && p < g.n
  {
    if b[p].daf == 0 then b[p].idx == 0
    else Dist(b[p].daf) > 0 && Stands(g, b, keys, p, Dist(b[p].daf) - 1)
  }

  /** No entry is more than one step poorer than the one before it, and of entries from one home the
      fingerprints do not ascend. */
  predicate OrderAt(b: seq<Bucket>, p: nat)
    requires p < |b|
  {
    b[Next(|b|, p)].daf >= 2 * DistInc ==> b[Next(|b|, p)].daf <= b[p].daf + DistInc
  }

  ghost predicate Shape<K(!new)>(g: Ring<K>, b: seq<Bucket>, keys: seq<K>) {
    && g.Valid() && |b| == g.n
    && (forall p: nat :: p < g.n ==> BucketOk(g, b, keys, p))
    && (forall p: nat :: p < g.n ==> OrderAt(b, p))
  }

  predicate Live(x: Bucket) {
    x.daf > 0
  }

  ghost predicate HasIndex(b: seq<Bucket>, i: nat) {
    exists p: nat :: p < |b| && Live(b[p]) && b[p].idx == i
  }

  /** Each of the first `m` values has its one bucket. */
  ghost predicate Linked(b: seq<Bucket>, m: nat) {
    && (forall p: nat, q: nat :: p < q < |b| && Live(b[p]) && Live(b[q]) ==> b[p].idx != b[q].idx)
    && (forall p: nat :: p < |b| && Live(b[p]) ==> b[p].idx < m)
    && (forall i: nat :: i < m ==> HasIndex(b, i))
  }

  ghost predicate HasEmpty(b: seq<Bucket>) {
    exists p: nat :: p < |b| && b[p].daf == 0
  }

  // ---------------------------------------------------------------- probing

  /** On the way from home to an entry, no bucket is richer than the probe. */
  lemma {:induction false} ProbeBelow<K(!new)>(g: Ring<K>, b: seq<Bucket>, keys: seq<K>, p: nat, j: nat, x: nat)
    requires Shape(g, b, keys) && p < g.n && Live(b[p]) && Stands(g, b, keys, p, j) && x <= j
    ensures b[Walk(g.n, g.home(keys[b[p].idx]), x)].daf >= Probe(g, keys[b[p].idx], x)
    decreases j - x
  {
    hide BucketOk;
    var key := keys[b[p].idx];
    if x < j {
      ProbeBelow(g, b, keys, p, j, x + 1);
      var q := Walk(g.n, g.home(key), x);
      WalkNext(g.n, g.home(key), x);
      assert OrderAt(b, q);
    }
  }

  /** Where an entry stands. */
  lemma Standing<K(!new)>(g: Ring<K>, b: seq<Bucket>, keys: seq<K>, p: nat) returns (j: nat)
    requires Shape(g, b, keys) && p < g.n && Live(b[p])
    ensures Stands(g, b, keys, p, j)
  {
    assert BucketOk(g, b, keys, p);
    j := Dist(b[p].daf) - 1;
  }

  /** An entry never stands past an empty bucket, so every distance is below the size of the ring. */
  lemma BeforeEmpty<K(!new)>(g: Ring<K>, b: seq<Bucket>, keys: seq<K>, p: nat, j: nat, e: nat)
    requires Shape(g, b, keys) && p < g.n && Live(b[p]) && Stands(g, b, keys, p, j)
    requires e < g.n && b[Walk(g.n, g.home(keys[b[p].idx]), e)].daf == 0
    ensures j < e
  {
    if e <= j {
      ProbeBelow(g, b, keys, p, j, e);
      assert false;
    }
  }

  /** A probe that has met an equal bucket stays equal until it reaches its entry. */
  lemma ProbeEqual<K(!new)>(g: Ring<K>, b: seq<Bucket>, keys: seq<K>, p: nat, j: nat, x: nat)
    requires Shape(g, b, keys) && p < g.n && Live(b[p]) && Stands(g, b, keys, p, j) && x < j
    requires b[Walk(g.n, g.home(keys[b[p].idx]), x)].daf == Probe(g, keys[b[p].idx], x)
    ensures b[Walk(g.n, g.home(keys[b[p].idx]), x + 1)].daf == Probe(g, keys[b[p].idx], x + 1)
  {
    hide BucketOk;
    var key := keys[b[p].idx];
    ProbeBelow(g, b, keys, p, j, x + 1);
    WalkNext(g.n, g.home(key), x);
    assert OrderAt(b, Walk(g.n, g.home(key), x));
  }

  // ---------------------------------------------------------------- counting

  /** With fewer values than buckets, some bucket is empty. */
  lemma RoomLeft(b: seq<Bucket>, m: nat)
    requires Linked(b, m) && m < |b|
    ensures HasEmpty(b)
  {
    if !HasEmpty(b) {
      var s := seq(|b|, p requires 0 <= p < |b| => b[p].idx);
      forall p: nat | p < |b| ensures Live(b[p]) {
      }
      Pigeonhole(s, m);
    }
  }
}
