/** The table of utils/include/unordered_dense.h: values side by side in one vector, and a ring of buckets
    that says where each key's value is. It is proved to behave as a mathematical map. */
module DenseTable {
  import opened Common
  import opened Blocks
  import opened RobinHood
  import opened RobinHoodMoves

  function Keys<K, V>(values: seq<(K, V)>): (r: seq<K>)
    ensures |r| == |values| && forall i: nat :: i < |values| ==> r[i] == values[i].0
  {
    seq(|values|, i requires 0 <= i < |values| => values[i].0)
  }

  ghost predicate DistinctKeys<K>(keys: seq<K>) {
    forall a: nat, b: nat :: a < b < |keys| ==> keys[a] != keys[b]
  }

  /** The map that a vector of values stands for. */
  ghost function ToMap<K, V>(values: seq<(K, V)>): map<K, V> {
    if values == [] then map[]
    else ToMap(values[..|values| - 1])[values[|values| - 1].0 := values[|values| - 1].1]
  }

  lemma {:induction false} ToMapAt<K, V>(values: seq<(K, V)>)
    requires DistinctKeys(Keys(values))
    ensures forall k :: k in ToMap(values) <==> k in Keys(values)
    ensures forall i: nat :: i < |values| ==> values[i].0 in ToMap(values) && ToMap(values)[values[i].0] == values[i].1
    decreases |values|
  {
    if values != [] {
      var n := |values| - 1;
      var init := values[..n];
      assert Keys(init) == Keys(values)[..n];
      ToMapAt(init);
      assert Keys(values) == Keys(init) + [values[n].0];
      forall i: nat | i < |values| ensures values[i].0 in ToMap(values) && ToMap(values)[values[i].0] == values[i].1 {
        if i < n {
          assert init[i] == values[i] && Keys(values)[i] != Keys(values)[n];
        }
      }
    }
  }

  /** The values once entry `r` is gone: the last one fills its place. */
  function Without<K, V>(values: seq<(K, V)>, r: nat): (w: seq<(K, V)>)
    requires r < |values|
    ensures |w| == |values| - 1
    ensures forall i: nat :: i < |w| ==> w[i] == values[if i == r then |values| - 1 else i]
  {
    values[r := values[|values| - 1]][..|values| - 1]
  }

  lemma WithoutKeys<K, V>(values: seq<(K, V)>, r: nat)
    requires r < |values| && DistinctKeys(Keys(values))
    ensures DistinctKeys(Keys(Without(values, r)))
    ensures forall k :: k in Keys(Without(values, r)) <==> k in Keys(values) && k != values[r].0
  {
    var n := |values| - 1;
    var w := Without(values, r);
    hide Without;
    forall k ensures k in Keys(w) <==> k in Keys(values) && k != values[r].0 {
      if k in Keys(w) {
        var i: nat :| i < |w| && Keys(w)[i] == k;
        var j := if i == r then n else i;
        assert Keys(values)[j] == k && j != r;
      }
      if k in Keys(values) && k != values[r].0 {
        var j: nat :| j < |values| && Keys(values)[j] == k;
        var i := if j == n then r else j;
        assert Keys(w)[i] == k;
      }
    }
  }

  /** Erasing an entry removes its key from the map, and nothing else. */
  lemma WithoutMap<K, V>(values: seq<(K, V)>, r: nat)
    requires r < |values| && DistinctKeys(Keys(values))
    ensures ToMap(Without(values, r)) == ToMap(values) - {values[r].0}
  {
    hide ToMap, Without, DistinctKeys;
    var w := Without(values, r);
    WithoutKeys(values, r);
    forall k ensures k in ToMap(w) <==> k in ToMap(values) && k != values[r].0 {
      WithoutKey(values, r, k);
    }
    forall k | k in ToMap(w) && k in ToMap(values) ensures ToMap(w)[k] == ToMap(values)[k] {
      KeyOf(w, k);
      WithoutValue(values, r, k);
    }
    MapWithout(ToMap(w), ToMap(values), values[r].0);
  }

  lemma KeyOf<K, V>(values: seq<(K, V)>, k: K)
    requires DistinctKeys(Keys(values)) && k in ToMap(values)
    ensures k in Keys(values)
  {
    ToMapAt(values);
  }

  lemma MapWithout<K, V>(a: map<K, V>, b: map<K, V>, gone: K)
    requires (forall k :: k in a <==> k in b && k != gone) && forall k :: k in a && k in b ==> a[k] == b[k]
    ensures a == b - {gone}
  {
  }

  lemma WithoutKey<K, V>(values: seq<(K, V)>, r: nat, k: K)
    requires r < |values| && DistinctKeys(Keys(values))
    ensures k in ToMap(Without(values, r)) <==> k in ToMap(values) && k != values[r].0
  {
    hide ToMap, DistinctKeys, Without;
    WithoutKeys(values, r);
    ToMapAt(values);
    ToMapAt(Without(values, r));
  }

  lemma WithoutValue<K, V>(values: seq<(K, V)>, r: nat, k: K)
    requires r < |values| && DistinctKeys(Keys(values)) && DistinctKeys(Keys(Without(values, r))) && k in Keys(Without(values, r))
    ensures k in ToMap(values) && k in ToMap(Without(values, r)) && ToMap(Without(values, r))[k] == ToMap(values)[k]
  {
    hide ToMap, DistinctKeys, Without;
    var w := Without(values, r);
    ToMapAt(values);
    ToMapAt(w);
    var i: nat :| i < |w| && Keys(w)[i] == k;
    var j := if i == r then |values| - 1 else i;
    assert w[i] == values[j];
  }

  /** A key is stored where some bucket on its probe path says. */
  lemma StoredOnPath<K(!new)>(g: Ring<K>, b: seq<Bucket>, keys: seq<K>, i: nat) returns (p: nat, j: nat)
    requires Shape(g, b, keys) && Linked(b, |keys|) && i < |keys|
    ensures p < g.n && Live(b[p]) && b[p].idx == i && Stands(g, b, keys, p, j)
  {
    assert HasIndex(b, i);
    p :| p < |b| && Live(b[p]) && b[p].idx == i;
    j := Standing(g, b, keys, p);
  }

  /** The key has not been passed by after `j` steps. */
  ghost predicate NotPassed<K(!new)>(g: Ring<K>, b: seq<Bucket>, keys: seq<K>, key: K, j: nat)
    requires Shape(g, b, keys)
  {
    forall p: nat, x: nat :: p < g.n && Live(b[p]) && Stands(g, b, keys, p, x) && keys[b[p].idx] == key ==> x >= j
  }

  lemma NotPassedStart<K(!new)>(g: Ring<K>, b: seq<Bucket>, keys: seq<K>, key: K)
    requires Shape(g, b, keys)
    ensures NotPassed(g, b, keys, key, 0)
  {
  }

  /** A bucket that is not the key's is passed by safely; a bucket richer than the probe is not reached by
      the key's own entry. */
  lemma PassBucket<K(!new)>(g: Ring<K>, b: seq<Bucket>, keys: seq<K>, key: K, j: nat)
    requires Shape(g, b, keys) && NotPassed(g, b, keys, key, j) && j < 2 * g.n
    requires var p := Walk(g.n, g.home(key), j); b[p].daf == Probe(g, key, j) && b[p].idx < |keys| ==> keys[b[p].idx] != key
    ensures NotPassed(g, b, keys, key, j + 1)
  {
    hide BucketOk, OrderAt;
    forall p: nat, x: nat | p < g.n && Live(b[p]) && Stands(g, b, keys, p, x) && keys[b[p].idx] == key ensures x >= j + 1 {
      assert x >= j;
    }
  }

  lemma StopHere<K(!new)>(g: Ring<K>, b: seq<Bucket>, keys: seq<K>, key: K, j: nat)
    requires Shape(g, b, keys) && Linked(b, |keys|) && NotPassed(g, b, keys, key, j) && j < 2 * g.n
    requires b[Walk(g.n, g.home(key), j)].daf < Probe(g, key, j)
    ensures key !in keys
  {
    hide BucketOk, OrderAt;
    if key in keys {
      var i: nat :| i < |keys| && keys[i] == key;
      var p, x := StoredOnPath(g, b, keys, i);
      assert x >= j;
      ProbeBelow(g, b, keys, p, x, j);
      assert false;
    }
  }

  // ---------------------------------------------------------------- homes

  /** 2 to the power `n`. */
  function Pow2(n: nat): (r: nat)
    ensures r > 0
  {
    if n == 0 then 1 else 2 * Pow2(n - 1)
  }

  lemma {:induction false} Pow2Sum(a: nat, b: nat)
    ensures Pow2(a + b) == Pow2(a) * Pow2(b)
    decreases a
  {
    if a > 0 {
      Pow2Sum(a - 1, b);
      assert Pow2(a + b) == 2 * (Pow2(a - 1) * Pow2(b));
    }
  }

  /** The upper bits of the 64-bit hash choose the home bucket, its lowest byte is the fingerprint. */
  ghost function RingOf<K(!new)>(hash: K -> nat, shifts: nat): Ring<K>
    requires shifts <= 64
  {
    Ring(Pow2(64 - shifts), k => Quotient(hash(k), Pow2(shifts)), k => hash(k) % DistInc)
  }

  function Quotient(h: nat, s: nat): nat
    requires s > 0
  {
    DivBounds(h, s);
    h / s
  }

  ghost predicate Hashes<K(!new)>(hash: K -> nat) {
    forall k: K :: hash(k) < Pow2(64)
  }

  lemma RingValid<K(!new)>(hash: K -> nat, shifts: nat)
    requires shifts <= 64 && Hashes(hash)
    ensures RingOf(hash, shifts).Valid()
  {
    Pow2Sum(shifts, 64 - shifts);
    var s, n := Pow2(shifts), Pow2(64 - shifts);
    hide Pow2;
    forall k: K ensures Quotient(hash(k), s) < n {
      HomeBelow(hash(k), s, n);
    }
  }

  lemma HomeBelow(h: nat, s: nat, n: nat)
    requires s > 0 && h < s * n
    ensures Quotient(h, s) < n
  {
    DivBounds(h, s);
    if h / s >= n {
      MulMono(n, h / s, s);
      assert false;
    }
  }

  // ---------------------------------------------------------------- the table

  lemma {:induction false} Pow2Up(a: nat, b: nat)
    requires a < b
    ensures 2 * Pow2(a) <= Pow2(b)
    decreases b - a
  {
    if a + 1 < b {
      Pow2Up(a + 1, b);
    }
  }

  /** 2 to the power 32: an index of a value has 32 bits. */
  const MaxBuckets := 0x1_0000_0000

  lemma MaxBucketsIs()
    ensures MaxBuckets == Pow2(32)
  {
    assert Pow2(8) == 256;
    Pow2Sum(8, 8);
    Pow2Sum(16, 16);
  }

  /** The load factor is the single-precision number nearest to 0.8. Its product with a power of two is
      exact, so the program's conversion back to an integer is this division. */
  function Scaled(n: nat): (r: nat)
    ensures n > 0 ==> r < n
    ensures n >= 8 ==> r > 0
  {
    n * 13421773 / 16777216
  }

  /** Below 2^24 buckets that is four fifths, rounded down. */
  lemma ScaledIs(n: nat)
    requires n < 0x1000000
    ensures Scaled(n) == n * 4 / 5
  {
    var q := n * 4 / 5;
    assert 5 * q <= 4 * n < 5 * q + 5;
    assert q * 16777216 <= n * 13421773 < (q + 1) * 16777216;
  }

  /** How many values a ring of `n` buckets takes before it grows; the greatest ring takes any number. */
  function Capacity(n: nat): nat {
    if n == MaxBuckets then n else Scaled(n)
  }

  lemma ScaledDoubles(n: nat)
    requires n >= 8
    ensures Scaled(n) < Scaled(2 * n)
  {
  }

  /** Growing below the greatest size makes room. */
  lemma CapacityGrows(n: nat)
    requires 8 <= n && 2 * n <= MaxBuckets
    ensures Capacity(n) < Capacity(2 * n) && Capacity(n) < n
  {
    ScaledDoubles(n);
    hide Scaled;
  }

  /** Rings are told apart by their shifts, and only that of 32 has the greatest size. */
  lemma RingSizes(shifts: nat)
    requires 32 <= shifts <= 61
    ensures 8 <= Pow2(64 - shifts) <= MaxBuckets && (Pow2(64 - shifts) == MaxBuckets <==> shifts == 32)
    ensures shifts > 32 ==> Pow2(64 - (shifts - 1)) == 2 * Pow2(64 - shifts) <= MaxBuckets
  {
    MaxBucketsIs();
    assert Pow2(3) == 8;
    if 3 < 64 - shifts {
      Pow2Up(3, 64 - shifts);
    }
    if shifts > 32 {
      Pow2Up(64 - shifts, 32);
      assert 64 - (shifts - 1) == (64 - shifts) + 1;
    }
  }

  class Table<K(==, !new), V(==)> {
    const hash: K -> nat
    var values: seq<(K, V)>
    var buckets: seq<Bucket>
    var maxCapacity: nat
    var shifts: nat

    ghost function G(): Ring<K>
      reads this
      requires shifts <= 64
    {
      RingOf(hash, shifts)
    }

    /** The map the table stands for. */
    ghost function M(): map<K, V>
      reads this
    {
      ToMap(values)
    }

    ghost predicate Valid()
      reads this
    {
      && Hashes(hash) && 32 <= shifts <= 61 && DistinctKeys(Keys(values))
      && if buckets == [] then values == [] && maxCapacity == 0 && shifts == 61
         else Ready(Keys(values)) && |values| <= maxCapacity && maxCapacity == Capacity(|buckets|)
    }

    /** The ring is in order, and holds each of `keys` once, with a bucket to spare. */
    ghost predicate Ready(keys: seq<K>)
      reads this
    {
      && Hashes(hash) && shifts <= 61 && |buckets| == Pow2(64 - shifts)
      && Shape(G(), buckets, keys) && Linked(buckets, |keys|) && |keys| < |buckets|
    }

    /** An empty table has no buckets yet. */
    constructor (hash: K -> nat)
      requires Hashes(hash)
      ensures Valid() && M() == map[]
    {
      this.hash := hash;
      values, buckets, maxCapacity, shifts := [], [], 0, 61;
    }

    function Home(key: K): nat
      reads this
    {
      Quotient(hash(key), Pow2(shifts))
    }

    lemma HomeIs(key: K)
      requires Hashes(hash) && shifts <= 61
      ensures G().Valid() && G().n == Pow2(64 - shifts)
      ensures Home(key) == G().home(key) < G().n && hash(key) % DistInc == G().fp(key)
    {
      RingValid(hash, shifts);
    }

    lemma AtLeastEight()
      requires shifts <= 61
      ensures Pow2(64 - shifts) >= 8
    {
      assert Pow2(3) == 8;
      Pow2Sum(61 - shifts, 3);
    }

    lemma LiveIndex(keys: seq<K>)
      requires Ready(keys)
      ensures forall p: nat :: p < |buckets| && Live(buckets[p]) ==> buckets[p].idx < |keys|
    {
    }

    lemma EmptyAhead(keys: seq<K>, key: K) returns (e: nat)
      requires Ready(keys)
      ensures Home(key) < |buckets| && e < |buckets| && buckets[Walk(|buckets|, Home(key), e)].daf == 0
    {
      hide Shape;
      HomeIs(key);
      RoomLeft(buckets, |keys|);
      var p: nat :| p < |buckets| && buckets[p].daf == 0;
      e := Steps(|buckets|, Home(key), p);
    }

    // -------------------------------------------------------------- lookup

    /** do_find, with its first two probes unrolled: these do not even look whether to stop. */
    method Find(key: K) returns (found: Option<nat>)
      requires Valid()
      ensures found.Some? <==> key in M()
      ensures found.Some? ==> found.value < |values| && values[found.value].0 == key && M()[key] == values[found.value].1
    {
      hide Shape, Linked, DistinctKeys, ToMap, NotPassed, Pow2;
      ToMapAt(values);
      if values == [] {
        return None;
      }
      ghost var keys := Keys(values);
      HomeIs(key);
      var e := EmptyAhead(keys, key);
      NotPassedStart(G(), buckets, keys, key);
      LiveIndex(keys);
      AtLeastEight();
      var n := |buckets|;
      var daf := DistInc + hash(key) % DistInc;
      var p := Home(key);
      ghost var j := 0;
      if daf == buckets[p].daf && values[buckets[p].idx].0 == key {
        return Some(buckets[p].idx);
      }
      PassBucket(G(), buckets, keys, key, 0);
      WalkNext(n, Home(key), 0);
      daf, p := daf + DistInc, Next(n, p);
      if daf == buckets[p].daf && values[buckets[p].idx].0 == key {
        return Some(buckets[p].idx);
      }
      PassBucket(G(), buckets, keys, key, 1);
      WalkNext(n, Home(key), 1);
      daf, p := daf + DistInc, Next(n, p);
      j := 2;
      ghost var stop := if e >= 2 then e else e + n;
      while true
        invariant 2 <= j <= stop <= n + 1 && p == Walk(n, Home(key), j) && daf == Probe(G(), key, j)
        invariant NotPassed(G(), buckets, keys, key, j)
        decreases stop - j
      {
        if daf == buckets[p].daf {
          if values[buckets[p].idx].0 == key {
            return Some(buckets[p].idx);
          }
        } else if daf > buckets[p].daf {
          StopHere(G(), buckets, keys, key, j);
          return None;
        }
        PassBucket(G(), buckets, keys, key, j);
        WalkNext(n, Home(key), j);
        daf, p := daf + DistInc, Next(n, p);
        j := j + 1;
      }
    }

    // -------------------------------------------------------------- placing

    /** next_while_less: the first bucket that is not poorer than the probe. */
    method NextWhileLess(key: K, ghost keys: seq<K>) returns (daf: nat, p: nat, ghost j: nat)
      requires Ready(keys)
      ensures G().Valid() && j < |buckets| && Home(key) < |buckets| && p == Walk(|buckets|, Home(key), j) && daf == Probe(G(), key, j)
      ensures Place(G(), buckets, key, j) && NotPassed(G(), buckets, keys, key, j)
      ensures forall x: nat :: x < j ==> Live(buckets[Walk(|buckets|, Home(key), x)])
    {
      hide Shape, Linked, NotPassed, Pow2;
      HomeIs(key);
      ghost var e := EmptyAhead(keys, key);
      NotPassedStart(G(), buckets, keys, key);
      var n := |buckets|;
      daf, p := DistInc + hash(key) % DistInc, Home(key);
      j := 0;
      while daf < buckets[p].daf
        invariant j <= e && p == Walk(n, Home(key), j) && daf == Probe(G(), key, j)
        invariant NotPassed(G(), buckets, keys, key, j)
        invariant j > 0 ==> buckets[Walk(n, Home(key), j - 1)].daf >= Probe(G(), key, j - 1)
        invariant forall x: nat :: x < j ==> Live(buckets[Walk(n, Home(key), x)])
        decreases e - j
      {
        PassBucket(G(), buckets, keys, key, j);
        WalkNext(n, Home(key), j);
        daf, p := daf + DistInc, Next(n, p);
        j := j + 1;
      }
    }

    /** place_and_shift_up. */
    method PlaceAndShiftUp(first: Bucket, place: nat) returns (ghost m: nat)
      requires place < |buckets| && HasEmpty(buckets)
      modifies this`buckets
      ensures ShiftedUp(old(buckets), buckets, place, m, first)
    {
      hide Walk;
      var n := |buckets|;
      ghost var b := buckets;
      ghost var empty: nat :| empty < n && b[empty].daf == 0;
      ghost var e := Steps(n, place, empty);
      var hand, p := first, place;
      m := 0;
      WalkStart(n, place);
      while buckets[p].daf != 0
        invariant |buckets| == n && m <= e < n && p == Walk(n, place, m)
        invariant forall x: nat :: x < m ==> Live(b[Walk(n, place, x)])
        invariant forall x: nat :: x < n ==> buckets[Walk(n, place, x)] == if x < m then UpAt(b, place, m, first, x) else b[Walk(n, place, x)]
        invariant hand == UpAt(b, place, m, first, m)
        decreases e - m
      {
        assert buckets[p] == b[p];
        forall x: nat | x < n && x != m ensures Walk(n, place, x) != p {
          WalkApart(n, place, x, m);
        }
        var moved := buckets[p];
        buckets := buckets[p := hand];
        hand := Up(moved);
        WalkNext(n, place, m);
        p := Next(n, p);
        m := m + 1;
      }
      forall x: nat | x < n && x != m ensures Walk(n, place, x) != p {
        WalkApart(n, place, x, m);
      }
      buckets := buckets[p := hand];
    }

    /** clear_and_fill_buckets_from_values: every value is placed anew. */
    method Fill()
      requires Hashes(hash) && shifts <= 61 && |buckets| == Pow2(64 - shifts) && |values| < |buckets|
      modifies this`buckets
      ensures |buckets| == |old(buckets)| && Ready(Keys(values))
    {
      hide Shape, Linked, Pow2, ShiftedUp, Place;
      ghost var keys := Keys(values);
      buckets := seq(|buckets|, i => Empty);
      NothingPlaced();
      var i := 0;
      while i < |values|
        invariant 0 <= i <= |values| && |buckets| == |old(buckets)| && Ready(keys[..i])
      {
        var key := values[i].0;
        assert keys[..i + 1] == keys[..i] + [key];
        HomeIs(key);
        RoomLeft(buckets, i);
        var daf, p;
        ghost var j;
        daf, p, j := NextWhileLess(key, keys[..i]);
        ghost var b := buckets;
        ghost var m := PlaceAndShiftUp(Bucket(daf, i), p);
        UpSize(b, buckets, p, m, Bucket(daf, i));
        UpShape(G(), b, keys[..i], buckets, p, m, Bucket(daf, i), key, j);
        UpLinked(b, buckets, p, m, Bucket(daf, i), i);
        i := i + 1;
      }
      assert keys[..i] == keys;
    }

    lemma UpSize(b: seq<Bucket>, b': seq<Bucket>, q: nat, m: nat, first: Bucket)
      requires ShiftedUp(b, b', q, m, first)
      ensures |b'| == |b|
    {
    }

    lemma NothingPlaced()
      requires Hashes(hash) && shifts <= 61 && |buckets| == Pow2(64 - shifts) && forall p: nat :: p < |buckets| ==> buckets[p] == Empty
      ensures Ready([])
    {
      RingValid(hash, shifts);
    }

    /** increase_size: twice the buckets, unless there can be no more; the first growth takes 16. */
    method IncreaseSize() returns (ok: bool)
      requires Valid()
      modifies this`buckets, this`maxCapacity, this`shifts
      ensures Valid() && ok == (old(shifts) != 32)
      ensures ok ==> buckets != [] && |values| < maxCapacity && shifts == old(shifts) - 1
      ensures !ok ==> unchanged(this)
    {
      hide Shape, Linked, DistinctKeys, Pow2, Scaled;
      RingSizes(shifts);
      if maxCapacity == MaxBuckets {
        return false;
      }
      CapacityGrows(Pow2(64 - shifts));
      shifts := shifts - 1;
      RingSizes(shifts);
      var n := Pow2(64 - shifts);
      buckets := seq(n, i => Empty);
      maxCapacity := Capacity(n);
      Fill();
      return true;
    }

    // -------------------------------------------------------------- insertion

    /** do_try_emplace: an existing value is left alone. The table grows exactly when it is full. */
    method TryEmplace(key: K, value: V) returns (at: nat, inserted: bool)
      requires Valid() && |values| + 1 < MaxBuckets
      modifies this
      ensures Valid() && inserted == (key !in old(M()))
      ensures shifts == old(shifts) - if old(|values| >= maxCapacity) then 1 else 0
      ensures M() == if inserted then old(M())[key := value] else old(M())
      ensures at < |values| && values[at].0 == key && values == if inserted then old(values) + [(key, value)] else old(values)
    {
      hide Valid, ToMap;
      if |values| >= maxCapacity {
        FullCanGrow();
        var ok := IncreaseSize();
        assert ok;
      } else {
        NotFull();
      }
      at, inserted := Emplace(key, value);
    }

    lemma NotFull()
      requires Valid() && |values| < maxCapacity
      ensures buckets != []
    {
    }

    /** The probe of do_try_emplace, with room for one more value. */
    method Emplace(key: K, value: V) returns (at: nat, inserted: bool)
      requires Valid() && buckets != [] && |values| < maxCapacity && |values| + 1 < MaxBuckets
      modifies this`values, this`buckets
      ensures Valid() && inserted == (key !in old(M()))
      ensures M() == if inserted then old(M())[key := value] else old(M())
      ensures at < |values| && values[at].0 == key && values == if inserted then old(values) + [(key, value)] else old(values)
    {
      hide Shape, Linked, DistinctKeys, ToMap, NotPassed, Pow2, Place, Walk, Scaled;
      ToMapAt(values);
      ghost var keys := Keys(values);
      HomeIs(key);
      LiveIndex(keys);
      ghost var e := EmptyAhead(keys, key);
      NotPassedStart(G(), buckets, keys, key);
      var n := |buckets|;
      WalkStart(n, Home(key));
      var daf, p := DistInc + hash(key) % DistInc, Home(key);
      ghost var j := 0;
      label ready:
      while true
        invariant unchanged@ready(this)
        invariant j <= e && p == Walk(n, Home(key), j) && daf == Probe(G(), key, j)
        invariant NotPassed(G(), buckets, keys, key, j)
        invariant j > 0 ==> buckets[Walk(n, Home(key), j - 1)].daf >= Probe(G(), key, j - 1)
        decreases e - j
      {
        if daf == buckets[p].daf {
          if values[buckets[p].idx].0 == key {
            return buckets[p].idx, false;
          }
        } else if daf > buckets[p].daf {
          StopHere(G(), buckets, keys, key, j);
          PlaceHere(key, j);
          PlaceElement(daf, p, key, value, j);
          return |values| - 1, true;
        }
        PassBucket(G(), buckets, keys, key, j);
        WalkNext(n, Home(key), j);
        daf, p := daf + DistInc, Next(n, p);
        j := j + 1;
      }
    }

    /** A full table that has a bucket to spare is not of the greatest size. */
    lemma FullCanGrow()
      requires Valid() && maxCapacity <= |values| && |values| + 1 < MaxBuckets
      ensures shifts > 32
    {
      hide Scaled, Pow2;
      RingSizes(shifts);
    }

    lemma PlaceHere(key: K, j: nat)
      requires shifts <= 61 && Hashes(hash) && |buckets| == Pow2(64 - shifts) && j < |buckets| && Home(key) < |buckets| && G().Valid()
      requires buckets[Walk(|buckets|, Home(key), j)].daf <= Probe(G(), key, j)
      requires j > 0 ==> buckets[Walk(|buckets|, Home(key), j - 1)].daf >= Probe(G(), key, j - 1)
      ensures Place(G(), buckets, key, j)
    {
      hide Pow2;
    }

    /** do_place_element. */
    method PlaceElement(daf: nat, p: nat, key: K, value: V, ghost j: nat)
      requires Valid() && buckets != [] && |values| < maxCapacity && |values| + 1 < MaxBuckets && key !in Keys(values) && G().Valid()
      requires p < |buckets| && Place(G(), buckets, key, j) && daf == Probe(G(), key, j) && Walk(G().n, G().home(key), j) == p
      modifies this`values, this`buckets
      ensures Valid() && values == old(values) + [(key, value)] && M() == old(M())[key := value]
    {
      hide Shape, Linked, Pow2, ShiftedUp, Place, Scaled;
      ghost var b, keys := buckets, Keys(values);
      RoomLeft(buckets, |values|);
      RingSizes(shifts);
      values := values + [(key, value)];
      assert values[..|values| - 1] == old(values);
      assert Keys(values) == keys + [key];
      var m := PlaceAndShiftUp(Bucket(daf, |values| - 1), p);
      UpSize(b, buckets, p, m, Bucket(daf, |values| - 1));
      UpShape(G(), b, keys, buckets, p, m, Bucket(daf, |values| - 1), key, j);
      UpLinked(b, buckets, p, m, Bucket(daf, |values| - 1), |keys|);
    }

    // -------------------------------------------------------------- erasure

    /** do_erase_key: the number of entries erased. */
    method Erase(key: K) returns (count: nat)
      requires Valid()
      modifies this`values, this`buckets
      ensures Valid() && M() == old(M()) - {key} && count == if key in old(M()) then 1 else 0
    {
      hide Shape, Linked, DistinctKeys, ToMap, NotPassed, Pow2, Place;
      ToMapAt(values);
      if values == [] {
        NoSuchKey(M(), key);
        return 0;
      }
      ghost var keys := Keys(values);
      HomeIs(key);
      LiveIndex(keys);
      ghost var e := EmptyAhead(keys, key);
      var n := |buckets|;
      var daf, p;
      ghost var j;
      daf, p, j := NextWhileLess(key, keys);
      EqualOrAbsent(keys, key, j);
      assert j <= e;
      label ready:
      while daf == buckets[p].daf && values[buckets[p].idx].0 != key
        invariant unchanged@ready(this)
        invariant j <= e && p == Walk(n, Home(key), j) && daf == Probe(G(), key, j)
        invariant NotPassed(G(), buckets, keys, key, j)
        invariant key in keys ==> buckets[p].daf == daf
        decreases e - j
      {
        PassBucket(G(), buckets, keys, key, j);
        StillEqual(keys, key, j);
        WalkNext(n, Home(key), j);
        daf, p := daf + DistInc, Next(n, p);
        j := j + 1;
      }
      if daf != buckets[p].daf {
        NoSuchKey(M(), key);
        return 0;
      }
      DoErase(p);
      return 1;
    }

    lemma EqualOrAbsent(keys: seq<K>, key: K, j: nat)
      requires Ready(keys) && G().Valid() && Place(G(), buckets, key, j) && NotPassed(G(), buckets, keys, key, j)
      ensures Home(key) < |buckets| && j < |buckets|
      ensures key in keys ==> buckets[Walk(|buckets|, Home(key), j)].daf == Probe(G(), key, j)
    {
      hide Shape, Linked, Pow2, NotPassed;
      HomeIs(key);
      if buckets[Walk(|buckets|, Home(key), j)].daf < Probe(G(), key, j) {
        StopHere(G(), buckets, keys, key, j);
      }
    }

    static lemma NoSuchKey(m: map<K, V>, key: K)
      requires key !in m
      ensures m - {key} == m
    {
    }

    lemma StillEqual(keys: seq<K>, key: K, j: nat)
      requires Ready(keys) && Home(key) < |buckets| && j + 1 < 2 * |buckets| && NotPassed(G(), buckets, keys, key, j + 1)
      requires buckets[Walk(|buckets|, Home(key), j)].daf == Probe(G(), key, j)
      ensures key in keys ==> buckets[Walk(|buckets|, Home(key), j + 1)].daf == Probe(G(), key, j + 1)
    {
      hide Pow2, BucketOk, OrderAt;
      HomeIs(key);
      if key in keys {
        var i: nat :| i < |keys| && keys[i] == key;
        var p, x := StoredOnPath(G(), buckets, keys, i);
        assert x >= j + 1;
        ProbeEqual(G(), buckets, keys, p, x, j);
      }
    }

    /** The entries behind the erased one move back to close the gap. */
    method ShiftDown(q: nat) returns (ghost m: nat)
      requires q < |buckets| && Live(buckets[q]) && HasEmpty(buckets)
      modifies this`buckets
      ensures ShiftedDown(old(buckets), buckets, q, m)
    {
      hide Walk, Down;
      var n := |buckets|;
      ghost var b := buckets;
      ghost var empty: nat :| empty < n && b[empty].daf == 0;
      ghost var e := Steps(n, q, empty);
      WalkStart(n, q);
      assert e > 0;
      var p := q;
      m := 0;
      WalkNext(n, q, 0);
      var next := Next(n, p);
      while buckets[next].daf >= 2 * DistInc
        invariant |buckets| == n && m < e && p == Walk(n, q, m) && next == Walk(n, q, m + 1)
        invariant forall x: nat :: 0 < x <= m ==> b[Walk(n, q, x)].daf >= 2 * DistInc
        invariant forall x: nat :: x < n ==> buckets[Walk(n, q, x)] == DownSoFar(b, q, m, x)
        decreases e - m
      {
        assert buckets[Walk(n, q, m + 1)] == b[Walk(n, q, m + 1)];
        forall x: nat | x < n && x != m ensures Walk(n, q, x) != p {
          WalkApart(n, q, x, m);
        }
        buckets := buckets[p := Down(buckets[next])];
        WalkNext(n, q, m + 1);
        p := next;
        next := Next(n, next);
        m := m + 1;
      }
      forall x: nat | x < n && x != m ensures Walk(n, q, x) != p {
        WalkApart(n, q, x, m);
      }
      assert buckets[Walk(n, q, m + 1)] == b[Walk(n, q, m + 1)];
      buckets := buckets[p := Empty];
    }

    /** do_erase, for the bucket of an entry. */
    method DoErase(p: nat)
      requires Valid() && p < |buckets| && Live(buckets[p]) && buckets[p].idx < |values|
      modifies this`values, this`buckets
      ensures Valid() && M() == old(M()) - {old(values[buckets[p].idx].0)} && values == Without(old(values), old(buckets[p].idx))
    {
      hide Shape, Linked, Pow2, DistinctKeys, ToMap, ShiftedDown, LinkedBut, Without;
      var gone := buckets[p].idx;
      ghost var b, keys := buckets, Keys(values);
      RoomLeft(buckets, |values|);
      WithoutKeys(values, gone);
      WithoutMap(values, gone);
      var m := ShiftDown(p);
      DownSize(b, buckets, p, m);
      DownShape(G(), b, keys, buckets, p, m);
      DownLinked(b, buckets, p, m, |keys|);
      WithoutIs(values, gone);
      if gone != |values| - 1 {
        values := values[gone := values[|values| - 1]];
        FixIndex(values[gone].0, gone, keys);
        values := values[..|values| - 1];
      } else {
        DropLast(G(), buckets, keys);
        values := values[..|values| - 1];
      }
    }

    lemma DownSize(b: seq<Bucket>, b': seq<Bucket>, q: nat, m: nat)
      requires ShiftedDown(b, b', q, m)
      ensures |b'| == |b|
    {
    }

    lemma WithoutIs(values: seq<(K, V)>, r: nat)
      requires r < |values|
      ensures Without(values, r) == values[r := values[|values| - 1]][..|values| - 1]
      ensures Keys(Without(values, r)) == Keys(values)[r := Keys(values)[|values| - 1]][..|values| - 1]
      ensures r == |values| - 1 ==> Without(values, r) == values[..|values| - 1] && Keys(values)[..|values| - 1] == Keys(Without(values, r))
    {
    }

    /** The bucket of the moved value is looked for from its home on. */
    method FixIndex(key: K, gone: nat, ghost keys: seq<K>)
      requires Hashes(hash) && shifts <= 61 && |buckets| == Pow2(64 - shifts) && |keys| == |values| && |keys| < |buckets|
      requires Shape(G(), buckets, keys) && LinkedBut(buckets, |keys|, gone) && gone + 1 < |keys| && key == keys[|keys| - 1]
      modifies this`buckets
      ensures |buckets| == |old(buckets)|
      ensures Shape(G(), buckets, keys[gone := keys[|keys| - 1]][..|keys| - 1]) && Linked(buckets, |keys| - 1)
    {
      hide Shape, Linked, LinkedBut, Pow2, Walk;
      ShapeSize(keys);
      WalkStart(|buckets|, Home(key));
      HomeIs(key);
      var last := |values| - 1;
      var n := |buckets|;
      ghost var target, x := LastOnPath(gone, keys);
      var p := Home(key);
      ghost var j := 0;
      label ready:
      while buckets[p].idx != last
        invariant unchanged@ready(this)
        invariant j <= x && p == Walk(n, Home(key), j)
        decreases x - j
      {
        WalkNext(n, Home(key), j);
        p := Next(n, p);
        j := j + 1;
      }
      LastIsLive(keys, p);
      MoveLast(G(), buckets, keys, gone, p);
      buckets := buckets[p := buckets[p].(idx := gone)];
    }

    lemma ShapeSize(keys: seq<K>)
      requires Hashes(hash) && shifts <= 61 && Shape(G(), buckets, keys) && keys != []
      ensures |buckets| == G().n == Pow2(64 - shifts) && Home(keys[|keys| - 1]) < |buckets|
    {
      hide Pow2;
      HomeIs(keys[|keys| - 1]);
    }

    lemma LastOnPath(gone: nat, keys: seq<K>) returns (p: nat, x: nat)
      requires Hashes(hash) && shifts <= 61 && |buckets| == Pow2(64 - shifts)
      requires Shape(G(), buckets, keys) && LinkedBut(buckets, |keys|, gone) && gone + 1 < |keys|
      ensures Home(keys[|keys| - 1]) < |buckets| && x < |buckets| && p == Walk(|buckets|, Home(keys[|keys| - 1]), x) && buckets[p].idx == |keys| - 1
    {
      hide Pow2;
      HomeIs(keys[|keys| - 1]);
      assert HasIndex(buckets, |keys| - 1);
      p :| p < |buckets| && Live(buckets[p]) && buckets[p].idx == |keys| - 1;
      x := Standing(G(), buckets, keys, p);
    }

    /** An empty bucket has index 0, which is not that of the last of two or more values. */
    lemma LastIsLive(keys: seq<K>, p: nat)
      requires shifts <= 61 && Shape(G(), buckets, keys) && p < |buckets| && buckets[p].idx == |keys| - 1 && |keys| > 1
      ensures Live(buckets[p])
    {
      hide Pow2;
      assert BucketOk(G(), buckets, keys, p);
    }

    /** The ring has fewer than 2^24 buckets: at most 2^23. */
    predicate Small()
      reads this
    {
      shifts >= 41
    }

    /** Distance and fingerprint of every bucket fit their 32 bits. */
    ghost predicate DistancesFit()
      reads this
    {
      forall p: nat :: p < |buckets| ==> buckets[p].daf < 0x1_0000_0000
    }

    /** In a small ring no distance outgrows its 24 bits. */
    lemma SmallFits()
      requires Valid() && Small()
      ensures |buckets| <= 0x80_0000 && DistancesFit()
    {
      hide Linked, DistinctKeys, Pow2, OrderAt;
      SmallSize(shifts);
      if buckets != [] {
        var keys := Keys(values);
        forall p: nat | p < |buckets| ensures buckets[p].daf < 0x1_0000_0000 {
          if Live(buckets[p]) {
            var j := Standing(G(), buckets, keys, p);
            ProbeFits(G(), keys[buckets[p].idx], j);
          }
        }
      }
    }

    /** A small ring that holds less than its capacity at the greatest such size stays small. */
    lemma StaysSmall()
      requires Valid() && Small() && |values| < Capacity(0x80_0000)
      ensures shifts - (if |values| >= maxCapacity then 1 else 0) >= 41
    {
      hide Shape, Linked, DistinctKeys, Pow2, Capacity;
      SmallSize(shifts);
    }

    lemma SizeOfMap()
      requires Valid()
      ensures |M()| == |values|
    {
      MapSize(values);
    }
  }

  // ---------------------------------------------------------------- distances

  lemma SmallSize(shifts: nat)
    requires 41 <= shifts <= 61
    ensures Pow2(64 - shifts) <= 0x80_0000 && (shifts == 41 ==> Pow2(64 - shifts) == 0x80_0000)
  {
    assert Pow2(7) == 128;
    Pow2Sum(8, 8);
    Pow2Sum(16, 7);
    assert Pow2(8) == 256;
    if shifts > 41 {
      Pow2Up(64 - shifts, 23);
    }
  }

  /** Neither a stored distance nor a probe on its way, which goes at most one step beyond a full round,
      outgrows 32 bits with its fingerprint. */
  lemma ProbeFits<K(!new)>(g: Ring<K>, key: K, j: nat)
    requires g.Valid() && g.n <= 0x80_0000 && j <= g.n + 1
    ensures Probe(g, key, j) < 0x1_0000_0000
  {
  }

  // ---------------------------------------------------------------- runs

  lemma {:induction false} MapSize<K, V>(values: seq<(K, V)>)
    requires DistinctKeys(Keys(values))
    ensures |ToMap(values)| == |values|
    decreases |values|
  {
    if values != [] {
      var n := |values| - 1;
      var init := values[..n];
      assert Keys(init) == Keys(values)[..n];
      MapSize(init);
      ToMapAt(init);
      assert values[n].0 !in Keys(init) by {
        assert Keys(values)[n] == values[n].0;
      }
      assert ToMap(values).Keys == ToMap(init).Keys + {values[n].0};
    }
  }

  datatype Change<K, V> = Insert(key: K, value: V) | Remove(key: K)

  /** What a change does to a mathematical map; an existing binding is left alone. */
  ghost function Changed<K, V>(m: map<K, V>, change: Change<K, V>): map<K, V> {
    match change
    case Insert(key, value) => if key in m then m else m[key := value]
    case Remove(key) => m - {key}
  }

  ghost function AllChanged<K, V>(m: map<K, V>, changes: seq<Change<K, V>>): map<K, V> {
    if changes == [] then m
    else Changed(AllChanged(m, changes[..|changes| - 1]), changes[|changes| - 1])
  }

  /** On the way through the changes the map keeps below a size. */
  ghost predicate KeepsBelow<K, V>(m: map<K, V>, changes: seq<Change<K, V>>, bound: nat) {
    forall n: nat :: n < |changes| ==> |AllChanged(m, changes[..n])| < bound
  }

  method MakeChange<K(==, !new), V(==)>(table: Table<K, V>, change: Change<K, V>)
    requires table.Valid() && |table.M()| < MaxBuckets - 1
    modifies table
    ensures table.Valid() && table.M() == Changed(old(table.M()), change)
    ensures old(table.Small()) && |old(table.M())| < Capacity(0x80_0000) ==> table.Small()
  {
    hide Table.Valid, Table.M, Capacity;
    table.SizeOfMap();
    if table.Small() && |table.M()| < Capacity(0x80_0000) {
      table.StaysSmall();
    }
    match change {
      case Insert(key, value) =>
        var at, inserted := table.TryEmplace(key, value);
      case Remove(key) =>
        var count := table.Erase(key);
    }
  }

  lemma NoChange<K, V>(m: map<K, V>, changes: seq<Change<K, V>>)
    ensures AllChanged(m, changes[..0]) == m
  {
  }

  lemma NextChange<K, V>(m: map<K, V>, changes: seq<Change<K, V>>, n: nat)
    requires n < |changes|
    ensures AllChanged(m, changes[..n + 1]) == Changed(AllChanged(m, changes[..n]), changes[n])
  {
    hide Changed;
    assert changes[..n + 1][..n] == changes[..n];
  }

  lemma BelowAt<K, V>(m: map<K, V>, changes: seq<Change<K, V>>, bound: nat, n: nat)
    requires KeepsBelow(m, changes, bound) && n < |changes|
    ensures |AllChanged(m, changes[..n])| < bound
  {
  }

  /** Through any inserts, erases and growths the table stays the mathematical map, as long as that map
      leaves one of the 2^32 possible buckets empty. While the map stays below the capacity of 2^23 buckets,
      the ring stays small, and no distance outgrows its field. */
  method MakeChanges<K(==, !new), V(==)>(table: Table<K, V>, changes: seq<Change<K, V>>)
    requires table.Valid() && KeepsBelow(table.M(), changes, MaxBuckets - 1)
    modifies table
    ensures table.Valid() && table.M() == AllChanged(old(table.M()), changes)
    ensures old(table.Small()) && KeepsBelow(old(table.M()), changes, Capacity(0x80_0000)) ==> table.Small() && table.DistancesFit()
  {
    hide Table.Valid, Table.M, Capacity, Table.Small, Table.DistancesFit, KeepsBelow, AllChanged, Changed;
    ghost var m := table.M();
    ghost var small := table.Small() && KeepsBelow(m, changes, Capacity(0x80_0000));
    NoChange(m, changes);
    var n := 0;
    while n < |changes|
      invariant 0 <= n <= |changes| && table.Valid() && table.M() == AllChanged(m, changes[..n])
      invariant small ==> table.Small()
    {
      NextChange(m, changes, n);
      BelowAt(m, changes, MaxBuckets - 1, n);
      if small {
        BelowAt(m, changes, Capacity(0x80_0000), n);
      }
      MakeChange(table, changes[n]);
      n := n + 1;
    }
    assert changes[..n] == changes;
    if small {
      table.SmallFits();
    }
  }

  /** A new table goes through any such run, and a lookup afterwards is one in the map. */
  method BuildAndFind<K(==, !new), V(==)>(hash: K -> nat, changes: seq<Change<K, V>>, key: K) returns (value: Option<V>)
    requires Hashes(hash) && KeepsBelow(map[], changes, MaxBuckets - 1)
    ensures value == var m := AllChanged(map[], changes); if key in m then Some(m[key]) else None
  {
    var table := new Table(hash);
    MakeChanges(table, changes);
    var found := table.Find(key);
    value := if found.Some? then Some(table.values[found.value].1) else None;
  }
}
