/** The caching allocator of memory/src/cuda_alloc.cpp on one device. Device memory is abstract: an
    allocation there gives an address not held at the time, or fails. */
module CachingAllocator {
  import opened Common

  const SmallLimit := 1024 * 1024
  const PurgeLimit := 1024 * 1024 * 1024

  datatype Buffer = Buffer(data: nat, size: nat, busy: bool)

  /** `known` says whether the device has an entry in the map of small pools. */
  datatype Pools = Pools(small: seq<Buffer>, big: seq<Buffer>, known: bool, idleBytes: int)

  /** What a run has seen besides: the addresses held on the device and those lent out. */
  datatype World = World(pools: Pools, held: set<nat>, lent: set<nat>)

  // ---------------------------------------------------------------- the pools

  function IdleBytes(buffers: seq<Buffer>): nat {
    if buffers == [] then 0
    else IdleBytes(buffers[..|buffers| - 1]) + if buffers[|buffers| - 1].busy then 0 else buffers[|buffers| - 1].size
  }

  predicate FitsBig(b: Buffer, size: nat) {
    b.size >= size && !b.busy && b.size - size < SmallLimit
  }

  /** The smallest idle large buffer that wastes less than the limit; the first of equal ones. */
  function BestBig(buffers: seq<Buffer>, size: nat, n: nat): (r: Option<nat>)
    requires n <= |buffers|
    ensures r.Some? ==> r.value < n && FitsBig(buffers[r.value], size)
    ensures r.Some? ==> forall j: nat :: j < n && FitsBig(buffers[j], size) ==> buffers[r.value].size <= buffers[j].size
    ensures r.None? ==> forall j: nat :: j < n ==> !FitsBig(buffers[j], size)
  {
    if n == 0 then None
    else
      var best := BestBig(buffers, size, n - 1);
      if FitsBig(buffers[n - 1], size) && (best.None? || buffers[best.value].size > buffers[n - 1].size) then Some(n - 1) else best
  }

  /** The first idle small buffer that is large enough, from `i` on. */
  function FirstSmall(buffers: seq<Buffer>, size: nat, i: nat): (r: Option<nat>)
    requires i <= |buffers|
    ensures r.Some? ==> i <= r.value < |buffers| && !buffers[r.value].busy && buffers[r.value].size >= size
    ensures forall j: nat :: i <= j < (if r.Some? then r.value else |buffers|) ==> buffers[j].busy || buffers[j].size < size
    decreases |buffers| - i
  {
    if i == |buffers| then None
    else if buffers[i].size >= size && !buffers[i].busy then Some(i)
    else FirstSmall(buffers, size, i + 1)
  }

  /** allocate; `offer` is what the device would answer if asked. */
  function Allocated(p: Pools, size: nat, offer: Option<nat>): (Option<nat>, Pools) {
    if size > SmallLimit then
      match BestBig(p.big, size, |p.big|)
      case Some(i) => (Some(p.big[i].data), p.(big := p.big[i := p.big[i].(busy := true)]))
      case None =>
        if offer.None? then (None, p)
        else (offer, p.(big := p.big + [Buffer(offer.value, size, true)]))
    else
      match FirstSmall(p.small, size, 0)
      case Some(i) =>
        (Some(p.small[i].data), p.(small := p.small[i := p.small[i].(busy := true)], idleBytes := p.idleBytes - p.small[i].size, known := true))
      case None =>
        if offer.None? then (None, p.(known := true))
        else (offer, p.(small := p.small + [Buffer(offer.value, size, true)], known := true))
  }

  /** Did the call ask the device? */
  predicate Asks(p: Pools, size: nat) {
    if size > SmallLimit then BestBig(p.big, size, |p.big|).None? else FirstSmall(p.small, size, 0).None?
  }

  function Busy(buffers: seq<Buffer>): seq<Buffer> {
    if buffers == [] then []
    else Busy(buffers[..|buffers| - 1]) + if buffers[|buffers| - 1].busy then [buffers[|buffers| - 1]] else []
  }

  function Addresses(buffers: seq<Buffer>): set<nat> {
    set b | b in buffers :: b.data
  }

  /** The purge at the start of release: past the limit, all idle small buffers go back to the device. */
  function Purged(p: Pools): Pools {
    if p.idleBytes > PurgeLimit then p.(small := Busy(p.small), idleBytes := 0) else p
  }

  function IndexOf(buffers: seq<Buffer>, ptr: nat, i: nat): (r: Option<nat>)
    requires i <= |buffers|
    ensures r.Some? ==> i <= r.value < |buffers| && buffers[r.value].data == ptr
    ensures r.None? ==> forall j: nat :: i <= j < |buffers| ==> buffers[j].data != ptr
    decreases |buffers| - i
  {
    if i == |buffers| then None else if buffers[i].data == ptr then Some(i) else IndexOf(buffers, ptr, i + 1)
  }

  /** release of an address that is not null: the pools afterwards, and whether the address itself was
      given back to the device because no pool knows it. */
  function Released(p: Pools, ptr: nat): (Pools, bool) {
    if !p.known then (p, false)
    else
      var q := Purged(p);
      match IndexOf(q.small, ptr, 0)
      case Some(i) => (q.(small := q.small[i := q.small[i].(busy := false)], idleBytes := q.idleBytes + q.small[i].size), false)
      case None =>
        match IndexOf(q.big, ptr, 0)
        case Some(i) => (q.(big := q.big[i := q.big[i].(busy := false)]), false)
        case None => (q, true)
  }

  // ---------------------------------------------------------------- runs

  datatype Event = Allocate(size: nat, offer: Option<nat>) | Release(ptr: nat)

  /** What an event does to the device and to the owners. */
  function Step(w: World, event: Event): World {
    match event
    case Allocate(size, offer) =>
      var (ptr, pools) := Allocated(w.pools, size, offer);
      World(pools, if Asks(w.pools, size) && offer.Some? then w.held + {offer.value} else w.held,
            if ptr.Some? then w.lent + {ptr.value} else w.lent)
    case Release(ptr) =>
      var (pools, freed) := Released(w.pools, ptr);
      World(pools, w.held - (Addresses(w.pools.small) - Addresses(pools.small)) - (if freed then {ptr} else {}), w.lent - {ptr})
  }

  /** The device never hands out an address twice, and only lent addresses are given back. */
  predicate Proper(w: World, event: Event) {
    match event
    case Allocate(size, offer) => offer.Some? ==> offer.value !in w.held
    case Release(ptr) => ptr in w.lent
  }

  ghost predicate DistinctData(buffers: seq<Buffer>) {
    forall a: nat, b: nat :: a < b < |buffers| ==> buffers[a].data != buffers[b].data
  }

  ghost predicate HasBusy(buffers: seq<Buffer>, ptr: nat) {
    exists i: nat :: i < |buffers| && buffers[i].data == ptr && buffers[i].busy
  }

  /** Every buffer is held on the device, no two have the same address, every lent address is that of a
      busy buffer, and the counter is the idle bytes of the small pool. */
  ghost predicate Ok(w: World) {
    && DistinctData(w.pools.small) && DistinctData(w.pools.big)
    && (forall i: nat, j: nat :: i < |w.pools.small| && j < |w.pools.big| ==> w.pools.small[i].data != w.pools.big[j].data)
    && (forall i: nat :: i < |w.pools.small| ==> w.pools.small[i].data in w.held)
    && (forall i: nat :: i < |w.pools.big| ==> w.pools.big[i].data in w.held)
    && (forall ptr: nat :: ptr in w.lent ==> HasBusy(w.pools.small, ptr) || HasBusy(w.pools.big, ptr))
    && w.pools.idleBytes == IdleBytes(w.pools.small)
    && (!w.pools.known ==> w.pools.small == [])
  }

  lemma {:induction false} IdleUpdate(buffers: seq<Buffer>, i: nat, b: Buffer)
    requires i < |buffers|
    ensures IdleBytes(buffers[i := b]) == IdleBytes(buffers) - (if buffers[i].busy then 0 else buffers[i].size) + (if b.busy then 0 else b.size)
    decreases |buffers|
  {
    var n := |buffers| - 1;
    if i < n {
      IdleUpdate(buffers[..n], i, b);
      assert buffers[i := b][..n] == buffers[..n][i := b];
    } else {
      assert buffers[i := b][..n] == buffers[..n];
    }
  }

  lemma IdleSnoc(buffers: seq<Buffer>, b: Buffer)
    ensures IdleBytes(buffers + [b]) == IdleBytes(buffers) + if b.busy then 0 else b.size
  {
    assert (buffers + [b])[..|buffers|] == buffers;
  }

  lemma {:induction false} BusyKeeps(buffers: seq<Buffer>)
    ensures IdleBytes(Busy(buffers)) == 0
    ensures forall b: Buffer :: b in Busy(buffers) <==> b in buffers && b.busy
    ensures DistinctData(buffers) ==> DistinctData(Busy(buffers))
    decreases |buffers|
  {
    hide DistinctData;
    if buffers == [] {
      NoneDistinct();
    } else {
      var init, last := buffers[..|buffers| - 1], buffers[|buffers| - 1];
      BusyKeeps(init);
      assert forall b: Buffer :: b in buffers <==> b in init || b == last;
      DistinctInit(buffers);
      if last.busy {
        IdleSnoc(Busy(init), last);
        if DistinctData(buffers) {
          BusyDistinct(init, last);
        }
      } else {
        assert Busy(buffers) == Busy(init);
      }
    }
  }

  lemma NoneDistinct()
    ensures DistinctData([])
  {
  }

  lemma DistinctInit(buffers: seq<Buffer>)
    requires buffers != []
    ensures DistinctData(buffers) ==> DistinctData(buffers[..|buffers| - 1])
    ensures DistinctData(buffers) ==> forall b: Buffer :: b in buffers[..|buffers| - 1] ==> b.data != buffers[|buffers| - 1].data
  {
    if DistinctData(buffers) {
      forall b: Buffer | b in buffers[..|buffers| - 1] ensures b.data != buffers[|buffers| - 1].data {
        var k: nat :| k < |buffers| - 1 && buffers[k] == b;
      }
    }
  }

  lemma BusyDistinct(init: seq<Buffer>, last: Buffer)
    requires DistinctData(Busy(init)) && forall b: Buffer :: b in Busy(init) ==> b.data != last.data
    ensures DistinctData(Busy(init) + [last])
  {
    var busy := Busy(init);
    assert forall k: nat :: k < |busy| ==> busy[k] in busy;
  }

  // ---------------------------------------------------------------- every step keeps it

  /** A buffer has been lent out or taken back: only its busy flag has changed. */
  function Flag(buffers: seq<Buffer>, i: nat, busy: bool): seq<Buffer>
    requires i < |buffers|
  {
    buffers[i := buffers[i].(busy := busy)]
  }

  lemma FlagKeeps(buffers: seq<Buffer>, i: nat, busy: bool)
    requires i < |buffers| && DistinctData(buffers)
    ensures DistinctData(Flag(buffers, i, busy))
    ensures forall ptr: nat :: ptr != buffers[i].data ==> (HasBusy(Flag(buffers, i, busy), ptr) <==> HasBusy(buffers, ptr))
    ensures HasBusy(Flag(buffers, i, busy), buffers[i].data) <==> busy
    ensures IdleBytes(Flag(buffers, i, busy)) == IdleBytes(buffers) + (if busy then 0 else buffers[i].size) - (if buffers[i].busy then 0 else buffers[i].size)
  {
    var flagged := Flag(buffers, i, busy);
    IdleUpdate(buffers, i, buffers[i].(busy := busy));
    assert forall k: nat :: k < |buffers| ==> flagged[k].data == buffers[k].data && (k != i ==> flagged[k] == buffers[k]);
    assert busy ==> flagged[i].data == buffers[i].data && flagged[i].busy;
    forall ptr: nat | ptr != buffers[i].data ensures HasBusy(flagged, ptr) <==> HasBusy(buffers, ptr) {
      if HasBusy(buffers, ptr) {
        var k: nat :| k < |buffers| && buffers[k].data == ptr && buffers[k].busy;
        assert flagged[k].data == ptr && flagged[k].busy;
      }
    }
  }

  lemma AddKeeps(buffers: seq<Buffer>, b: Buffer)
    requires DistinctData(buffers) && b.busy && forall i: nat :: i < |buffers| ==> buffers[i].data != b.data
    ensures DistinctData(buffers + [b]) && HasBusy(buffers + [b], b.data)
    ensures forall ptr: nat :: HasBusy(buffers, ptr) ==> HasBusy(buffers + [b], ptr)
    ensures IdleBytes(buffers + [b]) == IdleBytes(buffers)
  {
    IdleSnoc(buffers, b);
    var more := buffers + [b];
    assert more[|buffers|].data == b.data && more[|buffers|].busy;
    forall ptr: nat | HasBusy(buffers, ptr) ensures HasBusy(more, ptr) {
      var k: nat :| k < |buffers| && buffers[k].data == ptr && buffers[k].busy;
      assert more[k].data == ptr && more[k].busy;
    }
  }

  /** A lent address is that of one busy buffer only, so an idle buffer's address is not lent. */
  lemma IdleNotLent(w: World, i: nat)
    requires Ok(w)
    ensures i < |w.pools.small| && !w.pools.small[i].busy ==> w.pools.small[i].data !in w.lent
    ensures i < |w.pools.big| && !w.pools.big[i].busy ==> w.pools.big[i].data !in w.lent
  {
  }

  lemma LentHeld(w: World, ptr: nat)
    requires Ok(w) && ptr in w.lent
    ensures ptr in w.held
  {
  }

  lemma AllocateSmallOk(w: World, size: nat, offer: Option<nat>)
    requires Ok(w) && size <= SmallLimit && Proper(w, Allocate(size, offer))
    ensures Ok(Step(w, Allocate(size, offer)))
    ensures var ptr := Allocated(w.pools, size, offer).0; ptr.Some? ==> ptr.value !in w.lent && HasBusy(Step(w, Allocate(size, offer)).pools.small, ptr.value)
  {
    var p := w.pools;
    var w' := Step(w, Allocate(size, offer));
    match FirstSmall(p.small, size, 0)
    case Some(i) =>
      IdleNotLent(w, i);
      FlagKeeps(p.small, i, true);
      assert w'.pools.small == Flag(p.small, i, true);
      hide IdleBytes;
    case None =>
      if offer.Some? {
        AddKeeps(p.small, Buffer(offer.value, size, true));
        hide HasBusy, IdleBytes;
      }
  }

  lemma AllocateBigOk(w: World, size: nat, offer: Option<nat>)
    requires Ok(w) && size > SmallLimit && Proper(w, Allocate(size, offer))
    ensures Ok(Step(w, Allocate(size, offer)))
    ensures var ptr := Allocated(w.pools, size, offer).0; ptr.Some? ==> ptr.value !in w.lent && HasBusy(Step(w, Allocate(size, offer)).pools.big, ptr.value)
  {
    hide IdleBytes, HasBusy, DistinctData, FirstSmall;
    var p := w.pools;
    var w' := Step(w, Allocate(size, offer));
    match BestBig(p.big, size, |p.big|)
    case Some(i) =>
      IdleNotLent(w, i);
      FlagKeeps(p.big, i, true);
      assert w'.pools.big == Flag(p.big, i, true);
    case None =>
      if offer.Some? {
        AddKeeps(p.big, Buffer(offer.value, size, true));
        if offer.value in w.lent {
          LentHeld(w, offer.value);
        }
      }
  }

  /** The purge gives back idle buffers only. */
  lemma PurgeOk(w: World)
    requires Ok(w)
    ensures Ok(World(Purged(w.pools), w.held - (Addresses(w.pools.small) - Addresses(Purged(w.pools).small)), w.lent))
    ensures Purged(w.pools).big == w.pools.big && Purged(w.pools).known == w.pools.known
  {
    BusyKeeps(w.pools.small);
    var q := Purged(w.pools);
    var held := w.held - (Addresses(w.pools.small) - Addresses(q.small));
    if w.pools.idleBytes > PurgeLimit {
      forall i: nat | i < |q.small| ensures q.small[i].data in held && q.small[i] in w.pools.small {
        assert q.small[i] in Busy(w.pools.small);
        assert q.small[i].data in Addresses(q.small);
      }
      forall ptr: nat | HasBusy(w.pools.small, ptr) ensures HasBusy(q.small, ptr) {
        var k: nat :| k < |w.pools.small| && w.pools.small[k].data == ptr && w.pools.small[k].busy;
        assert w.pools.small[k] in Busy(w.pools.small);
        var j: nat :| j < |q.small| && q.small[j] == w.pools.small[k];
        assert q.small[j].data == ptr;
      }
      forall i: nat | i < |q.big| ensures q.big[i].data in held {
        assert q.big[i].data !in Addresses(w.pools.small);
      }
    } else {
      assert held == w.held;
    }
  }

  /** A release changes what is idle in two ways only. With more than one GiB idle, no small buffer but the
      released one stays idle; otherwise all small buffers stay. Busy ones always stay. */
  lemma ReleasePurges(p: Pools, ptr: nat)
    requires p.known
    ensures var q := Released(p, ptr).0;
      && (p.idleBytes <= 1024 * 1024 * 1024 ==> Addresses(q.small) == Addresses(p.small))
      && (p.idleBytes > 1024 * 1024 * 1024 ==> forall k: nat :: k < |q.small| && q.small[k].data != ptr ==> q.small[k].busy)
      && (forall k: nat :: k < |p.small| && p.small[k].busy ==> p.small[k].data in Addresses(q.small))
  {
    hide Busy, IdleBytes, DistinctData, Addresses;
    BusyKeeps(p.small);
    var r, q := Purged(p), Released(p, ptr).0;
    assert |q.small| == |r.small| && forall k: nat :: k < |r.small| ==> q.small[k].data == r.small[k].data;
    AddressesOnly(r.small, q.small);
    forall k: nat | k < |p.small| && p.small[k].busy ensures p.small[k].data in Addresses(r.small) {
      InAddresses(r.small, p.small[k]);
    }
  }

  lemma InAddresses(buffers: seq<Buffer>, b: Buffer)
    requires b in buffers
    ensures b.data in Addresses(buffers)
  {
  }

  lemma AddressesOnly(a: seq<Buffer>, b: seq<Buffer>)
    requires |a| == |b| && forall k: nat :: k < |a| ==> a[k].data == b[k].data
    ensures Addresses(a) == Addresses(b)
  {
    forall x: nat ensures x in Addresses(a) <==> x in Addresses(b) {
      if x in Addresses(a) {
        var k: nat :| k < |a| && a[k].data == x;
        assert b[k] in b;
      }
      if x in Addresses(b) {
        var k: nat :| k < |b| && b[k].data == x;
        assert a[k] in a;
      }
    }
  }

  /** Releasing a lent address, once the pools are known, marks its buffer idle; it never goes straight
      back to the device. */
  lemma ReleaseOk(w: World, ptr: nat)
    requires Ok(w) && Proper(w, Release(ptr))
    ensures Ok(Step(w, Release(ptr)))
    ensures !Released(w.pools, ptr).1
    ensures w.pools.known <==> !HasBusy(Step(w, Release(ptr)).pools.small, ptr) && !HasBusy(Step(w, Release(ptr)).pools.big, ptr)
  {
    if w.pools.known {
      PurgeOk(w);
      var v := World(Purged(w.pools), w.held - (Addresses(w.pools.small) - Addresses(Purged(w.pools).small)), w.lent);
      MarkIdle(v, ptr);
      var w' := Step(w, Release(ptr));
      assert Addresses(w'.pools.small) == Addresses(v.pools.small) by {
        SameAddresses(v.pools, w'.pools, ptr);
      }
      assert w'.held == v.held;
    } else {
      assert w.held - (Addresses(w.pools.small) - Addresses(w.pools.small)) == w.held;
    }
  }

  /** The pools with the buffer at `ptr` marked idle. */
  function Idled(q: Pools, ptr: nat): Pools {
    match IndexOf(q.small, ptr, 0)
    case Some(i) => q.(small := Flag(q.small, i, false), idleBytes := q.idleBytes + q.small[i].size)
    case None =>
      match IndexOf(q.big, ptr, 0)
      case Some(i) => q.(big := Flag(q.big, i, false))
      case None => q
  }

  lemma SameAddresses(q: Pools, q': Pools, ptr: nat)
    requires q' == Idled(q, ptr)
    ensures Addresses(q'.small) == Addresses(q.small)
  {
    forall x ensures x in Addresses(q'.small) <==> x in Addresses(q.small) {
      if x in Addresses(q.small) {
        var k: nat :| k < |q.small| && q.small[k].data == x;
        assert q'.small[k] in q'.small && q'.small[k].data == x;
      }
      if x in Addresses(q'.small) {
        var k: nat :| k < |q'.small| && q'.small[k].data == x;
        assert q.small[k] in q.small && q.small[k].data == x;
      }
    }
  }

  lemma MarkIdle(v: World, ptr: nat)
    requires Ok(v) && ptr in v.lent
    ensures Ok(World(Idled(v.pools, ptr), v.held, v.lent - {ptr}))
    ensures !HasBusy(Idled(v.pools, ptr).small, ptr) && !HasBusy(Idled(v.pools, ptr).big, ptr)
    ensures IndexOf(v.pools.small, ptr, 0).Some? || IndexOf(v.pools.big, ptr, 0).Some?
  {
    var q := v.pools;
    assert HasBusy(q.small, ptr) || HasBusy(q.big, ptr);
    match IndexOf(q.small, ptr, 0)
    case Some(i) =>
      FlagKeeps(q.small, i, false);
      OnlyOnce(q.small, i, ptr);
    case None =>
      match IndexOf(q.big, ptr, 0)
      case Some(i) =>
        FlagKeeps(q.big, i, false);
        OnlyOnce(q.big, i, ptr);
      case None =>
  }

  lemma SameBuffer(buffers: seq<Buffer>, i: nat, k: nat)
    requires DistinctData(buffers) && i < |buffers| && k < |buffers| && buffers[i].data == buffers[k].data
    ensures i == k
  {
  }

  lemma OnlyOnce(buffers: seq<Buffer>, i: nat, ptr: nat)
    requires DistinctData(buffers) && i < |buffers| && buffers[i].data == ptr
    ensures HasBusy(buffers, ptr) <==> buffers[i].busy
  {
    if HasBusy(buffers, ptr) {
      var k: nat :| k < |buffers| && buffers[k].data == ptr && buffers[k].busy;
      SameBuffer(buffers, i, k);
    }
  }

  // ---------------------------------------------------------------- whole runs

  ghost predicate Runs(w: World, events: seq<Event>, w': World)
    decreases |events|
  {
    if events == [] then w' == w else Proper(w, events[0]) && Runs(Step(w, events[0]), events[1..], w')
  }

  /** The pool that requests of a size are served from. */
  function PoolFor(p: Pools, size: nat): seq<Buffer> {
    if size > 1024 * 1024 then p.big else p.small
  }

  /** An idle buffer that is large enough, and for a large request not too large. */
  ghost predicate Meets(b: Buffer, size: nat) {
    !b.busy && b.size >= size && (size > 1024 * 1024 ==> b.size < size + 1024 * 1024)
  }

  /** The best of them: the first of the smallest for a large request, the first for a small one. */
  ghost predicate BestFit(buffers: seq<Buffer>, size: nat, i: nat) {
    && i < |buffers| && Meets(buffers[i], size)
    && forall j: nat :: j < |buffers| && Meets(buffers[j], size) ==>
         if size > 1024 * 1024 then buffers[i].size < buffers[j].size || (buffers[i].size == buffers[j].size && i <= j) else i <= j
  }

  lemma {:induction false} BestBigIs(buffers: seq<Buffer>, size: nat, n: nat)
    requires n <= |buffers| && size > 1024 * 1024
    ensures var r := BestBig(buffers, size, n);
      if r.None? then forall j: nat :: j < n ==> !Meets(buffers[j], size)
      else
        && r.value < n && Meets(buffers[r.value], size)
        && forall j: nat :: j < n && Meets(buffers[j], size) ==>
             buffers[r.value].size < buffers[j].size || (buffers[r.value].size == buffers[j].size && r.value <= j)
    decreases n
  {
    if n > 0 {
      BestBigIs(buffers, size, n - 1);
    }
  }

  /** The buffer handed out is at least as large as the request: the best idle one if any meets it, marked
      busy; and only if none does, the device is asked for a new one of just that size. */
  lemma AllocateFits(p: Pools, size: nat, offer: Option<nat>)
    ensures var (ptr, q) := Allocated(p, size, offer);
      var buffers, buffers' := PoolFor(p, size), PoolFor(q, size);
      if exists i: nat :: BestFit(buffers, size, i) then
        && !Asks(p, size)
        && exists i: nat :: BestFit(buffers, size, i) && ptr == Some(buffers[i].data) && buffers' == buffers[i := buffers[i].(busy := true)]
      else
        && Asks(p, size) && (forall j: nat :: j < |buffers| ==> !Meets(buffers[j], size)) && ptr == offer
        && buffers' == if offer.Some? then buffers + [Buffer(offer.value, size, true)] else buffers
    ensures if size > 1024 * 1024 then Allocated(p, size, offer).1.small == p.small else Allocated(p, size, offer).1.big == p.big
  {
    var buffers := PoolFor(p, size);
    if size > 1024 * 1024 {
      BestBigIs(p.big, size, |p.big|);
      var r := BestBig(p.big, size, |p.big|);
      if r.Some? {
        assert BestFit(buffers, size, r.value);
      }
      forall i: nat | BestFit(buffers, size, i) ensures r.Some? && r.value == i {
        assert Meets(buffers[i], size);
      }
    } else {
      var r := FirstSmall(p.small, size, 0);
      if r.Some? {
        assert BestFit(buffers, size, r.value);
      }
      forall i: nat | BestFit(buffers, size, i) ensures r.Some? && r.value == i {
        assert Meets(buffers[i], size);
      }
    }
  }

  lemma StepOk(w: World, event: Event)
    requires Ok(w) && Proper(w, event)
    ensures Ok(Step(w, event))
    ensures event.Allocate? ==> (Allocated(w.pools, event.size, event.offer).0.Some? ==> Allocated(w.pools, event.size, event.offer).0.value !in w.lent)
  {
    hide Ok, HasBusy;
    match event
    case Allocate(size, offer) =>
      if size > SmallLimit {
        AllocateBigOk(w, size, offer);
      } else {
        AllocateSmallOk(w, size, offer);
      }
    case Release(ptr) =>
      ReleaseOk(w, ptr);
  }

  /** Over any run in which owners give back only what they have: the counter is exact, and no buffer is
      lent to two owners. */
  lemma {:induction false} RunOk(w: World, events: seq<Event>, w': World)
    requires Ok(w) && Runs(w, events, w')
    ensures Ok(w')
    decreases |events|
  {
    hide Ok, Proper;
    if events != [] {
      StepOk(w, events[0]);
      RunOk(Step(w, events[0]), events[1..], w');
    }
  }

  /** Nobody owns the buffer, and it is busy all the same. */
  ghost predicate Lost(w: World, ptr: nat) {
    ptr !in w.lent && HasBusy(w.pools.big, ptr)
  }

  lemma BusyAt(buffers: seq<Buffer>, ptr: nat) returns (k: nat)
    requires HasBusy(buffers, ptr)
    ensures k < |buffers| && buffers[k].data == ptr && buffers[k].busy
  {
    k :| k < |buffers| && buffers[k].data == ptr && buffers[k].busy;
  }

  lemma LostThroughAllocate(w: World, size: nat, offer: Option<nat>, ptr: nat)
    requires Ok(w) && Proper(w, Allocate(size, offer)) && Lost(w, ptr)
    ensures Lost(Step(w, Allocate(size, offer)), ptr)
  {
    var p := w.pools;
    var k := BusyAt(p.big, ptr);
    hide IdleBytes, HasBusy;
    if size > SmallLimit {
      match BestBig(p.big, size, |p.big|)
      case Some(i) =>
        FlagKeeps(p.big, i, true);
        assert Step(w, Allocate(size, offer)).pools.big == Flag(p.big, i, true);
      case None =>
        if offer.Some? {
          AddKeeps(p.big, Buffer(offer.value, size, true));
        }
    }
  }

  lemma LostThroughRelease(w: World, other: nat, ptr: nat)
    requires Ok(w) && Proper(w, Release(other)) && Lost(w, ptr)
    ensures Lost(Step(w, Release(other)), ptr)
  {
    hide IdleBytes, HasBusy, Busy;
    var q := Purged(w.pools);
    assert q.big == w.pools.big;
    if w.pools.known && IndexOf(q.small, other, 0).None? && IndexOf(q.big, other, 0).Some? {
      var i := IndexOf(q.big, other, 0).value;
      FlagKeeps(q.big, i, false);
      assert Step(w, Release(other)).pools.big == Flag(q.big, i, false);
    }
  }

  lemma {:induction false} LostForGood(w: World, events: seq<Event>, w': World, ptr: nat)
    requires Ok(w) && Lost(w, ptr) && Runs(w, events, w')
    ensures Lost(w', ptr)
    decreases |events|
  {
    hide Ok, Lost, Proper;
    if events != [] {
      match events[0] {
        case Allocate(size, offer) => LostThroughAllocate(w, size, offer, ptr);
        case Release(other) => LostThroughRelease(w, other, ptr);
      }
      StepOk(w, events[0]);
      LostForGood(Step(w, events[0]), events[1..], w', ptr);
    }
  }

  /** A released buffer is not always reusable: before the first small request there is no entry to look
      under, release returns early, and over every later run the buffer stays busy and is lent to nobody.
      After the first small request it is idle at once. */
  lemma ReleaseLeaks(w: World, ptr: nat, events: seq<Event>, w': World)
    requires Ok(w) && Proper(w, Release(ptr)) && Runs(Step(w, Release(ptr)), events, w')
    ensures !w.pools.known ==> Lost(w', ptr)
    ensures w.pools.known ==> !HasBusy(Step(w, Release(ptr)).pools.small, ptr) && !HasBusy(Step(w, Release(ptr)).pools.big, ptr)
  {
    ReleaseOk(w, ptr);
    if !w.pools.known {
      assert HasBusy(w.pools.big, ptr);
      hide Ok, HasBusy;
      LostForGood(Step(w, Release(ptr)), events, w', ptr);
    }
  }

  /** The shortest such run: a large buffer is allocated and released. */
  lemma LeakingRun(size: nat, ptr: nat)
    requires size > SmallLimit
    ensures var w0 := World(Pools([], [], false, 0), {}, {});
      var w1 := Step(w0, Allocate(size, Some(ptr)));
      Ok(w1) && Proper(w1, Release(ptr)) && Lost(Step(w1, Release(ptr)), ptr)
  {
    var b := [Buffer(ptr, size, true)];
    assert HasBusy(b, ptr) by {
      assert b[0].data == ptr && b[0].busy;
    }
    var w0 := World(Pools([], [], false, 0), {}, {});
    assert [] + b == b;
    assert Ok(w0);
    AllocateBigOk(w0, size, Some(ptr));
  }

  // ---------------------------------------------------------------- the program

  class CUDADeviceAllocator {
    var small: seq<Buffer>
    var big: seq<Buffer>
    var known: bool
    var noBusyCount: int

    ghost function P(): Pools
      reads this
    {
      Pools(small, big, known, noBusyCount)
    }

    constructor ()
      ensures P() == Pools([], [], false, 0)
    {
      small, big, known, noBusyCount := [], [], false, 0;
    }

    /** `offer` is what the device answers if it is asked. */
    method Allocate(size: nat, offer: Option<nat>) returns (ptr: Option<nat>)
      modifies this
      ensures (ptr, P()) == Allocated(old(P()), size, offer)
    {
      if size > SmallLimit {
        var selected := None;
        var i := 0;
        while i < |big|
          invariant 0 <= i <= |big| && selected == BestBig(big, size, i)
        {
          if big[i].size >= size && !big[i].busy && big[i].size - size < SmallLimit {
            if selected.None? || big[selected.value].size > big[i].size {
              selected := Some(i);
            }
          }
          i := i + 1;
        }
        if selected.Some? {
          big := big[selected.value := big[selected.value].(busy := true)];
          return Some(big[selected.value].data);
        }
        if offer.Some? {
          big := big + [Buffer(offer.value, size, true)];
        }
        return offer;
      }
      known := true;
      var i := 0;
      while i < |small|
        invariant 0 <= i <= |small| && FirstSmall(small, size, 0) == FirstSmall(small, size, i)
      {
        if small[i].size >= size && !small[i].busy {
          noBusyCount := noBusyCount - small[i].size;
          small := small[i := small[i].(busy := true)];
          return Some(small[i].data);
        }
        i := i + 1;
      }
      if offer.Some? {
        small := small + [Buffer(offer.value, size, true)];
      }
      return offer;
    }

    /** Says whether the address went back to the device because no pool knows it. */
    method Release(ptr: Option<nat>) returns (freed: bool)
      modifies this
      ensures ptr.None? ==> P() == old(P()) && !freed
      ensures ptr.Some? ==> (P(), freed) == Released(old(P()), ptr.value)
    {
      if ptr.None? || !known {
        return false;
      }
      if noBusyCount > PurgeLimit {
        Purge();
      }
      var i := 0;
      while i < |small|
        invariant 0 <= i <= |small| && IndexOf(small, ptr.value, 0) == IndexOf(small, ptr.value, i)
      {
        if small[i].data == ptr.value {
          noBusyCount := noBusyCount + small[i].size;
          small := small[i := small[i].(busy := false)];
          return false;
        }
        i := i + 1;
      }
      i := 0;
      while i < |big|
        invariant 0 <= i <= |big| && IndexOf(big, ptr.value, 0) == IndexOf(big, ptr.value, i)
      {
        if big[i].data == ptr.value {
          big := big[i := big[i].(busy := false)];
          return false;
        }
        i := i + 1;
      }
      return true;
    }

    /** All idle small buffers go back to the device. */
    method Purge()
      modifies this`small, this`noBusyCount
      ensures P() == old(P()).(small := Busy(old(small)), idleBytes := 0)
    {
      var kept := [];
      var i := 0;
      while i < |small|
        invariant 0 <= i <= |small| && kept == Busy(small[..i])
      {
        assert small[..i + 1][..i] == small[..i];
        if small[i].busy {
          kept := kept + [small[i]];
        }
        i := i + 1;
      }
      assert small[..i] == small;
      small := kept;
      noBusyCount := 0;
    }
  }
}
