/** Where the paged cache keeps things: one flat array for the keys and one for the values. */
module CacheLayout {
  import opened Blocks
  import opened Attention
  import opened PagedBatch

  datatype Layout = Layout(layers: nat, numBlocks: nat, blockSize: nat, kvDim: nat) {
    function Slots(): nat {
      numBlocks * blockSize
    }

    /** The length of either array. */
    function Cells(): nat {
      layers * Slots() * kvDim
    }

    /** The first cell of a slot of a layer. */
    function Base(layer: nat, slot: nat): nat {
      (layer * Slots() + slot) * kvDim
    }

    /** The address the kernels compute. */
    function Address(layer: nat, block: nat, offset: nat, dim: nat): nat {
      ((layer * numBlocks + block) * blockSize + offset) * kvDim + dim
    }
  }

  lemma SlotsOf(g: Layout)
    ensures g.Slots() == g.numBlocks * g.blockSize
  {
  }

  lemma AddressIsBase(g: Layout, layer: nat, block: nat, offset: nat, dim: nat)
    ensures SlotIn(g.blockSize, block, offset) >= 0
    ensures g.Address(layer, block, offset, dim) == g.Base(layer, SlotIn(g.blockSize, block, offset)) + dim
  {
    assert (layer * g.numBlocks + block) * g.blockSize == layer * (g.numBlocks * g.blockSize) + block * g.blockSize;
  }

  lemma BaseBounds(g: Layout, layer: nat, slot: nat)
    requires layer < g.layers && slot < g.Slots()
    ensures g.Base(layer, slot) + g.kvDim <= g.Cells()
  {
    SlotInRange(g.Slots(), layer, slot, g.layers);
    var n := layer * g.Slots() + slot;
    if g.kvDim > 0 {
      MulMonoStrict(n, g.layers * g.Slots(), g.kvDim);
    } else {
      assert g.Base(layer, slot) == 0;
    }
  }

  /** Every address is inside the array. */
  lemma AddressInBounds(g: Layout, layer: nat, block: nat, offset: nat, dim: nat)
    requires layer < g.layers && block < g.numBlocks && offset < g.blockSize && dim < g.kvDim
    ensures g.Address(layer, block, offset, dim) < g.Cells()
  {
    AddressIsBase(g, layer, block, offset, dim);
    SlotInRange(g.blockSize, block, offset, g.numBlocks);
    BaseBounds(g, layer, SlotIn(g.blockSize, block, offset));
  }

  /** The order of the cells: the columns of a token side by side, then the next token of the block, the next
      block, and the next layer. */
  lemma AddressOrder(g: Layout, layer: nat, block: nat, offset: nat, dim: nat)
    ensures g.Address(0, 0, 0, 0) == 0
    ensures g.Address(layer, block, offset, dim + 1) == g.Address(layer, block, offset, dim) + 1
    ensures g.Address(layer, block, offset + 1, 0) == g.Address(layer, block, offset, g.kvDim)
    ensures g.Address(layer, block + 1, 0, 0) == g.Address(layer, block, g.blockSize, 0)
    ensures g.Address(layer + 1, 0, 0, 0) == g.Address(layer, g.numBlocks, 0, 0)
  {
  }

  /** Addresses tell layers, blocks, offsets and columns apart. */
  lemma AddressInjective(g: Layout, layer: nat, block: nat, offset: nat, dim: nat, layer': nat, block': nat, offset': nat, dim': nat)
    requires block < g.numBlocks && offset < g.blockSize && dim < g.kvDim
    requires block' < g.numBlocks && offset' < g.blockSize && dim' < g.kvDim
    requires g.Address(layer, block, offset, dim) == g.Address(layer', block', offset', dim')
    ensures layer == layer' && block == block' && offset == offset' && dim == dim'
  {
    hide Layout.Address, SlotIn;
    AddressNested(g, layer, block, offset, dim);
    AddressNested(g, layer', block', offset', dim');
    SlotInInjective(g.kvDim, SlotIn(g.blockSize, SlotIn(g.numBlocks, layer, block), offset), dim,
                    SlotIn(g.blockSize, SlotIn(g.numBlocks, layer', block'), offset'), dim');
    SlotInInjective(g.blockSize, SlotIn(g.numBlocks, layer, block), offset, SlotIn(g.numBlocks, layer', block'), offset');
    SlotInInjective(g.numBlocks, layer, block, layer', block');
  }

lemma AddressNested(g: Layout, layer: nat, block: nat, offset: nat, dim: nat)
    ensures SlotIn(g.numBlocks, layer, block) >= 0 && SlotIn(g.blockSize, SlotIn(g.numBlocks, layer, block), offset) >= 0
    ensures g.Address(layer, block, offset, dim) == SlotIn(g.kvDim, SlotIn(g.blockSize, SlotIn(g.numBlocks, layer, block), offset), dim)
  {
    var n: nat := layer * g.numBlocks + block;
    var m: nat := n * g.blockSize + offset;
  }

  /** Different slots have no cell in common. */
  lemma BasesApart(g: Layout, layer: nat, slot: nat, layer': nat, slot': nat)
    requires slot < g.Slots() && slot' < g.Slots() && (layer != layer' || slot != slot')
    ensures g.Base(layer, slot) + g.kvDim <= g.Base(layer', slot') || g.Base(layer', slot') + g.kvDim <= g.Base(layer, slot)
  {
    var a, b := layer * g.Slots() + slot, layer' * g.Slots() + slot';
    if a == b {
      SlotInInjective(g.Slots(), layer, slot, layer', slot');
    }
    if g.kvDim > 0 {
      if a < b {
        MulMonoStrict(a, b, g.kvDim);
      } else {
        MulMonoStrict(b, a, g.kvDim);
      }
    }
  }

  ghost function Slice(cells: seq<real>, base: nat, n: nat): Vec {
    if base + n <= |cells| then cells[base..base + n] else []
  }

  ghost function KvIn(g: Layout, keys: seq<real>, values: seq<real>, layer: nat, slot: nat): KV {
    KV(Slice(keys, g.Base(layer, slot), g.kvDim), Slice(values, g.Base(layer, slot), g.kvDim))
  }

  /** What the two arrays hold, layer by layer and slot by slot. */
  ghost function View(g: Layout, keys: seq<real>, values: seq<real>): (r: Cache)
    ensures |r| == g.layers && forall l: nat :: l < g.layers ==> r[l] == LayerView(g, keys, values, l)
  {
    seq(g.layers, l requires 0 <= l < g.layers => LayerView(g, keys, values, l))
  }

  ghost function LayerView(g: Layout, keys: seq<real>, values: seq<real>, layer: nat): (r: Layer)
    ensures |r| == g.Slots() && forall s: nat :: s < g.Slots() ==> r[s] == KvIn(g, keys, values, layer, s)
  {
    seq(g.Slots(), s requires 0 <= s < g.Slots() => KvIn(g, keys, values, layer, s))
  }

  /** `cells'` is `cells` with `v` written from `base` on. */
  ghost predicate Written(cells: seq<real>, cells': seq<real>, base: nat, v: Vec) {
    && base + |v| <= |cells| == |cells'|
    && cells'[base..base + |v|] == v
    && forall x: nat :: x < |cells| && (x < base || x >= base + |v|) ==> cells'[x] == cells[x]
  }

  lemma SliceKept(cells: seq<real>, cells': seq<real>, base: nat, v: Vec, other: nat, n: nat)
    requires Written(cells, cells', base, v) && (other + n <= base || base + |v| <= other)
    ensures Slice(cells', other, n) == Slice(cells, other, n)
  {
  }

  /** Writing one slot changes that slot of the view, and nothing else. */
  lemma StoreView(g: Layout, keys: seq<real>, values: seq<real>, keys': seq<real>, values': seq<real>, layer: nat, slot: nat, kv: KV)
    requires layer < g.layers && slot < g.Slots() && |kv.key| == |kv.value| == g.kvDim
    requires Written(keys, keys', g.Base(layer, slot), kv.key) && Written(values, values', g.Base(layer, slot), kv.value)
    ensures View(g, keys', values') == View(g, keys, values)[layer := LayerView(g, keys, values, layer)[slot := kv]]
  {
    hide View, LayerView, Slice, Layout.Base, Layout.Slots;
    assert KvIn(g, keys', values', layer, slot) == kv by {
      SliceNew(keys, keys', g.Base(layer, slot), kv.key);
      SliceNew(values, values', g.Base(layer, slot), kv.value);
    }
    forall l: nat, s: nat | l < g.layers && s < g.Slots() && (l != layer || s != slot)
      ensures KvIn(g, keys', values', l, s) == KvIn(g, keys, values, l, s)
    {
      BasesApart(g, layer, slot, l, s);
      SliceKept(keys, keys', g.Base(layer, slot), kv.key, g.Base(l, s), g.kvDim);
      SliceKept(values, values', g.Base(layer, slot), kv.value, g.Base(l, s), g.kvDim);
    }
    var was := View(g, keys, values);
    var now := View(g, keys', values');
    forall l: nat | l < g.layers ensures now[l] == was[layer := LayerView(g, keys, values, layer)[slot := kv]][l] {
      if l == layer {
        assert LayerView(g, keys', values', l) == LayerView(g, keys, values, l)[slot := kv];
      } else {
        assert LayerView(g, keys', values', l) == LayerView(g, keys, values, l);
      }
    }
  }

  lemma SliceNew(cells: seq<real>, cells': seq<real>, base: nat, v: Vec)
    requires Written(cells, cells', base, v)
    ensures Slice(cells', base, |v|) == v
  {
  }
}
