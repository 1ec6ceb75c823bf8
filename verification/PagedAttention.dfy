/** kernels/src/paged_attention_cpu.cpp: attention of one row, reading keys and values through its block
    table. It is proved to be the contiguous attention over what the table gathers. */
module PagedAttention {
  import opened Common
  import opened Blocks
  import opened Attention
  import opened PagedBatch
  import opened CacheLayout

  /** The widths of the key and value rows: `kvHeads` groups of `headSize` columns. */
  ghost predicate Grouped(s: Heads, kvHeads: nat, kvDim: nat) {
    s.Valid() && s.headNum == kvHeads * s.kvMul && kvDim == kvHeads * s.headSize
  }

  /** The columns a query head reads lie inside a row. */
  lemma ColumnBounds(s: Heads, kvHeads: nat, kvDim: nat, head: nat)
    requires Grouped(s, kvHeads, kvDim) && head < s.headNum
    ensures s.Column(head) + s.headSize <= kvDim
  {
    DivBounds(head, s.kvMul);
    if head / s.kvMul >= kvHeads {
      MulMono(kvHeads, head / s.kvMul, s.kvMul);
      assert false;
    }
    MulMonoStrict(head / s.kvMul, kvHeads, s.headSize);
  }

  /** What the kernel is handed: a layer of the cache, and the row's table and position. */
  datatype Launch = Launch(s: Heads, g: Layout, layer: nat, table: seq<nat>, position: nat) {
    /** The table covers the position, and names blocks of the cache. */
    ghost predicate Valid() {
      && s.Valid() && layer < g.layers
      && g.blockSize > 0 && position / g.blockSize < |table|
      && forall j :: 0 <= j < |table| ==> table[j] < g.numBlocks
    }

    ghost predicate Fits(kvHeads: nat, query: Vec, keys: seq<real>, values: seq<real>) {
      Valid() && Grouped(s, kvHeads, g.kvDim) && |query| == s.headNum * s.headSize && |keys| == |values| == g.Cells()
    }
  }

  lemma LaunchRow(k: Launch)
    requires k.Valid()
    ensures RowOk(Shape(k.g.blockSize, k.g.Slots()), Row(0, k.position, k.table))
  {
    var g := k.g;
    forall q: nat | q <= k.position
      ensures q / g.blockSize < |k.table| && 0 <= SlotOf(g.blockSize, k.table, q) < g.Slots()
    {
      DivMono(q, k.position, g.blockSize);
      DivBounds(q, g.blockSize);
      SlotInRange(g.blockSize, k.table[q / g.blockSize], q % g.blockSize, g.numBlocks);
    }
  }

  /** The keys and values of the first `n` positions, gathered through the table. */
  ghost function ContextOf(k: Launch, keys: seq<real>, values: seq<real>, n: nat): (r: seq<KV>)
    requires k.Valid() && n <= k.position + 1
    ensures |r| == n
  {
    LaunchRow(k);
    Gather(Shape(k.g.blockSize, k.g.Slots()), LayerView(k.g, keys, values, k.layer), Row(0, k.position, k.table), n)
  }

  lemma {:induction false} ContextSlot(k: Launch, keys: seq<real>, values: seq<real>, n: nat, t: nat)
    requires k.Valid() && t < n <= k.position + 1
    ensures t / k.g.blockSize < |k.table|
    ensures 0 <= SlotOf(k.g.blockSize, k.table, t) < k.g.Slots()
    ensures ContextOf(k, keys, values, n)[t] == KvIn(k.g, keys, values, k.layer, SlotOf(k.g.blockSize, k.table, t))
    decreases n
  {
    LaunchRow(k);
    hide KvIn, LayerView, SlotOf, Layout.Slots;
    if t < n - 1 {
      ContextSlot(k, keys, values, n - 1, t);
    }
  }

  /** The address of a column of a token's row, as the kernel computes it. */
  function Cell(k: Launch, t: nat, column: nat): nat
    requires k.g.blockSize > 0 && t / k.g.blockSize < |k.table|
  {
    DivBounds(t, k.g.blockSize);
    k.g.Address(k.layer, k.table[t / k.g.blockSize], t % k.g.blockSize, column)
  }

  lemma CellBounds(k: Launch, t: nat, column: nat)
    requires k.Valid() && t <= k.position && column < k.g.kvDim
    ensures t / k.g.blockSize < |k.table| && Cell(k, t, column) < k.g.Cells()
    ensures SlotOf(k.g.blockSize, k.table, t) >= 0 && Cell(k, t, column) == k.g.Base(k.layer, SlotOf(k.g.blockSize, k.table, t)) + column
  {
    DivMono(t, k.position, k.g.blockSize);
    DivBounds(t, k.g.blockSize);
    hide Layout.Base, Layout.Address, Layout.Cells, Layout.Slots;
    var b, o := k.table[t / k.g.blockSize], t % k.g.blockSize;
    AddressInBounds(k.g, k.layer, b, o, column);
    AddressIsBase(k.g, k.layer, b, o, column);
  }

  /** A gathered entry is what stands at the address the kernel computes. */
  lemma ContextAt(k: Launch, keys: seq<real>, values: seq<real>, t: nat, column: nat)
    requires k.Valid() && t <= k.position && column < k.g.kvDim && |keys| == |values| == k.g.Cells()
    ensures k.g.blockSize > 0 && t / k.g.blockSize < |k.table| && Cell(k, t, column) < k.g.Cells()
    ensures At(ContextOf(k, keys, values, k.position + 1)[t].key, column) == keys[Cell(k, t, column)]
    ensures At(ContextOf(k, keys, values, k.position + 1)[t].value, column) == values[Cell(k, t, column)]
  {
    hide Cell, Layout.Base, Layout.Cells, Layout.Slots, SlotOf, ContextOf;
    CellBounds(k, t, column);
    ContextSlot(k, keys, values, k.position + 1, t);
    BaseBounds(k.g, k.layer, SlotOf(k.g.blockSize, k.table, t));
  }

  // ---------------------------------------------------------------- scores

  lemma DotStep(a: Vec, i: int, b: Vec, j: int, n: nat)
    ensures Dot(a, i, b, j, n + 1) == Dot(a, i, b, j, n) + At(a, i + n) * At(b, j + n)
  {
  }

  /** The dot product of a query head with the keys of one token. */
  method DotKey(k: Launch, ghost kvHeads: nat, query: Vec, keys: array<real>, ghost values: array<real>, head: nat, token: nat) returns (dot: real)
    requires k.Fits(kvHeads, query, keys[..], values[..]) && head < k.s.headNum && token <= k.position
    ensures dot == Dot(query, head * k.s.headSize, ContextOf(k, keys[..], values[..], k.position + 1)[token].key, k.s.Column(head), k.s.headSize)
  {
    hide ContextOf, Cell, Layout.Cells, Dot, Launch.Valid;
    ColumnBounds(k.s, kvHeads, k.g.kvDim, head);
    MulMonoStrict(head, k.s.headNum, k.s.headSize);
    var first, column := head * k.s.headSize, k.s.Column(head);
    ghost var key := ContextOf(k, keys[..], values[..], k.position + 1)[token].key;
    ContextAt(k, keys[..], values[..], token, column);
    assert Dot(query, first, key, column, 0) == 0.0 by {
      DotNone(query, first, key, column);
    }
    dot := 0.0;
    var dim := 0;
    while dim < k.s.headSize
      invariant 0 <= dim <= k.s.headSize && dot == Dot(query, first, key, column, dim)
    {
      ContextAt(k, keys[..], values[..], token, column + dim);
      DotStep(query, first, key, column, dim);
      dot := dot + query[first + dim] * keys[Cell(k, token, column + dim)];
      dim := dim + 1;
    }
  }

  lemma DotNone(a: Vec, i: int, b: Vec, j: int)
    ensures Dot(a, i, b, j, 0) == 0.0
  {
  }

  /** The scores of one head. */
  method ScoreHead(k: Launch, ghost kvHeads: nat, query: Vec, keys: array<real>, ghost values: array<real>, head: nat, local: array<real>)
    requires k.Fits(kvHeads, query, keys[..], values[..]) && head < k.s.headNum && local.Length == k.position + 1
    requires local != keys && local != values
    modifies local
    ensures local[..] == Scores(k.s, query, ContextOf(k, keys[..], values[..], k.position + 1), head, k.position + 1)
  {
    hide ContextOf, Launch.Valid, Dot, Layout.Cells;
    ghost var context := ContextOf(k, keys[..], values[..], k.position + 1);
    var token := 0;
    while token <= k.position
      invariant 0 <= token <= k.position + 1 && local[..token] == Scores(k.s, query, context, head, token)
    {
      var dot := DotKey(k, kvHeads, query, keys, values, head, token);
      ghost var done := local[..token];
      local[token] := dot * k.s.scale;
      assert local[token] == Score(k.s, query, context[token], head);
      assert local[..token] == done;
      assert local[..token + 1] == local[..token] + [local[token]];
      token := token + 1;
    }
    assert local[..token] == local[..];
  }

  // ---------------------------------------------------------------- softmax

  ghost function SoftmaxOf(s: Heads, xs: seq<real>): (r: seq<real>)
    requires s.Valid() && xs != []
    ensures |r| == |xs|
  {
    ExpsPositive(s, xs, Max(xs));
    Scaled(Exps(s, xs, Max(xs)), Sum(Exps(s, xs, Max(xs))))
  }

  lemma ExpsStep(s: Heads, xs: seq<real>, m: real, i: nat)
    requires i < |xs|
    ensures Exps(s, xs[..i + 1], m) == Exps(s, xs[..i], m) + [s.exp(xs[i] - m)]
    ensures Sum(Exps(s, xs[..i + 1], m)) == Sum(Exps(s, xs[..i], m)) + s.exp(xs[i] - m)
  {
    assert xs[..i + 1][..i] == xs[..i];
    var es := Exps(s, xs[..i + 1], m);
    assert es[..|es| - 1] == Exps(s, xs[..i], m);
  }

  lemma ScaledStep(xs: seq<real>, d: real, i: nat)
    requires i < |xs| && d != 0.0
    ensures Scaled(xs[..i + 1], d) == Scaled(xs[..i], d) + [Quotient(xs[i], d)]
  {
    assert xs[..i + 1][..i] == xs[..i];
  }

  /** Every entry becomes its exponential, with the maximum subtracted first; their sum is returned. */
  method Exponentials(s: Heads, local: array<real>) returns (denominator: real)
    requires s.Valid() && local.Length > 0
    modifies local
    ensures local[..] == Exps(s, old(local[..]), Max(old(local[..]))) && denominator == Sum(local[..]) && denominator > 0.0
  {
    hide Max, Exps, Sum;
    ghost var xs := local[..];
    var top := Max(local[..]);
    ExpsPositive(s, xs, top);
    ExpsNone(s, top);
    denominator := 0.0;
    var i := 0;
    while i < local.Length
      invariant 0 <= i <= local.Length && local[i..] == xs[i..]
      invariant local[..i] == Exps(s, xs[..i], top) && denominator == Sum(Exps(s, xs[..i], top))
    {
      ExpsStep(s, xs, top, i);
      assert local[i] == local[i..][0] && xs[i] == xs[i..][0];
      ghost var done := local[..i];
      local[i] := s.exp(local[i] - top);
      denominator := denominator + local[i];
      assert local[..i + 1] == done + [local[i]];
      i := i + 1;
    }
    assert local[..i] == local[..] && xs[..i] == xs;
  }

  lemma ExpsNone(s: Heads, m: real)
    ensures Exps(s, [], m) == [] && Sum([]) == 0.0
  {
  }

  /** The softmax of `local`, written to `score` from `base` on. */
  method Softmax(s: Heads, local: array<real>, score: array<real>, base: nat)
    requires s.Valid() && local.Length > 0 && base + local.Length <= score.Length && local != score
    modifies local, score
    ensures score[base..base + local.Length] == SoftmaxOf(s, old(local[..]))
    ensures SameOutside(old(score[..]), score[..], base, local.Length)
  {
    hide Exps, Sum, Quotient;
    var denominator := Exponentials(s, local);
    ghost var es := local[..];
    var i := 0;
    while i < local.Length
      invariant 0 <= i <= local.Length && local[..] == es && score[base..base + i] == Scaled(es[..i], denominator)
      invariant SameOutside(old(score[..]), score[..], base, i)
    {
      ScaledStep(es, denominator, i);
      score[base + i] := Quotient(local[i], denominator);
      assert score[base..base + i + 1] == score[base..base + i] + [score[base + i]];
      i := i + 1;
    }
    assert es[..i] == es;
  }

  // ---------------------------------------------------------------- weighted sum

  /** Entries `from` to `to` of a head's output, after the first `tokens` tokens. */
  ghost predicate Mixed(output: seq<real>, base: nat, from: nat, to: nat, weights: seq<real>, context: seq<KV>, column: nat, tokens: nat) {
    && tokens <= |weights| && tokens <= |context| && base + to <= |output|
    && forall x: nat :: base + from <= x < base + to ==> output[x] == Mix(weights, context, column + (x - base), tokens)
  }

  ghost predicate SameOutside(a: seq<real>, b: seq<real>, base: nat, n: nat) {
    |a| == |b| && forall x: nat :: x < |a| && (x < base || x >= base + n) ==> a[x] == b[x]
  }

  lemma MixStep(w: seq<real>, context: seq<KV>, j: int, n: nat)
    requires n < |w| && n < |context|
    ensures Mix(w, context, j, n + 1) == Mix(w, context, j, n) + w[n] * At(context[n].value, j)
  {
  }

  /** One token's values are added to the head's output, weighted. */
  method AddToken(k: Launch, ghost kvHeads: nat, ghost query: Vec, ghost keys: array<real>, values: array<real>, head: nat, token: nat,
                  ghost weights: seq<real>, weight: real, output: array<real>, base: nat)
    requires k.Fits(kvHeads, query, keys[..], values[..]) && head < k.s.headNum && token <= k.position
    requires |weights| == k.position + 1 && weights[token] == weight
    requires base + k.s.headSize <= output.Length && output != keys && output != values
    requires Mixed(output[..], base, 0, k.s.headSize, weights, ContextOf(k, keys[..], values[..], k.position + 1), k.s.Column(head), token)
    modifies output
    ensures Mixed(output[..], base, 0, k.s.headSize, weights, ContextOf(k, keys[..], values[..], k.position + 1), k.s.Column(head), token + 1)
    ensures SameOutside(old(output[..]), output[..], base, k.s.headSize)
  {
    hide ContextOf, Cell, Layout.Cells, Launch.Valid, Mix;
    ColumnBounds(k.s, kvHeads, k.g.kvDim, head);
    ghost var context := ContextOf(k, keys[..], values[..], k.position + 1);
    var column := k.s.Column(head);
    ghost var was := output[..];
    var dim := 0;
    while dim < k.s.headSize
      invariant 0 <= dim <= k.s.headSize
      invariant Mixed(output[..], base, 0, dim, weights, context, column, token + 1)
      invariant SameOutside(was, output[..], base, dim)
    {
      ContextAt(k, keys[..], values[..], token, column + dim);
      MixStep(weights, context, column + dim, token);
      assert output[..][base + dim] == was[base + dim];
      assert column + (base + dim - base) == column + dim;
      output[base + dim] := output[base + dim] + weight * values[Cell(k, token, column + dim)];
      dim := dim + 1;
    }
  }

  /** The output of one head: the values of all tokens, weighted by its row of scores. */
  method MixHead(k: Launch, ghost kvHeads: nat, ghost query: Vec, ghost keys: array<real>, values: array<real>, head: nat,
                 score: array<real>, scoreBase: nat, output: array<real>, base: nat)
    requires k.Fits(kvHeads, query, keys[..], values[..]) && head < k.s.headNum && scoreBase + k.position + 1 <= score.Length
    requires base + k.s.headSize <= output.Length && output != keys && output != values && output != score
    modifies output
    ensures Mixed(output[..], base, 0, k.s.headSize, score[scoreBase..scoreBase + k.position + 1],
                  ContextOf(k, keys[..], values[..], k.position + 1), k.s.Column(head), k.position + 1)
    ensures SameOutside(old(output[..]), output[..], base, k.s.headSize)
  {
    hide ContextOf, Launch.Valid, Layout.Cells;
    ghost var weights := score[scoreBase..scoreBase + k.position + 1];
    ghost var context := ContextOf(k, keys[..], values[..], k.position + 1);
    var dim := 0;
    while dim < k.s.headSize
      invariant 0 <= dim <= k.s.headSize
      invariant Mixed(output[..], base, 0, dim, weights, context, k.s.Column(head), 0)
      invariant SameOutside(old(output[..]), output[..], base, k.s.headSize)
    {
      output[base + dim] := 0.0;
      dim := dim + 1;
    }
    var token := 0;
    while token <= k.position
      invariant 0 <= token <= k.position + 1
      invariant Mixed(output[..], base, 0, k.s.headSize, weights, context, k.s.Column(head), token)
      invariant SameOutside(old(output[..]), output[..], base, k.s.headSize)
    {
      assert weights[token] == score[scoreBase + token];
      AddToken(k, kvHeads, query, keys, values, head, token, weights, score[scoreBase + token], output, base);
      token := token + 1;
    }
  }

  // ---------------------------------------------------------------- all heads

  /** One round of the head loop. */
  method AttendHead(k: Launch, ghost kvHeads: nat, query: Vec, keys: array<real>, values: array<real>, head: nat,
                    local: array<real>, score: array<real>, scoreBase: nat, output: array<real>, base: nat)
    requires k.Fits(kvHeads, query, keys[..], values[..]) && head < k.s.headNum && local.Length == k.position + 1
    requires scoreBase + k.position + 1 <= score.Length && base + k.s.headSize <= output.Length
    requires output != keys && output != values && score != keys && score != values && output != score
    requires local != keys && local != values && local != score && local != output
    modifies local, score, output
    ensures HeadDone(k.s, query, ContextOf(k, keys[..], values[..], k.position + 1), head, output[..], base)
    ensures SameOutside(old(output[..]), output[..], base, k.s.headSize)
  {
    hide ContextOf, Mix, Scores, Exps, Scaled, Sum, Layout.Cells;
    ScoreHead(k, kvHeads, query, keys, values, head, local);
    ghost var context := ContextOf(k, keys[..], values[..], k.position + 1);
    Softmax(k.s, local, score, scoreBase);
    assert score[scoreBase..scoreBase + k.position + 1] == Weights(k.s, query, context, head);
    MixHead(k, kvHeads, query, keys, values, head, score, scoreBase, output, base);
  }

  ghost predicate HeadDone(s: Heads, query: Vec, context: seq<KV>, head: nat, output: seq<real>, base: nat)
    requires s.Valid() && context != []
  {
    && base + s.headSize <= |output|
    && forall x: nat :: base <= x < base + s.headSize ==> output[x] == AttendAt(s, query, context, head, x - base)
  }

  ghost predicate HeadsDone(s: Heads, query: Vec, context: seq<KV>, heads: nat, output: seq<real>, base: nat)
    requires s.Valid() && context != []
  {
    forall h: nat :: h < heads ==> HeadDone(s, query, context, h, output, base + h * s.headSize)
  }

  lemma HeadsSnoc(s: Heads, query: Vec, context: seq<KV>, heads: nat, was: seq<real>, output: seq<real>, base: nat)
    requires s.Valid() && context != [] && HeadsDone(s, query, context, heads, was, base)
    requires SameOutside(was, output, base + heads * s.headSize, s.headSize)
    requires HeadDone(s, query, context, heads, output, base + heads * s.headSize)
    ensures HeadsDone(s, query, context, heads + 1, output, base)
  {
    hide HeadDone, SameOutside;
    forall h: nat | h < heads + 1 ensures HeadDone(s, query, context, h, output, base + h * s.headSize) {
      if h < heads {
        MulMonoStrict(h, heads, s.headSize);
        HeadKept(s, query, context, h, was, output, base + h * s.headSize, base + heads * s.headSize);
      }
    }
  }

  lemma HeadKept(s: Heads, query: Vec, context: seq<KV>, head: nat, was: seq<real>, output: seq<real>, base: nat, other: nat)
    requires s.Valid() && context != [] && HeadDone(s, query, context, head, was, base)
    requires SameOutside(was, output, other, s.headSize) && base + s.headSize <= other
    ensures HeadDone(s, query, context, head, output, base)
  {
    hide AttendAt;
  }

  /** paged_attention_cpu: the row's attention output, written to `output` from `base` on. `score` is a
      scratch buffer with a row of `stride` scores per head. */
  method PagedAttentionCpu(k: Launch, ghost kvHeads: nat, query: Vec, keys: array<real>, values: array<real>,
                           score: array<real>, stride: nat, output: array<real>, base: nat)
    requires k.Fits(kvHeads, query, keys[..], values[..]) && k.position < stride && k.s.headNum * stride <= score.Length
    requires base + k.s.headNum * k.s.headSize <= output.Length
    requires output != keys && output != values && score != keys && score != values && output != score
    modifies output, score
    ensures output[base..base + k.s.headNum * k.s.headSize] == Attend(k.s, query, ContextOf(k, keys[..], values[..], k.position + 1))
    ensures SameOutside(old(output[..]), output[..], base, k.s.headNum * k.s.headSize)
  {
    hide ContextOf, AttendAt, Layout.Cells, HeadDone, HeadsDone;
    ghost var context := ContextOf(k, keys[..], values[..], k.position + 1);
    var width := k.s.headNum * k.s.headSize;
    NoHeads(k.s, query, context, output[..], base);
    var local := new real[k.position + 1];
    var head := 0;
    while head < k.s.headNum
      invariant 0 <= head <= k.s.headNum
      invariant HeadsDone(k.s, query, context, head, output[..], base)
      invariant SameOutside(old(output[..]), output[..], base, width)
    {
      MulMono(0, head, k.s.headSize);
      MulMono(0, head, stride);
      MulMonoStrict(head, k.s.headNum, k.s.headSize);
      MulMonoStrict(head, k.s.headNum, stride);
      ghost var was := output[..];
      AttendHead(k, kvHeads, query, keys, values, head, local, score, head * stride, output, base + head * k.s.headSize);
      HeadsSnoc(k.s, query, context, head, was, output[..], base);
      OutsideTrans(old(output[..]), was, output[..], base, width, base + head * k.s.headSize, k.s.headSize);
      head := head + 1;
    }
    AttendIs(k.s, query, context, output[..], base);
  }

  lemma NoHeads(s: Heads, query: Vec, context: seq<KV>, output: seq<real>, base: nat)
    requires s.Valid() && context != []
    ensures HeadsDone(s, query, context, 0, output, base)
  {
  }

  lemma OutsideTrans(a: seq<real>, b: seq<real>, c: seq<real>, base: nat, n: nat, base': nat, n': nat)
    requires SameOutside(a, b, base, n) && SameOutside(b, c, base', n') && base <= base' && base' + n' <= base + n
    ensures SameOutside(a, c, base, n)
  {
  }

  lemma AttendIs(s: Heads, query: Vec, context: seq<KV>, output: seq<real>, base: nat)
    requires s.Valid() && context != [] && HeadsDone(s, query, context, s.headNum, output, base)
    requires base + s.headNum * s.headSize <= |output|
    ensures output[base..base + s.headNum * s.headSize] == Attend(s, query, context)
  {
    hide AttendAt;
    var r := output[base..base + s.headNum * s.headSize];
    forall i: nat | i < |r| ensures r[i] == Attend(s, query, context)[i] {
      DivBounds(i, s.headSize);
      var h, d := i / s.headSize, i % s.headSize;
      if h >= s.headNum {
        MulMono(s.headNum, h, s.headSize);
        assert false;
      }
      assert HeadDone(s, query, context, h, output, base + h * s.headSize);
    }
  }
}
