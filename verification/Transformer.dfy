/** The decoder as a function of the text alone: every position recomputed from the tokens up to it,
    with no cache. This is what a request is meant to be answered with. */
module Transformer {
  import opened Common
  import opened Attention

  /** The row-wise parts of the network. `query` and `keyOf` include the norms and the rotary
      embedding of the position, `post` the output projection, both residuals and the feed-forward. */
  datatype Model = Model(
    layers: nat,
    heads: Heads,
    embed: Token -> Vec,
    query: (nat, Vec, nat) -> Vec,
    keyOf: (nat, Vec, nat) -> Vec,
    valueOf: (nat, Vec) -> Vec,
    post: (nat, Vec, Vec) -> Vec,
    logits: Vec -> Vec)
  {
    ghost predicate Valid() {
      heads.Valid()
    }
  }

  /** The input of layer `layer` at position `pos`. */
  ghost function Hidden(m: Model, tokens: seq<Token>, layer: nat, pos: nat): Vec
    requires m.Valid() && pos < |tokens|
    decreases layer, 0, 0
  {
    if layer == 0 then m.embed(tokens[pos])
    else
      var h := Hidden(m, tokens, layer - 1, pos);
      m.post(layer - 1, h, Attend(m.heads, m.query(layer - 1, h, pos), Context(m, tokens, layer - 1, pos + 1)))
  }

  ghost function KvAt(m: Model, tokens: seq<Token>, layer: nat, pos: nat): KV
    requires m.Valid() && pos < |tokens|
    decreases layer, 1, 0
  {
    var h := Hidden(m, tokens, layer, pos);
    KV(m.keyOf(layer, h, pos), m.valueOf(layer, h))
  }

  /** The keys and values of the first `n` positions. */
  ghost function Context(m: Model, tokens: seq<Token>, layer: nat, n: nat): (r: seq<KV>)
    requires m.Valid() && n <= |tokens|
    ensures |r| == n
    decreases layer, 2, n
  {
    if n == 0 then [] else Context(m, tokens, layer, n - 1) + [KvAt(m, tokens, layer, n - 1)]
  }

  /** The logits of the token that follows `tokens`. */
  ghost function Logits(m: Model, tokens: seq<Token>): Vec
    requires m.Valid() && tokens != []
  {
    m.logits(Hidden(m, tokens, m.layers, |tokens| - 1))
  }

  lemma {:induction false} ContextAt(m: Model, tokens: seq<Token>, layer: nat, n: nat, q: nat)
    requires m.Valid() && q < n <= |tokens|
    ensures Context(m, tokens, layer, n)[q] == KvAt(m, tokens, layer, q)
    decreases n
  {
    hide KvAt;
    if q < n - 1 {
      ContextAt(m, tokens, layer, n - 1, q);
    }
  }

  /** What is computed for a position depends only on the tokens up to it. */
  lemma {:induction false} Causal(m: Model, a: seq<Token>, b: seq<Token>, layer: nat, pos: nat)
    requires m.Valid() && pos < |a| && pos < |b| && a[..pos + 1] == b[..pos + 1]
    ensures Hidden(m, a, layer, pos) == Hidden(m, b, layer, pos)
    decreases layer, 0, 0
  {
    assert a[pos] == a[..pos + 1][pos] && b[pos] == b[..pos + 1][pos];
    if layer > 0 {
      Causal(m, a, b, layer - 1, pos);
      CausalContext(m, a, b, layer - 1, pos + 1);
    }
  }

  lemma {:induction false} CausalContext(m: Model, a: seq<Token>, b: seq<Token>, layer: nat, n: nat)
    requires m.Valid() && n <= |a| && n <= |b| && a[..n] == b[..n]
    ensures Context(m, a, layer, n) == Context(m, b, layer, n)
    decreases layer, 2, n
  {
    if n > 0 {
      assert a[..n - 1] == a[..n][..n - 1] && b[..n - 1] == b[..n][..n - 1];
      CausalContext(m, a, b, layer, n - 1);
      Causal(m, a, b, layer, n - 1);
    }
  }

  /** The keys and values of a position are those of the prefix that ends with it. */
  lemma KvOfPrefix(m: Model, tokens: seq<Token>, layer: nat, pos: nat)
    requires m.Valid() && pos < |tokens|
    ensures KvAt(m, tokens[..pos + 1], layer, pos) == KvAt(m, tokens, layer, pos)
  {
    assert tokens[..pos + 1][..pos + 1] == tokens[..pos + 1];
    hide Hidden;
    Causal(m, tokens[..pos + 1], tokens, layer, pos);
  }

  // ---------------------------------------------------------------- layer by layer over the whole text

  /** The keys and values of a layer's inputs `hs`, up to position `pos`. */
  ghost function Seen(m: Model, layer: nat, hs: seq<Vec>, pos: nat): (r: seq<KV>)
    requires pos < |hs|
    ensures |r| == pos + 1
  {
    seq(pos + 1, j requires 0 <= j <= pos => KV(m.keyOf(layer, hs[j], j), m.valueOf(layer, hs[j])))
  }

  /** One layer on all positions: each attends to itself and to those before it. */
  ghost function LayerOn(m: Model, layer: nat, hs: seq<Vec>): (r: seq<Vec>)
    requires m.Valid()
    ensures |r| == |hs|
  {
    seq(|hs|, pos requires 0 <= pos < |hs| =>
      m.post(layer, hs[pos], Attend(m.heads, m.query(layer, hs[pos], pos), Seen(m, layer, hs, pos))))
  }

  ghost function LayersOn(m: Model, layers: nat, tokens: seq<Token>): (r: seq<Vec>)
    requires m.Valid()
    ensures |r| == |tokens|
  {
    if layers == 0 then seq(|tokens|, pos requires 0 <= pos < |tokens| => m.embed(tokens[pos]))
    else LayerOn(m, layers - 1, LayersOn(m, layers - 1, tokens))
  }

  /** The reference position by position is the network layer by layer on the whole text, with a causal
      mask. */
  lemma {:induction false} LayerWise(m: Model, tokens: seq<Token>, layer: nat, pos: nat)
    requires m.Valid() && pos < |tokens|
    ensures Hidden(m, tokens, layer, pos) == LayersOn(m, layer, tokens)[pos]
    decreases layer
  {
    hide Attend;
    if layer > 0 {
      var hs := LayersOn(m, layer - 1, tokens);
      var context := Context(m, tokens, layer - 1, pos + 1);
      forall j: nat | j <= pos ensures context[j] == Seen(m, layer - 1, hs, pos)[j] && Hidden(m, tokens, layer - 1, j) == hs[j] {
        LayerWise(m, tokens, layer - 1, j);
        ContextAt(m, tokens, layer - 1, pos + 1, j);
      }
      assert context == Seen(m, layer - 1, hs, pos);
    }
  }

  /** And the next token's logits are those of the last position behind the last layer. */
  lemma LogitsLayerWise(m: Model, tokens: seq<Token>)
    requires m.Valid() && tokens != []
    ensures Logits(m, tokens) == m.logits(LayersOn(m, m.layers, tokens)[|tokens| - 1])
  {
    LayerWise(m, tokens, m.layers, |tokens| - 1);
    hide Hidden, LayersOn;
  }
}
