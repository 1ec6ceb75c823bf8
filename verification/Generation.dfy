/** What a request is to be answered with: one token after the other, each sampled from the logits of
    the whole text so far, with the request's own generator. Nothing here knows of batches, blocks,
    chunks or preemption. */
module Generation {
  import opened Common
  import opened Sequences
  import opened Attention
  import opened Transformer
  import opened TokenSampling

  /** The engine's surroundings; `contextLen` is the model's context window. */
  datatype World = World(
    c: Config,
    m: Model,
    contextLen: nat,
    isEos: Token -> bool,
    sampler: Sampler)
  {
    ghost predicate Valid() {
      m.Valid() && sampler.Valid() && forall h: Vec :: m.logits(h) != []
    }
  }

  /** std::max_element's position: the first greatest entry. */
  function ArgMax(xs: seq<real>): (i: nat)
    requires xs != []
    ensures i < |xs|
    ensures forall j :: 0 <= j < |xs| ==> xs[j] <= xs[i]
    ensures forall j :: 0 <= j < i ==> xs[j] < xs[i]
  {
    if |xs| == 1 then 0
    else
      var i := ArgMax(xs[..|xs| - 1]);
      assert forall j :: 0 <= j < |xs| - 1 ==> xs[j] == xs[..|xs| - 1][j];
      if xs[i] < xs[|xs| - 1] then |xs| - 1 else i
  }

  /** LLMEngine::sample: greedy at temperature (almost) zero, without touching the generator. */
  ghost function Sample(w: World, logits: Vec, sampling: Sampling, rng: Rng): (nat, Rng)
    requires logits != [] && w.sampler.Valid()
  {
    if sampling.temperature <= 0.000001 then (ArgMax(logits), rng)
    else Draw(w.sampler, logits, sampling.temperature, sampling.topP, rng)
  }

  /** The next token of a text, by the uncached reference. */
  ghost function Next(w: World, tokens: seq<Token>, sampling: Sampling, rng: Rng): (nat, Rng)
    requires w.Valid() && tokens != []
  {
    Sample(w, Logits(w.m, tokens), sampling, rng)
  }

  /** Does the text stop after its last token? */
  ghost predicate Stopped(w: World, tokens: seq<Token>, promptSize: nat, sampling: Sampling)
    requires tokens != []
  {
    || (!sampling.ignoreEos && w.isEos(tokens[|tokens| - 1]))
    || |tokens| - promptSize >= sampling.maxTokens
  }

  /** The whole text of a request, generated naively from `tokens` on. */
  ghost function Complete(w: World, tokens: seq<Token>, promptSize: nat, sampling: Sampling, rng: Rng): (r: seq<Token>)
    requires w.Valid() && tokens != []
    ensures tokens <= r
    decreases sampling.maxTokens - (|tokens| - promptSize)
  {
    var (token, rng') := Next(w, tokens, sampling, rng);
    var tokens' := tokens + [token];
    if Stopped(w, tokens', promptSize, sampling) then tokens'
    else Complete(w, tokens', promptSize, sampling, rng')
  }

  /** The tokens a request is answered with. */
  ghost function Answer(w: World, id: nat, prompt: seq<Token>, sampling: Sampling): seq<Token>
    requires w.Valid() && prompt != []
  {
    Complete(w, prompt, |prompt|, sampling, NewSequence(id, prompt, sampling).rng)[|prompt|..]
  }

  /** An answer has at least one token and at most max_tokens; it stops at the first end token unless
      that is to be ignored, and goes on to the limit otherwise. */
  lemma {:induction false} CompleteStops(w: World, tokens: seq<Token>, promptSize: nat, sampling: Sampling, rng: Rng)
    requires w.Valid() && tokens != [] && promptSize <= |tokens| < promptSize + sampling.maxTokens
    ensures var r := Complete(w, tokens, promptSize, sampling, rng);
      && |tokens| < |r| <= promptSize + sampling.maxTokens
      && Stopped(w, r, promptSize, sampling)
      && (forall n :: |tokens| < n < |r| ==> !Stopped(w, r[..n], promptSize, sampling))
    decreases sampling.maxTokens - (|tokens| - promptSize)
  {
    hide Next;
    var (token, rng') := Next(w, tokens, sampling, rng);
    var tokens' := tokens + [token];
    var r := Complete(w, tokens, promptSize, sampling, rng);
    if !Stopped(w, tokens', promptSize, sampling) {
      CompleteStops(w, tokens', promptSize, sampling, rng');
      assert r == Complete(w, tokens', promptSize, sampling, rng');
      assert r[..|tokens| + 1] == tokens';
    }
  }
}
