/** What the reference answers with, token by token: how it starts, what each token is drawn from, and where it
    ends, in terms of the network on the whole text and the request's own parameters. */
module AnswerLaws {
  import opened Common
  import opened Sequences
  import opened Attention
  import opened Transformer
  import opened TokenSampling
  import opened Generation

  /** The token that follows a text, and the generator that its draw leaves: at temperature (almost) zero the
      first of the greatest logits and no draw; else one draw on the weights of the logits. */
  ghost predicate Follows(w: World, text: seq<Token>, sampling: Sampling, rng: Rng, token: Token, rng': Rng)
    requires w.Valid()
  {
    && text != []
    && var logits := w.m.logits(LayersOn(w.m, w.m.layers, text)[|text| - 1]);
       if sampling.temperature <= 0.000001 then
         && rng' == rng && 0 <= token < |logits|
         && forall j: nat :: j < |logits| ==> logits[j] <= logits[token] && (j < token ==> logits[j] < logits[token])
       else
         exists weights: seq<real> ::
           && DrawnWeights(w.sampler, logits, sampling.temperature, sampling.topP, weights)
           && token == w.sampler.pick(weights, rng).0 && rng' == w.sampler.pick(weights, rng).1
  }

  lemma NextFollows(w: World, text: seq<Token>, sampling: Sampling, rng: Rng)
    requires w.Valid() && text != []
    ensures Follows(w, text, sampling, rng, Next(w, text, sampling, rng).0, Next(w, text, sampling, rng).1)
  {
    hide DrawnWeights, Logits, LayersOn;
    LogitsLayerWise(w.m, text);
    var logits := Logits(w.m, text);
    if sampling.temperature > 0.000001 {
      var weights := DrawMeaning(w.sampler, logits, sampling.temperature, sampling.topP, rng);
    }
  }

  /** `rngs` are the states of the generator from one token to the next. */
  ghost predicate Drawn(w: World, start: nat, whole: seq<Token>, sampling: Sampling, rngs: seq<Rng>)
    requires w.Valid()
  {
    && start <= |whole| && |rngs| == |whole| - start + 1
    && forall k: nat :: k < |whole| - start ==> Follows(w, whole[..start + k], sampling, rngs[k], whole[start + k], rngs[k + 1])
  }

  lemma DrawnMore(w: World, whole: seq<Token>, start: nat, sampling: Sampling, rng: Rng, rngs: seq<Rng>)
    requires w.Valid() && start < |whole| && Drawn(w, start + 1, whole, sampling, rngs)
    requires Follows(w, whole[..start], sampling, rng, whole[start], rngs[0])
    ensures Drawn(w, start, whole, sampling, [rng] + rngs)
  {
    hide Follows;
    var more := [rng] + rngs;
    forall k: nat | k < |whole| - start ensures Follows(w, whole[..start + k], sampling, more[k], whole[start + k], more[k + 1]) {
      if k > 0 {
        var j: nat := k - 1;
        assert Follows(w, whole[..start + 1 + j], sampling, rngs[j], whole[start + 1 + j], rngs[j + 1]);
      }
    }
  }

  lemma {:induction false} CompleteDrawn(w: World, tokens: seq<Token>, promptSize: nat, sampling: Sampling, rng: Rng) returns (rngs: seq<Rng>)
    requires w.Valid() && tokens != []
    ensures Drawn(w, |tokens|, Complete(w, tokens, promptSize, sampling, rng), sampling, rngs) && rngs[0] == rng
    decreases sampling.maxTokens - (|tokens| - promptSize)
  {
    hide Next, Follows, Stopped;
    var (token, rng') := Next(w, tokens, sampling, rng);
    var tokens' := tokens + [token];
    var whole := Complete(w, tokens, promptSize, sampling, rng);
    NextFollows(w, tokens, sampling, rng);
    assert whole[..|tokens|] == tokens && whole[|tokens|] == token by {
      assert tokens' <= whole;
    }
    if Stopped(w, tokens', promptSize, sampling) {
      rngs := [rng'];
    } else {
      StillShort(w, tokens', promptSize, sampling);
      rngs := CompleteDrawn(w, tokens', promptSize, sampling, rng');
    }
    DrawnMore(w, whole, |tokens|, sampling, rng, rngs);
    rngs := [rng] + rngs;
  }

  lemma StillShort(w: World, tokens: seq<Token>, promptSize: nat, sampling: Sampling)
    requires tokens != [] && !Stopped(w, tokens, promptSize, sampling)
    ensures |tokens| - promptSize < sampling.maxTokens
  {
  }

  lemma Rejoined(a: seq<Token>, whole: seq<Token>)
    requires a <= whole
    ensures a + whole[|a|..] == whole
  {
  }

  /** The answer to a request: its generator starts from its own seed, or from its id if it has none, and
      each token follows from the whole text so far. */
  lemma AnswerDrawn(w: World, id: nat, prompt: seq<Token>, sampling: Sampling) returns (rngs: seq<Rng>)
    requires w.Valid() && prompt != []
    ensures Drawn(w, |prompt|, prompt + Answer(w, id, prompt, sampling), sampling, rngs)
    ensures rngs[0] == Rng(if sampling.seed != 0 then sampling.seed else id, 0)
  {
    hide Complete, Follows, Drawn;
    var rng := NewSequence(id, prompt, sampling).rng;
    rngs := CompleteDrawn(w, prompt, |prompt|, sampling, rng);
    Rejoined(prompt, Complete(w, prompt, |prompt|, sampling, rng));
  }

  /** It has at least one token and at most max_tokens. Unless end tokens are ignored, none stands before its
      last; and if it is shorter than max_tokens, an end token is what ended it. */
  lemma AnswerEnds(w: World, id: nat, prompt: seq<Token>, sampling: Sampling)
    requires w.Valid() && prompt != [] && sampling.maxTokens > 0
    ensures var a := Answer(w, id, prompt, sampling);
      && 1 <= |a| <= sampling.maxTokens
      && (!sampling.ignoreEos ==> forall k: nat :: k + 1 < |a| ==> !w.isEos(a[k]))
      && (|a| < sampling.maxTokens ==> !sampling.ignoreEos && w.isEos(a[|a| - 1]))
  {
    hide Complete, Stopped, NewSequence, World.Valid;
    var rng := NewSequence(id, prompt, sampling).rng;
    CompleteStops(w, prompt, |prompt|, sampling, rng);
    StopsLast(w, prompt, sampling, Complete(w, prompt, |prompt|, sampling, rng));
  }

  lemma StopsLast(w: World, prompt: seq<Token>, sampling: Sampling, whole: seq<Token>)
    requires prompt != [] && prompt <= whole && 1 <= |whole| - |prompt| <= sampling.maxTokens
    requires Stopped(w, whole, |prompt|, sampling)
    requires forall n :: |prompt| < n < |whole| ==> !Stopped(w, whole[..n], |prompt|, sampling)
    ensures var a := whole[|prompt|..];
      && (!sampling.ignoreEos ==> forall k: nat :: k + 1 < |a| ==> !w.isEos(a[k]))
      && (|a| < sampling.maxTokens ==> !sampling.ignoreEos && w.isEos(a[|a| - 1]))
  {
    var a := whole[|prompt|..];
    forall k: nat | k + 1 < |a| ensures !sampling.ignoreEos ==> !w.isEos(a[k]) {
      assert !Stopped(w, whole[..|prompt| + k + 1], |prompt|, sampling);
    }
  }
}
