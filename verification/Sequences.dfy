/** Per-request state and the pure accessors of engine/src/sequence.cpp. */
module Sequences {
  import opened Common
  import opened Blocks

  datatype SeqState = SeqState(
    id: nat,
    tokens: seq<Token>,
    promptSize: nat,
    sampling: Sampling,
    rng: Rng,
    status: SequenceStatus,
    table: seq<nat>,
    cached: nat,
    scheduled: nat,
    isPrefill: bool)
  {
    function CompletionSize(): int {
      |tokens| - promptSize
    }

    /** The limit is compared as an unsigned number, so a negative one is never reached. */
    predicate ReachedLimit() {
      sampling.maxTokens >= 0 && CompletionSize() >= sampling.maxTokens
    }
  }

  /** Sequence::block_tokens: the tokens of one block, cut short at the end of the sequence. */
  function BlockTokens(tokens: seq<Token>, index: nat, size: int): seq<Token>
    requires size > 0
  {
    var begin := index * size;
    var end := if begin + size < |tokens| then begin + size else |tokens|;
    if begin >= end then [] else tokens[begin..end]
  }

  /** The state a request starts in: nothing cached, generator seeded by the id unless a seed is given. */
  function NewSequence(id: nat, prompt: seq<Token>, sampling: Sampling): SeqState {
    SeqState(id, prompt, |prompt|, sampling, Rng(if sampling.seed == 0 then id else sampling.seed, 0),
             Waiting, [], 0, 0, true)
  }

  lemma FullBlock(tokens: seq<Token>, index: nat, size: int)
    requires size > 0 && index * size + size <= |tokens|
    ensures BlockTokens(tokens, index, size) == tokens[index * size..index * size + size]
    ensures |BlockTokens(tokens, index, size)| == size
  {
  }

  lemma BlockTokensOfPrefix(a: seq<Token>, b: seq<Token>, index: nat, size: int)
    requires size > 0 && index * size + size <= |a| && index * size + size <= |b|
    requires a[..index * size + size] == b[..index * size + size]
    ensures BlockTokens(a, index, size) == BlockTokens(b, index, size)
  {
    FullBlock(a, index, size);
    FullBlock(b, index, size);
    var lo, hi := index * size, index * size + size;
    assert a[lo..hi] == a[..hi][lo..];
    assert b[lo..hi] == b[..hi][lo..];
  }
}
