/** What the invariants of reachable states say, one promise at a time. */
module Corollaries {
  import opened Common
  import opened Blocks
  import opened Sequences
  import opened BlockPool
  import opened BlockInvariants
  import opened PrefixCache
  import opened AllocationProofs
  import opened SchedulerSpec
  import opened SchedulerProofs
  import opened PostprocessProofs
  import opened ScheduleProofs
  import opened Attention
  import opened Transformer
  import opened PagedBatch
  import opened Generation
  import opened EngineSpec
  import opened RunProofs
  import opened RunPlanProofs
  import opened RequestProofs
  import opened BatchProofs
  import opened Engine

  /** Every ref count is the number of places that hold the block, exactly the blocks held nowhere are
      free, and every index entry points to a valid block with that hash. */
  lemma BlocksConserved(w: World, e: State)
    requires EngineInv(w, e)
    ensures var p := e.sched.pool;
      && |p.blocks| == w.c.numKvBlocks
      && (forall b: nat :: b < |p.blocks| ==> p.blocks[b].refCount == Occ(e.sched.seqs, b))
      && (forall b: nat :: b in p.free <==> b < |p.blocks| && Occ(e.sched.seqs, b) == 0)
      && (forall h :: h in p.index ==> p.index[h] < |p.blocks| && p.blocks[p.index[h]].hashValid && p.blocks[p.index[h]].hash == h)
  {
    hide QueuesOk, SeqsOk, RequestsOk, Matches, TokensFit, PlanOk, Numbered, TablesOk, Occ, OriginsOk;
  }

  /** A computed full block of a sequence holds that sequence's own tokens, whatever the hash function
      does. */
  lemma HashedBlocksMatch(w: World, e: State, i: nat, k: nat)
    requires EngineInv(w, e) && i < |e.sched.seqs| && k < e.sched.seqs[i].cached / w.c.blockSize
    ensures var s := e.sched.seqs[i];
      && k < |s.table| && s.table[k] < |e.sched.pool.blocks|
      && e.sched.pool.blocks[s.table[k]].hashValid
      && e.sched.pool.blocks[s.table[k]].tokens == BlockTokens(s.tokens, k, w.c.blockSize)
      && e.sched.pool.blocks[s.table[k]].hash == Chain(w.c, s.tokens, k + 1)
  {
    hide QueuesOk, SeqsOk, RequestsOk, Matches, TokensFit, PlanOk, Numbered, PoolOk, Chain, BlockTokens;
    var seqs := e.sched.seqs;
    assert SeqBlocks(w.c, e.sched.pool.blocks, seqs[i], Bound(w.c, seqs, |seqs|, 0, i));
    assert HashedEntry(w.c, e.sched.pool.blocks, seqs[i], k);
  }

  lemma HoldsAt(m: Model, cache: Cache, x: int, tokens: seq<Token>, pos: nat, l: nat)
    requires m.Valid() && pos < |tokens| && HoldsPos(m, cache, x, tokens, pos) && l < m.layers
    ensures |cache| == m.layers && 0 <= x < |cache[l]| && cache[l][x] == KvAt(m, tokens, l, pos)
  {
    hide KvAt;
    var kv := KvAt(m, tokens, l, pos);
    assert 0 <= x < |cache[l]| && cache[l][x] == kv;
  }

  /** And unless chain hashes collided, every slot of a cached position holds the keys and values of
      exactly that sequence's own text. */
  lemma CachedSlotsRight(w: World, e: State, i: nat, pos: nat, l: nat)
    requires EngineInv(w, e) && Right(w, e) && i < |e.sched.seqs| && pos < e.sched.seqs[i].cached && l < w.m.layers
    ensures var s := e.sched.seqs[i];
      && pos < |s.tokens| && pos / w.c.blockSize < |s.table|
      && |e.cache| == w.m.layers && 0 <= SlotOf(w.c.blockSize, s.table, pos) < |e.cache[l]|
      && e.cache[l][SlotOf(w.c.blockSize, s.table, pos)] == KvAt(w.m, s.tokens, l, pos)
  {
    hide Inv, RequestsOk, Matches, TokensFit, PlanOk, Numbered, WellFormed, KvAt, SlotOf, HoldsOf, Follows, OriginKv;
    var seqs, s := e.sched.seqs, e.sched.seqs[i];
    assert SeqKv(w.c, HoldsOf(w.m, e.cache), s, ReadyBound(seqs, |seqs|, 0, e.phase.Ran?, i));
    var x := SlotOf(w.c.blockSize, s.table, pos);
    assert HoldsOf(w.m, e.cache)(x, s.tokens[..pos + 1]);
    HoldsPrefix(w.m, e.cache, x, s.tokens, pos);
    HoldsAt(w.m, e.cache, x, s.tokens, pos, l);
  }

  /** Between steps a running sequence lacks exactly the keys and values of its last token, with blocks for
      just the others; of the waiting ones only the front may hold blocks. */
  lemma IdleShape(w: World, e: State, i: nat)
    requires EngineInv(w, e) && e.phase.Idle? && i < |e.sched.seqs|
    ensures i in e.sched.running ==> e.sched.seqs[i].cached + 1 == |e.sched.seqs[i].tokens| && |e.sched.seqs[i].table| == NumBlocks(e.sched.seqs[i].cached, w.c.blockSize)
    ensures i in e.sched.waiting && e.sched.waiting[0] != i ==> e.sched.seqs[i].table == []
  {
    hide BlocksIdle, RequestsOk, Numbered, NumBlocks;
    assert SeqOk(w.c, e.sched.seqs[i], RoleOf(e.sched, i));
  }

  /** Every request is in exactly one place: waiting, running or finished. */
  lemma OnePlace(w: World, e: State, i: nat)
    requires EngineInv(w, e) && i < |e.sched.seqs|
    ensures i in e.sched.waiting ==> i !in e.sched.running && e.sched.seqs[i].status == Waiting
    ensures i in e.sched.running ==> i !in e.sched.waiting && e.sched.seqs[i].status == Running
    ensures e.sched.seqs[i].status == Finished <==> i !in e.sched.waiting && i !in e.sched.running
  {
    hide BlocksIdle, RequestsOk, Matches, TokensFit, PlanOk, Numbered;
    assert SeqOk(w.c, e.sched.seqs[i], RoleOf(e.sched, i));
  }

  /** The block of a position is unhashed and held once, and no other position has its slot. */
  ghost predicate WritesAlone(c: Config, p: Pool, seqs: seq<SeqState>, i: nat, pos: nat)
    requires i < |seqs| && pos / c.blockSize < |seqs[i].table|
  {
    var b := seqs[i].table[pos / c.blockSize];
    && b < |p.blocks| && p.blocks[b].refCount == 1 && !p.blocks[b].hashValid
    && forall j: nat, q: nat :: j < |seqs| && q / c.blockSize < |seqs[j].table| && (j != i || q != pos) ==>
         SlotOf(c.blockSize, seqs[j].table, q) != SlotOf(c.blockSize, seqs[i].table, pos)
  }

  /** Every position a plan computes lies in a block of ref count 1 that is not hashed, and its slot is that
      of no other position of any sequence. */
  lemma PlannedSlotsExclusive(w: World, e: State, i: nat, pos: nat)
    requires EngineInv(w, e) && i < |e.sched.seqs|
    requires e.sched.seqs[i].cached <= pos < e.sched.seqs[i].cached + e.sched.seqs[i].scheduled && pos / w.c.blockSize < |e.sched.seqs[i].table|
    ensures WritesAlone(w.c, e.sched.pool, e.sched.seqs, i, pos)
  {
    hide BlocksIdle, QueuesOk, SeqsOk, RequestsOk, Matches, TokensFit, PlanOk, Numbered, SlotOf;
    WriteExclusive(w.c, e.sched.pool, e.sched.seqs, i, pos);
  }

  /** And the table does cover every position that is computed. */
  lemma PlannedSlotsCovered(w: World, e: State, i: nat, pos: nat)
    requires EngineInv(w, e) && i < |e.sched.seqs| && pos < e.sched.seqs[i].cached + e.sched.seqs[i].scheduled
    ensures pos < |e.sched.seqs[i].tokens| && pos / w.c.blockSize < |e.sched.seqs[i].table|
  {
    hide BlocksIdle, RequestsOk, Matches, TokensFit, PlanOk, Numbered;
    var s := e.sched.seqs[i];
    assert SeqOk(w.c, s, RoleOf(e.sched, i));
    hide QueuesOk, SeqsOk;
    var n := s.cached + s.scheduled;
    if n > 0 {
      NumBlocksSucc(pos, w.c.blockSize);
      NumBlocksMono(pos + 1, n, w.c.blockSize);
      NumBlocksMono(n, |s.tokens|, w.c.blockSize);
    }
  }
}
