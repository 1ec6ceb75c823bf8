/** One prefix for every slot: whatever the memory contains, each slot can be labelled with the prefix it
    was last computed for, and every slot that a sequence may read carries that sequence's own prefix.
    So different positions of one sequence never share a slot, unless chain hashes collided. */
module SlotLabels {
  import opened Common
  import opened Counting
  import opened Blocks
  import opened Sequences
  import opened BlockPool
  import opened BlockInvariants
  import opened PrefixCache
  import opened AllocationProofs
  import opened SchedulerSpec
  import opened SchedulerProofs
  import opened PostprocessProofs
  import opened ScheduleProofs
  import opened RunProofs

  type Labels = imap<int, seq<Token>>

  ghost function Carries(labels: Labels): Holds {
    (x: int, prefix: seq<Token>) => x in labels && labels[x] == prefix
  }

  /** Some labelling fits the state. */
  ghost predicate Labelled(c: Config, p: Pool, seqs: seq<SeqState>, ran: bool) {
    exists labels: Labels :: KvIdle(c, p, Carries(labels), seqs, ran)
  }

  lemma LabelledBy(c: Config, p: Pool, seqs: seq<SeqState>, ran: bool, labels: Labels)
    requires KvIdle(c, p, Carries(labels), seqs, ran)
    ensures Labelled(c, p, seqs, ran)
  {
  }

  lemma SomeLabels(c: Config, p: Pool, seqs: seq<SeqState>, ran: bool) returns (labels: Labels)
    requires Labelled(c, p, seqs, ran)
    ensures KvIdle(c, p, Carries(labels), seqs, ran)
  {
    labels :| KvIdle(c, p, Carries(labels), seqs, ran);
  }

  // ---------------------------------------------------------------- running a plan

  /** Position `pos` of sequence `i` is computed by the plan that is scheduled. */
  ghost predicate Computes(c: Config, seqs: seq<SeqState>, i: nat, pos: nat) {
    && i < |seqs| && seqs[i].cached <= pos < seqs[i].cached + seqs[i].scheduled
    && pos < |seqs[i].tokens| && pos / c.blockSize < |seqs[i].table|
  }

  ghost predicate ComputesAt(c: Config, seqs: seq<SeqState>, x: int, i: nat, pos: nat) {
    Computes(c, seqs, i, pos) && SlotOf(c.blockSize, seqs[i].table, pos) == x
  }

  ghost predicate Written(c: Config, seqs: seq<SeqState>, x: int) {
    exists i: nat, pos: nat :: ComputesAt(c, seqs, x, i, pos)
  }

  ghost function NewLabel(c: Config, seqs: seq<SeqState>, x: int): seq<Token>
    requires Written(c, seqs, x)
  {
    var i: nat, pos: nat :| ComputesAt(c, seqs, x, i, pos);
    seqs[i].tokens[..pos + 1]
  }

  /** The labels once the scheduled positions are computed. */
  ghost function Relabelled(c: Config, seqs: seq<SeqState>, labels: Labels): Labels {
    imap x: int | Written(c, seqs, x) || x in labels :: if Written(c, seqs, x) then NewLabel(c, seqs, x) else labels[x]
  }

  /** A computed position gets its own prefix as a label: no other position is computed into its slot. */
  lemma NewLabelIs(c: Config, p: Pool, seqs: seq<SeqState>, i: nat, pos: nat)
    requires BlocksIdle(c, p, seqs) && Computes(c, seqs, i, pos)
    ensures var x := SlotOf(c.blockSize, seqs[i].table, pos);
      Written(c, seqs, x) && NewLabel(c, seqs, x) == seqs[i].tokens[..pos + 1]
  {
    hide BlocksIdle, SlotOf;
    var x := SlotOf(c.blockSize, seqs[i].table, pos);
    assert ComputesAt(c, seqs, x, i, pos);
    WriteExclusive(c, p, seqs, i, pos);
  }

  /** A slot of a cached position, or of a hashed block, keeps its label. */
  lemma KeepsLabel(c: Config, p: Pool, seqs: seq<SeqState>, labels: Labels, x: int)
    requires BlocksIdle(c, p, seqs)
    requires (exists j: nat, q: nat :: CachedAt(c, seqs, x, j, q)) || (exists b: nat, o: nat :: HashedAt(c, p, x, b, o))
    ensures !Written(c, seqs, x)
  {
    hide BlocksIdle, SlotOf, SlotIn;
    forall i: nat, pos: nat ensures !ComputesAt(c, seqs, x, i, pos) {
      if ComputesAt(c, seqs, x, i, pos) {
        WriteExclusive(c, p, seqs, i, pos);
        assert false;
      }
    }
  }

  ghost predicate CachedAt(c: Config, seqs: seq<SeqState>, x: int, j: nat, q: nat) {
    j < |seqs| && q < seqs[j].cached && q / c.blockSize < |seqs[j].table| && SlotOf(c.blockSize, seqs[j].table, q) == x
  }

  ghost predicate HashedAt(c: Config, p: Pool, x: int, b: nat, o: nat) {
    b < |p.blocks| && p.blocks[b].hashValid && o < c.blockSize && SlotIn(c.blockSize, b, o) == x
  }

  /** What has been computed once the plan ran, as far as the table goes. */
  lemma ScheduledCovered(c: Config, st: Sched, i: nat)
    requires Inv(c, st) && i < |st.seqs|
    ensures var s := st.seqs[i];
      s.cached + s.scheduled <= |s.tokens| && forall pos: nat :: pos < s.cached + s.scheduled ==> pos / c.blockSize < |s.table|
  {
    hide BlocksIdle;
    var s := st.seqs[i];
    assert SeqOk(c, s, RoleOf(st, i));
    hide QueuesOk, SeqsOk;
    forall pos: nat | pos < s.cached + s.scheduled ensures pos / c.blockSize < |s.table| {
      NumBlocksSucc(pos, c.blockSize);
      NumBlocksMono(pos + 1, s.cached + s.scheduled, c.blockSize);
      NumBlocksMono(s.cached + s.scheduled, |s.tokens|, c.blockSize);
    }
  }

  lemma RunSeqLabels(c: Config, st: Sched, labels: Labels, i: nat)
    requires Inv(c, st) && KvIdle(c, st.pool, Carries(labels), st.seqs, false) && i < |st.seqs|
    ensures SeqKv(c, Carries(Relabelled(c, st.seqs, labels)), st.seqs[i], Ready(st.seqs[i], true))
  {
    var seqs, s := st.seqs, st.seqs[i];
    ScheduledCovered(c, st, i);
    assert BlocksIdle(c, st.pool, seqs);
    assert SeqKv(c, Carries(labels), s, ReadyBound(seqs, |seqs|, 0, false, i));
    hide Inv, BlocksIdle, SlotOf, Written, NewLabel;
    forall pos: nat | pos < s.cached + s.scheduled
      ensures Carries(Relabelled(c, seqs, labels))(SlotOf(c.blockSize, s.table, pos), s.tokens[..pos + 1])
    {
      var x := SlotOf(c.blockSize, s.table, pos);
      if pos < s.cached {
        assert CachedAt(c, seqs, x, i, pos);
        KeepsLabel(c, st.pool, seqs, labels, x);
      } else {
        NewLabelIs(c, st.pool, seqs, i, pos);
      }
    }
  }

  lemma RunOriginLabels(c: Config, p: Pool, seqs: seq<SeqState>, labels: Labels)
    requires BlocksIdle(c, p, seqs) && OriginKv(c, p, Carries(labels))
    ensures OriginKv(c, p, Carries(Relabelled(c, seqs, labels)))
  {
    hide BlocksIdle, SlotIn, Written, NewLabel;
    var labels' := Relabelled(c, seqs, labels);
    forall b: nat | b < |p.blocks| && p.blocks[b].hashValid && b in p.origin
      ensures BlockHolds(c, Carries(labels'), b, p.origin[b])
    {
      var prefix := p.origin[b];
      forall o: nat | o < c.blockSize
        ensures Carries(labels')(SlotIn(c.blockSize, b, o), prefix[..|prefix| - c.blockSize + o + 1])
      {
        var x := SlotIn(c.blockSize, b, o);
        assert HashedAt(c, p, x, b, o);
        KeepsLabel(c, p, seqs, labels, x);
        assert Carries(labels)(x, prefix[..|prefix| - c.blockSize + o + 1]);
      }
    }
  }

  lemma RunLabelled(c: Config, st: Sched)
    requires Inv(c, st) && Labelled(c, st.pool, st.seqs, false)
    ensures Labelled(c, st.pool, st.seqs, true)
  {
    var labels := SomeLabels(c, st.pool, st.seqs, false);
    var labels' := Relabelled(c, st.seqs, labels);
    assert BlocksIdle(c, st.pool, st.seqs);
    hide Inv, BlocksIdle, SeqKv, OriginKv, Carries, Relabelled;
    forall i: nat | i < |st.seqs| ensures SeqKv(c, Carries(labels'), st.seqs[i], ReadyBound(st.seqs, |st.seqs|, 0, true, i)) {
      RunSeqLabels(c, st, labels, i);
    }
    RunOriginLabels(c, st.pool, st.seqs, labels);
    LabelledBy(c, st.pool, st.seqs, true, labels');
  }

  // ---------------------------------------------------------------- what follows

  lemma BlockStart(n: nat, a: nat, size: int)
    requires size > 0 && a < NumBlocks(n, size)
    ensures 0 <= a * size < n && a * size / size == a && a * size % size == 0
  {
    NumBlocksBounds(n, size);
    MulMono(0, a, size);
    MulMono(a, NumBlocks(n, size) - 1, size);
    DivUnique(a * size, a, size);
  }

  lemma SlotStart(table: seq<nat>, a: nat, size: int)
    requires size > 0 && a < |table| && 0 <= a * size && a * size / size == a && a * size % size == 0
    ensures SlotOf(size, table, a * size) == SlotIn(size, table[a], 0)
  {
  }

  /** A sequence whose whole text is computed has different blocks in its table. */
  lemma DistinctBlocks(c: Config, p: Pool, seqs: seq<SeqState>, i: nat, a: nat, b: nat)
    requires Labelled(c, p, seqs, true) && i < |seqs| && Computed(seqs[i]) && a < b < |seqs[i].table|
    requires |seqs[i].table| == NumBlocks(|seqs[i].tokens|, c.blockSize)
    ensures seqs[i].table[a] != seqs[i].table[b]
  {
    var s := seqs[i];
    hide NumBlocks, SlotOf;
    var labels := SomeLabels(c, p, seqs, true);
    assert SeqKv(c, Carries(labels), s, ReadyBound(seqs, |seqs|, 0, true, i));
    BlockStart(|s.tokens|, a, c.blockSize);
    BlockStart(|s.tokens|, b, c.blockSize);
    MulMonoStrict(a, b, c.blockSize);
    var x, y: nat := a * c.blockSize, b * c.blockSize;
    SlotStart(s.table, a, c.blockSize);
    SlotStart(s.table, b, c.blockSize);
    assert Carries(labels)(SlotOf(c.blockSize, s.table, x), s.tokens[..x + 1]);
    assert Carries(labels)(SlotOf(c.blockSize, s.table, y), s.tokens[..y + 1]);
    assert |s.tokens[..x + 1]| != |s.tokens[..y + 1]|;
  }

  /** So it takes no more blocks than there are. */
  lemma ComputedFits(c: Config, st: Sched, i: nat)
    requires Inv(c, st) && Labelled(c, st.pool, st.seqs, true) && i < |st.seqs| && Computed(st.seqs[i])
    requires |st.seqs[i].table| == NumBlocks(|st.seqs[i].tokens|, c.blockSize)
    ensures NumBlocks(|st.seqs[i].tokens|, c.blockSize) <= c.numKvBlocks
  {
    InvWellFormed(c, st);
    var table := st.seqs[i].table;
    assert TableInRange(st.pool, table) && |st.pool.blocks| == c.numKvBlocks;
    hide Inv, Labelled, NumBlocks;
    forall a: nat, b: nat | a < b < |table| ensures table[a] != table[b] {
      DistinctBlocks(c, st.pool, st.seqs, i, a, b);
    }
    Pigeonhole(table, c.numKvBlocks);
  }
}
