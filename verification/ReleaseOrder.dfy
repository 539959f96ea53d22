// Over all cache runs: the block recycled next is the free one released longest ago.
module ReleaseOrder {
  import opened Prelude
  import opened Arithmetic
  import opened Hashing
  import opened BlockPools
  import opened PoolInvariant
  import opened PrefixIndex
  import opened KvCache
  import opened PrefixSoundness

  type PoolOps = seq<PoolOp>

  // ----- The pool operations of each cache operation -----

  /** A chunk is adopted by one more reference, or computed into the oldest free block. */
  function ChunkOps(st: AllocState, chunk: seq<TokenId>): PoolOps
    requires st.pool.WellFormed()
  {
    match AdoptChunk(st, chunk)
    case Some(a) => [OpAddRef(a.1)]
    case None =>
      match Take(st.pool)
      case None => []
      case Some(t) => [OpTake, OpSetContents(t.block, |chunk|, None)]
  }

  function AllocFromOps(st: AllocState, prompt: seq<TokenId>, pos: nat): PoolOps
    requires st.pool.WellFormed() && pos <= |prompt|
    decreases |prompt| - pos
  {
    if pos == |prompt| then []
    else
      var end := ChunkEnd(pos, |prompt|, st.pool.blockSize);
      var chunk := prompt[pos..end];
      match AllocChunk(st, chunk)
      case None => []
      case Some(next) =>
        AllocChunkWellFormed(st, chunk);
        ChunkOps(st, chunk) + AllocFromOps(next, prompt, end)
  }

  function ReleaseOps(blocks: seq<BlockId>): PoolOps
    decreases |blocks|
  {
    if blocks == [] then [] else [OpRelease(blocks[0])] + ReleaseOps(blocks[1..])
  }

  function AllocateOps(m: Manager, s: SequenceId, prompt: seq<TokenId>): PoolOps
    requires m.WellFormed()
  {
    if s in m.tables || BlocksNeeded(m, |prompt|) > |m.pool.freeList| then []
    else
      var (st, done) := AllocFrom(AllocStart(m), prompt, 0);
      AllocFromOps(AllocStart(m), prompt, 0) + if done then [] else ReleaseOps(st.vars.table)
  }

  function CommitFromOps(st: CommitState, blocks: seq<BlockId>, prompt: seq<TokenId>, pos: nat,
                         i: nat, chain: Option<Hash>): PoolOps
    requires pos <= |prompt| && st.pool.blockSize > 0
    decreases |prompt| - pos
  {
    var end := pos + st.pool.blockSize;
    if end > |prompt| || i >= |blocks| then []
    else
      var chunk := prompt[pos..end];
      var h := HashBlock(chain, chunk);
      [OpSetContents(blocks[i], |chunk|, Some(h))]
      + CommitFromOps(CommitBlock(st, blocks[i], h, chunk), blocks, prompt, end, i + 1, Some(h))
  }

  function AppendOps(m: Manager, s: SequenceId): PoolOps
    requires m.WellFormed()
  {
    if s !in m.tables then []
    else
      GrownWellFormed(m, s);
      var table := m.tables[s];
      var take := if CeilDiv(table.numTokens + 1, m.pool.blockSize) <= |table.blocks| then [] else [OpTake];
      match Grown(m, s)
      case None => []
      case Some(g) =>
        var blocks := g.tables[s].blocks;
        take + [OpSetContents(blocks[|blocks| - 1], Filled(g.tables[s].numTokens, |blocks|, g.pool.blockSize), None)]
  }

  function EvictOps(m: Manager, count: nat): PoolOps
    requires m.WellFormed()
    decreases count
  {
    if count == 0 then []
    else
      match EvictOldest(m.pool)
      case None => []
      case Some(e) => [PoolOp.OpEvict] + EvictOps(m.(pool := e.pool, entries := Dropped(m.entries, e.hash, e.block)), count - 1)
  }

  ghost function StepOps(h: History, op: CacheOp): PoolOps
    requires Tracked(h)
  {
    match op
    case OpAllocate(s, prompt) => AllocateOps(h.m, s, prompt)
    case OpCommit(s) =>
      if s !in h.m.tables || !h.m.prefixCaching then []
      else CommitFromOps(CommitState(h.m.pool, h.m.entries), h.m.tables[s].blocks, h.prompts[s], 0, 0, None)
    case OpAppend(s) => AppendOps(h.m, s)
    case OpFree(s) => if s in h.m.tables then ReleaseOps(h.m.tables[s].blocks) else []
    case OpEvict(count) => EvictOps(h.m, count)
    case OpClear => EvictOps(h.m, Evictable(h.m.pool, |h.m.pool.freeList|))
  }

  ghost function RunOps(h: History, ops: seq<CacheOp>): PoolOps
    requires Tracked(h)
    decreases |ops|
  {
    if ops == [] then []
    else
      StepKeepsTracked(h, ops[0]);
      StepOps(h, ops[0]) + RunOps(Step(h, ops[0]), ops[1..])
  }

  // ----- Each cache operation follows its pool operations -----

  lemma {:induction false} TimedConcat(t: Timed, a: PoolOps, b: PoolOps)
    requires InReleaseOrder(t)
    ensures TimedRun(t, a + b) == TimedRun(TimedRun(t, a), b)
    decreases |a|
  {
    hide TimedStep, InReleaseOrder;
    if a == [] {
      assert a + b == b;
    } else {
      TimedStepKeepsOrder(t, a[0]);
      TimedConcat(TimedStep(t, a[0]), a[1..], b);
      assert (a + b)[1..] == a[1..] + b;
    }
  }

  lemma TimedOne(t: Timed, op: PoolOp)
    requires InReleaseOrder(t)
    ensures TimedRun(t, [op]) == TimedStep(t, op)
  {
    hide TimedStep, InReleaseOrder;
    TimedStepKeepsOrder(t, op);
    assert TimedRun(TimedStep(t, op), []) == TimedStep(t, op);
  }

  lemma TimedTwo(t: Timed, a: PoolOp, b: PoolOp)
    requires InReleaseOrder(t)
    ensures InReleaseOrder(TimedStep(t, a))
    ensures TimedRun(t, [a, b]) == TimedStep(TimedStep(t, a), b)
  {
    hide TimedStep, InReleaseOrder;
    TimedStepKeepsOrder(t, a);
    TimedOne(t, a);
    TimedOne(TimedStep(t, a), b);
    TimedConcat(t, [a], [b]);
    assert [a] + [b] == [a, b];
  }

  lemma TimedNothing(t: Timed)
    requires InReleaseOrder(t)
    ensures TimedRun(t, []) == t
  {
  }

  lemma ChunkFollows(t: Timed, st: AllocState, chunk: seq<TokenId>)
    requires InReleaseOrder(t) && t.pool == st.pool && st.pool.WellFormed() && AllocChunk(st, chunk).Some?
    ensures TimedRun(t, ChunkOps(st, chunk)).pool == AllocChunk(st, chunk).value.pool
  {
    hide TimedRun, InReleaseOrder;
    match AdoptChunk(st, chunk)
    case Some(a) => TimedOne(t, OpAddRef(a.1));
    case None =>
      var x := Take(st.pool).value;
      TimedTwo(t, OpTake, OpSetContents(x.block, |chunk|, None));
  }

  lemma {:induction false} AllocFromFollows(t: Timed, st: AllocState, prompt: seq<TokenId>, pos: nat)
    requires InReleaseOrder(t) && t.pool == st.pool && st.pool.WellFormed() && pos <= |prompt|
    ensures TimedRun(t, AllocFromOps(st, prompt, pos)).pool == AllocFrom(st, prompt, pos).0.pool
    decreases |prompt| - pos
  {
    hide TimedRun, InReleaseOrder, AllocChunk, ChunkOps;
    TimedNothing(t);
    if pos < |prompt| {
      var end := ChunkEnd(pos, |prompt|, st.pool.blockSize);
      var chunk := prompt[pos..end];
      if AllocChunk(st, chunk).Some? {
        AllocChunkWellFormed(st, chunk);
        ChunkFollows(t, st, chunk);
        var next := AllocChunk(st, chunk).value;
        AllocFromFollows(TimedRun(t, ChunkOps(st, chunk)), next, prompt, end);
        TimedConcat(t, ChunkOps(st, chunk), AllocFromOps(next, prompt, end));
      }
    }
  }

  lemma {:induction false} ReleasesFollow(t: Timed, blocks: seq<BlockId>)
    requires InReleaseOrder(t)
    ensures TimedRun(t, ReleaseOps(blocks)).pool == ReleaseAll(t.pool, blocks)
    decreases |blocks|
  {
    hide TimedRun, InReleaseOrder;
    if blocks == [] {
      TimedNothing(t);
    } else {
      var op := OpRelease(blocks[0]);
      TimedStepKeepsOrder(t, op);
      TimedOne(t, op);
      ReleasesFollow(TimedStep(t, op), blocks[1..]);
      TimedConcat(t, [op], ReleaseOps(blocks[1..]));
    }
  }

  lemma AllocateFollows(t: Timed, m: Manager, s: SequenceId, prompt: seq<TokenId>)
    requires InReleaseOrder(t) && t.pool == m.pool && m.WellFormed()
    ensures TimedRun(t, AllocateOps(m, s, prompt)).pool == Allocated(m, s, prompt).0.pool
  {
    hide TimedRun, InReleaseOrder, AllocFrom, AllocFromOps, CeilDiv;
    TimedNothing(t);
    if s !in m.tables && BlocksNeeded(m, |prompt|) <= |m.pool.freeList| {
      var first := AllocFromOps(AllocStart(m), prompt, 0);
      var (st, done) := AllocFrom(AllocStart(m), prompt, 0);
      AllocFromFollows(t, AllocStart(m), prompt, 0);
      if done {
        assert first + [] == first;
      } else {
        ReleasesFollow(TimedRun(t, first), st.vars.table);
        TimedConcat(t, first, ReleaseOps(st.vars.table));
      }
    }
  }

  lemma {:induction false} CommitFollows(t: Timed, st: CommitState, blocks: seq<BlockId>, prompt: seq<TokenId>, pos: nat,
                                         i: nat, chain: Option<Hash>)
    requires InReleaseOrder(t) && t.pool == st.pool && pos <= |prompt|
    ensures st.pool.blockSize > 0
    ensures TimedRun(t, CommitFromOps(st, blocks, prompt, pos, i, chain)).pool == CommitFrom(st, blocks, prompt, pos, i, chain).pool
    decreases |prompt| - pos
  {
    hide TimedRun, HashBlock;
    TimedNothing(t);
    var end := pos + st.pool.blockSize;
    if end <= |prompt| && i < |blocks| {
      var chunk := prompt[pos..end];
      var h := HashBlock(chain, chunk);
      var op, next := OpSetContents(blocks[i], |chunk|, Some(h)), CommitBlock(st, blocks[i], h, chunk);
      TimedStepKeepsOrder(t, op);
      TimedOne(t, op);
      CommitFollows(TimedStep(t, op), next, blocks, prompt, end, i + 1, Some(h));
      TimedConcat(t, [op], CommitFromOps(next, blocks, prompt, end, i + 1, Some(h)));
    }
  }

  lemma AppendFollows(t: Timed, m: Manager, s: SequenceId)
    requires InReleaseOrder(t) && t.pool == m.pool && m.WellFormed()
    ensures TimedRun(t, AppendOps(m, s)).pool == Appended(m, s).0.pool
  {
    hide TimedRun, InReleaseOrder, CeilDiv;
    TimedNothing(t);
    if s in m.tables {
      GrownWellFormed(m, s);
      if Grown(m, s).Some? {
        var g := Grown(m, s).value;
        var blocks := g.tables[s].blocks;
        var fill := OpSetContents(blocks[|blocks| - 1], Filled(g.tables[s].numTokens, |blocks|, g.pool.blockSize), None);
        TimedOne(t, fill);
        TimedTwo(t, OpTake, fill);
        assert [] + [fill] == [fill] && [OpTake] + [fill] == [OpTake, fill];
      }
    }
  }

  lemma {:induction false} EvictFollows(t: Timed, m: Manager, count: nat)
    requires InReleaseOrder(t) && t.pool == m.pool && m.WellFormed()
    ensures TimedRun(t, EvictOps(m, count)).pool == EvictedCached(m, count).pool
    decreases count
  {
    hide TimedRun, InReleaseOrder;
    TimedNothing(t);
    if count > 0 && EvictOldest(m.pool).Some? {
      var e := EvictOldest(m.pool).value;
      var next := m.(pool := e.pool, entries := Dropped(m.entries, e.hash, e.block));
      TimedStepKeepsOrder(t, PoolOp.OpEvict);
      TimedOne(t, PoolOp.OpEvict);
      EvictFollows(TimedStep(t, PoolOp.OpEvict), next, count - 1);
      TimedConcat(t, [PoolOp.OpEvict], EvictOps(next, count - 1));
    }
  }

  lemma StepFollows(t: Timed, h: History, op: CacheOp)
    requires InReleaseOrder(t) && Tracked(h) && t.pool == h.m.pool
    ensures TimedRun(t, StepOps(h, op)).pool == Step(h, op).m.pool
  {
    hide TimedRun, InReleaseOrder, Conserves, Allocated, Appended, AllocateOps, AppendOps, EvictOps, CommitFromOps, CommitFrom,
      EvictedCached, ReleaseOps, ReleaseAll, Evictable, Indexed, TableHashed, OriginsKnown, OriginFrom, StillHashed;
    TimedNothing(t);
    match op
    case OpAllocate(s, prompt) => AllocateFollows(t, h.m, s, prompt);
    case OpCommit(s) =>
      if s in h.m.tables {
        CommitFollows(t, CommitState(h.m.pool, h.m.entries), h.m.tables[s].blocks, h.prompts[s], 0, 0, None);
      }
    case OpAppend(s) => AppendFollows(t, h.m, s);
    case OpFree(s) => if s in h.m.tables { ReleasesFollow(t, h.m.tables[s].blocks); }
    case OpEvict(count) => EvictFollows(t, h.m, count);
    case OpClear => EvictFollows(t, h.m, Evictable(h.m.pool, |h.m.pool.freeList|));
  }

  // ----- Runs -----

  lemma {:induction false} RunFollows(t: Timed, h: History, ops: seq<CacheOp>)
    requires InReleaseOrder(t) && Tracked(h) && t.pool == h.m.pool
    ensures TimedRun(t, RunOps(h, ops)).pool == Run(h, ops).m.pool
    decreases |ops|
  {
    hide TimedRun, InReleaseOrder, Tracked, Step, StepOps;
    if ops == [] {
      TimedNothing(t);
    } else {
      StepKeepsTracked(h, ops[0]);
      StepFollows(t, h, ops[0]);
      RunFollows(TimedRun(t, StepOps(h, ops[0])), Step(h, ops[0]), ops[1..]);
      TimedConcat(t, StepOps(h, ops[0]), RunOps(Step(h, ops[0]), ops[1..]));
    }
  }

  /** The pool of a cache run, with the times of release. */
  ghost function TimedAfter(numBlocks: nat, blockSize: nat, prefixCaching: bool, ops: seq<CacheOp>): (t: Timed)
    requires blockSize > 0
    ensures InReleaseOrder(t)
  {
    NewHistoryTracked(numBlocks, blockSize, prefixCaching);
    TimedNewInOrder(numBlocks, blockSize);
    TimedRun(TimedNew(numBlocks, blockSize), RunOps(NewHistory(numBlocks, blockSize, prefixCaching), ops))
  }

  /**
   * Least recently released, over every run of the cache manager: the pool is the one with
   * these release times, its free list lists each block once, and the block that the next
   * allocation or append recycles was released before every other free block.
   */
  lemma RecyclesLeastRecentlyReleased(numBlocks: nat, blockSize: nat, prefixCaching: bool, ops: seq<CacheOp>)
    requires blockSize > 0
    ensures var t := TimedAfter(numBlocks, blockSize, prefixCaching, ops);
            && t.pool == StateAfter(numBlocks, blockSize, prefixCaching, ops).m.pool
            && t.pool.WellFormed() && NoDuplicates(t.pool.freeList)
            && (Take(t.pool).Some? ==>
                  forall i :: 0 < i < |t.pool.freeList| ==>
                    t.releasedAt[Take(t.pool).value.block] < t.releasedAt[t.pool.freeList[i]])
  {
    hide TimedRun, RunOps, Run, Tracked;
    NewHistoryTracked(numBlocks, blockSize, prefixCaching);
    var h := NewHistory(numBlocks, blockSize, prefixCaching);
    RunFollows(TimedNew(numBlocks, blockSize), h, ops);
    FreeListIsLeastRecentlyReleased(numBlocks, blockSize, RunOps(h, ops));
  }
}
