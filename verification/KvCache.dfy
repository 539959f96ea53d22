// The operations on block tables, as functions of the cache's state.
module KvCache {
  import opened Prelude
  import opened Arithmetic
  import opened Hashing
  import opened BlockPools
  import opened PrefixIndex

  /** A sequence's blocks in logical order, and the tokens they back. */
  datatype BlockTable = BlockTable(blocks: seq<BlockId>, numTokens: nat)

  datatype AllocationOutcome = AllocationOutcome(newBlocks: nat, reused: nat, cachedTokens: nat)

  datatype Manager = Manager(
    pool: Pool,
    tables: map<SequenceId, BlockTable>,
    entries: Entries,
    prefixCaching: bool)
  {
    /** What the code needs to run: free blocks exist, and every table is exactly large enough. */
    ghost predicate WellFormed() {
      && pool.WellFormed()
      && forall s :: s in tables ==>
           |tables[s].blocks| == CeilDiv(tables[s].numTokens, pool.blockSize)
    }
  }

  function NewManager(numBlocks: nat, blockSize: nat, prefixCaching: bool): Manager {
    Manager(NewPool(numBlocks, blockSize), map[], map[], prefixCaching)
  }

  function BlocksNeeded(m: Manager, numTokens: nat): nat
    requires m.pool.blockSize > 0
  {
    CeilDiv(numTokens, m.pool.blockSize)
  }

  function CanAllocate(m: Manager, numTokens: nat): bool
    requires m.pool.blockSize > 0
  {
    BlocksNeeded(m, numTokens) <= |m.pool.freeList|
  }

  // ----- Allocation -----

  /** What the allocation loop carries from chunk to chunk, besides the pool and the index. */
  datatype AllocVars = AllocVars(
    table: seq<BlockId>,
    outcome: AllocationOutcome,
    chain: Option<Hash>,
    matching: bool)
  {
    function Adopting(b: BlockId, hash: Option<Hash>, numTokens: nat): AllocVars {
      AllocVars(table + [b],
                AllocationOutcome(outcome.newBlocks, outcome.reused + 1, outcome.cachedTokens + numTokens),
                hash, matching)
    }

    function Computing(b: BlockId): AllocVars {
      AllocVars(table + [b],
                AllocationOutcome(outcome.newBlocks + 1, outcome.reused, outcome.cachedTokens),
                None, false)
    }
  }

  datatype AllocState = AllocState(pool: Pool, entries: Entries, vars: AllocVars)

  function ChunkEnd(pos: nat, length: nat, blockSize: nat): nat {
    Min(pos + blockSize, length)
  }

  /** A cached block holding this chunk under this digest, with a reference taken. */
  function Adopt(st: AllocState, hash: Hash, chunk: seq<TokenId>): Option<(Pool, BlockId)> {
    match Find(st.entries, hash, chunk)
    case None => None
    case Some(b) =>
      match Referenced(st.pool, b)
      case None => None
      case Some(p) => Some((p, b))
  }

  function ChunkHash(st: AllocState, chunk: seq<TokenId>): Option<Hash> {
    if st.vars.matching && |chunk| == st.pool.blockSize then Some(HashBlock(st.vars.chain, chunk)) else None
  }

  function AdoptChunk(st: AllocState, chunk: seq<TokenId>): Option<(Pool, BlockId)> {
    match ChunkHash(st, chunk)
    case None => None
    case Some(h) => Adopt(st, h, chunk)
  }

  function Ignoring(p: Pool, r: Option<Pool>): Pool {
    match r case None => p case Some(q) => q
  }

  /** Backs one more chunk of the prompt; None when the pool has run out. */
  function AllocChunk(st: AllocState, chunk: seq<TokenId>): Option<AllocState>
    requires st.pool.WellFormed()
  {
    match AdoptChunk(st, chunk)
    case Some(a) => Some(AllocState(a.0, st.entries, st.vars.Adopting(a.1, ChunkHash(st, chunk), |chunk|)))
    case None =>
      match Take(st.pool)
      case None => None
      case Some(t) =>
        Some(AllocState(Ignoring(t.pool, WithContents(t.pool, t.block, |chunk|, None)),
                        DroppedRecycled(st.entries, t.evicted, t.block),
                        st.vars.Computing(t.block)))
  }

  lemma RemoveIsSublist(s: seq<BlockId>, x: BlockId)
    ensures forall i :: 0 <= i < |Remove(s, x)| ==> Remove(s, x)[i] in s
  {
  }

  lemma AllocChunkWellFormed(st: AllocState, chunk: seq<TokenId>)
    requires st.pool.WellFormed()
    ensures AllocChunk(st, chunk).Some? ==>
              AllocChunk(st, chunk).value.pool.WellFormed()
    ensures AllocChunk(st, chunk).Some? ==>
              AllocChunk(st, chunk).value.pool.blockSize == st.pool.blockSize
  {
    var adopted := AdoptChunk(st, chunk);
    if adopted.Some? {
      RemoveIsSublist(st.pool.freeList, adopted.value.1);
    }
  }

  /** The allocation loop from position `pos`; the flag says whether it ran to the end. */
  function AllocFrom(st: AllocState, prompt: seq<TokenId>, pos: nat): (AllocState, bool)
    requires st.pool.WellFormed() && pos <= |prompt|
    decreases |prompt| - pos
  {
    if pos == |prompt| then (st, true)
    else
      var end := ChunkEnd(pos, |prompt|, st.pool.blockSize);
      match AllocChunk(st, prompt[pos..end])
      case None => (st, false)
      case Some(next) =>
        AllocChunkWellFormed(st, prompt[pos..end]);
        AllocFrom(next, prompt, end)
  }

  function AllocStart(m: Manager): AllocState {
    AllocState(m.pool, m.entries, AllocVars([], AllocationOutcome(0, 0, 0), None, m.prefixCaching))
  }

  function ReleaseAll(p: Pool, blocks: seq<BlockId>): Pool
    decreases |blocks|
  {
    if blocks == [] then p else ReleaseAll(Ignoring(p, Released(p, blocks[0])), blocks[1..])
  }

  function Allocated(m: Manager, s: SequenceId, prompt: seq<TokenId>)
    : (Manager, Result<AllocationOutcome>)
    requires m.WellFormed()
  {
    if s in m.tables then (m, Err(Internal))
    else if BlocksNeeded(m, |prompt|) > |m.pool.freeList| then
      (m, Err(CacheExhausted(BlocksNeeded(m, |prompt|), |m.pool.freeList|)))
    else
      var (st, done) := AllocFrom(AllocStart(m), prompt, 0);
      if done then
        (Manager(st.pool, m.tables[s := BlockTable(st.vars.table, |prompt|)], st.entries, m.prefixCaching),
         Ok(st.vars.outcome))
      else
        (Manager(ReleaseAll(st.pool, st.vars.table), m.tables, st.entries, m.prefixCaching),
         Err(CacheExhausted(1, 0)))
  }

  // ----- Publication -----

  datatype CommitState = CommitState(pool: Pool, entries: Entries)

  function CommitBlock(st: CommitState, b: BlockId, hash: Hash, chunk: seq<TokenId>): CommitState {
    CommitState(Ignoring(st.pool, WithContents(st.pool, b, |chunk|, Some(hash))),
                Published(st.entries, hash, b, chunk))
  }

  /** Publishes the full blocks of `prompt` from logical block `i` on. */
  function CommitFrom(st: CommitState, blocks: seq<BlockId>, prompt: seq<TokenId>, pos: nat,
                      i: nat, chain: Option<Hash>): CommitState
    requires pos <= |prompt| && st.pool.blockSize > 0
    decreases |prompt| - pos
  {
    var end := pos + st.pool.blockSize;
    if end > |prompt| || i >= |blocks| then st
    else
      var h := HashBlock(chain, prompt[pos..end]);
      CommitFrom(CommitBlock(st, blocks[i], h, prompt[pos..end]), blocks, prompt, end, i + 1, Some(h))
  }

  function Committed(m: Manager, s: SequenceId, prompt: seq<TokenId>): Manager
    requires m.WellFormed()
  {
    if !m.prefixCaching || s !in m.tables then m
    else
      var st := CommitFrom(CommitState(m.pool, m.entries), m.tables[s].blocks, prompt, 0, 0, None);
      m.(pool := st.pool, entries := st.entries)
  }

  // ----- Growth, release, eviction -----

  /** The table of `s` counting one more token, with a block to hold it; None when the pool has run out. */
  function Grown(m: Manager, s: SequenceId): Option<Manager>
    requires m.WellFormed() && s in m.tables
  {
    var table := m.tables[s];
    if CeilDiv(table.numTokens + 1, m.pool.blockSize) <= |table.blocks| then
      Some(m.(tables := m.tables[s := BlockTable(table.blocks, table.numTokens + 1)]))
    else
      match Take(m.pool)
      case None => None
      case Some(t) =>
        Some(Manager(t.pool, m.tables[s := BlockTable(table.blocks + [t.block], table.numTokens + 1)],
                     DroppedRecycled(m.entries, t.evicted, t.block), m.prefixCaching))
  }

  lemma GrownWellFormed(m: Manager, s: SequenceId)
    requires m.WellFormed() && s in m.tables
    ensures Grown(m, s).Some? ==>
              var g := Grown(m, s).value;
              && g.WellFormed() && g.pool.blockSize == m.pool.blockSize
              && s in g.tables && g.tables[s].blocks != [] && g.tables[s].numTokens == m.tables[s].numTokens + 1
  {
    CeilSuccessor(m.tables[s].numTokens, m.pool.blockSize);
  }

  function Appended(m: Manager, s: SequenceId): (Manager, Option<EngineError>)
    requires m.WellFormed()
  {
    if s !in m.tables then (m, Some(Internal))
    else
      GrownWellFormed(m, s);
      match Grown(m, s)
      case None => (m, Some(CacheExhausted(1, 0)))
      case Some(g) =>
        var table := g.tables[s];
        match WithContents(g.pool, table.blocks[|table.blocks| - 1],
                           Filled(table.numTokens, |table.blocks|, g.pool.blockSize), None)
        case None => (g, Some(Internal))
        case Some(p) => (g.(pool := p), None)
  }

  /** Tokens in the last of `n` blocks backing `numTokens` tokens. */
  function Filled(numTokens: nat, n: nat, blockSize: nat): nat
    requires blockSize > 0 && n == CeilDiv(numTokens, blockSize) && n > 0
    ensures 0 < Filled(numTokens, n, blockSize) <= blockSize
  {
    CeilSuccessor(numTokens - 1, blockSize);
    numTokens - (n - 1) * blockSize
  }

  function Freed(m: Manager, s: SequenceId): Manager {
    if s !in m.tables then m
    else m.(pool := ReleaseAll(m.pool, m.tables[s].blocks), tables := m.tables - {s})
  }

  function EvictedCached(m: Manager, count: nat): Manager
    requires m.WellFormed()
    ensures EvictedCached(m, count).WellFormed()
    decreases count
  {
    if count == 0 then m
    else
      match EvictOldest(m.pool)
      case None => m
      case Some(e) =>
        EvictedCached(m.(pool := e.pool, entries := Dropped(m.entries, e.hash, e.block)), count - 1)
  }

  function Cleared(m: Manager): Manager
    requires m.WellFormed()
  {
    EvictedCached(m, Evictable(m.pool, |m.pool.freeList|)).(entries := map[])
  }

  // ----- Well-formedness is kept -----

  lemma ReleaseAllWellFormed(p: Pool, blocks: seq<BlockId>)
    requires p.WellFormed()
    ensures ReleaseAll(p, blocks).WellFormed() && ReleaseAll(p, blocks).blockSize == p.blockSize
    decreases |blocks|
  {
    if blocks != [] {
      ReleaseAllWellFormed(Ignoring(p, Released(p, blocks[0])), blocks[1..]);
    }
  }

  lemma AllocFromWellFormed(st: AllocState, prompt: seq<TokenId>, pos: nat)
    requires st.pool.WellFormed() && pos <= |prompt|
    ensures AllocFrom(st, prompt, pos).0.pool.WellFormed()
    ensures AllocFrom(st, prompt, pos).0.pool.blockSize == st.pool.blockSize
    ensures AllocFrom(st, prompt, pos).1 ==>
              |AllocFrom(st, prompt, pos).0.vars.table|
              == |st.vars.table| + CeilDiv(|prompt| - pos, st.pool.blockSize)
    decreases |prompt| - pos
  {
    if pos < |prompt| {
      var end := ChunkEnd(pos, |prompt|, st.pool.blockSize);
      AllocChunkWellFormed(st, prompt[pos..end]);
      CeilChunk(|prompt| - pos, st.pool.blockSize);
      match AllocChunk(st, prompt[pos..end])
      case None =>
      case Some(next) => AllocFromWellFormed(next, prompt, end);
    } else {
      QuotientRemainder(st.pool.blockSize - 1, st.pool.blockSize, 0, st.pool.blockSize - 1);
    }
  }

  lemma AllocatedWellFormed(m: Manager, s: SequenceId, prompt: seq<TokenId>)
    requires m.WellFormed()
    ensures Allocated(m, s, prompt).0.WellFormed()
    ensures Allocated(m, s, prompt).0.pool.blockSize == m.pool.blockSize
  {
    AllocFromWellFormed(AllocStart(m), prompt, 0);
    var st := AllocFrom(AllocStart(m), prompt, 0).0;
    ReleaseAllWellFormed(st.pool, st.vars.table);
  }

  lemma CommitFromWellFormed(st: CommitState, blocks: seq<BlockId>, prompt: seq<TokenId>, pos: nat,
                             i: nat, chain: Option<Hash>)
    requires pos <= |prompt| && st.pool.WellFormed()
    ensures CommitFrom(st, blocks, prompt, pos, i, chain).pool.WellFormed()
    ensures CommitFrom(st, blocks, prompt, pos, i, chain).pool.blockSize == st.pool.blockSize
    ensures CommitFrom(st, blocks, prompt, pos, i, chain).pool.freeList == st.pool.freeList
    decreases |prompt| - pos
  {
  }

  lemma CommittedWellFormed(m: Manager, s: SequenceId, prompt: seq<TokenId>)
    requires m.WellFormed()
    ensures Committed(m, s, prompt).WellFormed()
    ensures Committed(m, s, prompt).pool.blockSize == m.pool.blockSize
  {
    if s in m.tables {
      CommitFromWellFormed(CommitState(m.pool, m.entries), m.tables[s].blocks, prompt, 0, 0, None);
    }
  }

  lemma AppendedWellFormed(m: Manager, s: SequenceId)
    requires m.WellFormed()
    ensures Appended(m, s).0.WellFormed()
    ensures Appended(m, s).0.pool.blockSize == m.pool.blockSize
  {
    if s in m.tables {
      GrownWellFormed(m, s);
    }
  }

  lemma FreedWellFormed(m: Manager, s: SequenceId)
    requires m.WellFormed()
    ensures Freed(m, s).WellFormed() && Freed(m, s).pool.blockSize == m.pool.blockSize
  {
    if s in m.tables {
      ReleaseAllWellFormed(m.pool, m.tables[s].blocks);
    }
  }
}
