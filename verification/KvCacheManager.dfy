// The manager object: its methods realise the functions of `KvCache` in place.
module KvCacheManagers {
  import opened Prelude
  import opened Arithmetic
  import opened Hashing
  import opened BlockPools
  import opened PrefixIndex
  import opened KvCache

  class KvCacheManager {
    const pool: BlockPool
    const prefixCache: PrefixCache
    const prefixCachingEnabled: bool
    var tables: map<SequenceId, BlockTable>

    function State(): Manager
      reads this, pool, prefixCache
    {
      Manager(pool.State(), tables, prefixCache.entries, prefixCachingEnabled)
    }

    ghost predicate Valid()
      reads this, pool, prefixCache
    {
      State().WellFormed()
    }

    ghost function Parts(): set<object> {
      {this, pool, prefixCache}
    }

    constructor (numBlocks: nat, blockSize: nat, prefixCachingEnabled: bool)
      requires blockSize > 0
      ensures Valid() && fresh(Parts())
      ensures State() == NewManager(numBlocks, blockSize, prefixCachingEnabled)
    {
      this.prefixCachingEnabled := prefixCachingEnabled;
      tables := map[];
      pool := new BlockPool(numBlocks, blockSize);
      prefixCache := new PrefixCache();
    }

    /** Adopts a cached block for the chunk, or reports that none fits. */
    method AdoptCached(hash: Option<Hash>, chunk: seq<TokenId>, ghost st: AllocState)
      returns (r: Option<BlockId>)
      requires Valid()
      requires st.pool == pool.State() && st.entries == prefixCache.entries
      requires hash == ChunkHash(st, chunk)
      modifies pool
      ensures Valid()
      ensures match AdoptChunk(st, chunk)
              case None => r == None && pool.State() == st.pool
              case Some(a) => r == Some(a.1) && pool.State() == a.0
    {
      if hash.None? {
        return None;
      }
      var found := prefixCache.Lookup(hash.value, chunk);
      if found.None? {
        return None;
      }
      var ok := pool.AddRef(found.value);
      r := if ok then found else None;
    }

    /** Takes a block from the pool; an index entry for what it used to hold is dropped. */
    method AllocateFresh(numTokens: nat) returns (r: Result<BlockId>)
      requires Valid()
      modifies pool, prefixCache
      ensures Valid()
      ensures match Take(old(pool.State()))
              case None => r == Err(CacheExhausted(1, 0))
                           && pool.State() == old(pool.State())
                           && prefixCache.entries == old(prefixCache.entries)
              case Some(t) => r == Ok(t.block)
                              && pool.State() == Ignoring(t.pool, WithContents(t.pool, t.block, numTokens, None))
                              && prefixCache.entries
                                 == DroppedRecycled(old(prefixCache.entries), t.evicted, t.block)
    {
      var taken := pool.Allocate();
      if taken.Err? {
        return Err(taken.error);
      }
      var (blk, evicted) := taken.value;
      if evicted.Some? {
        prefixCache.Remove(evicted.value, blk);
      }
      var _ := pool.SetContents(blk, numTokens, None);
      r := Ok(blk);
    }

    /** One round of the allocation loop; None when the pool has run out. */
    method BackChunk(v: AllocVars, chunk: seq<TokenId>) returns (r: Result<AllocVars>)
      requires Valid()
      modifies pool, prefixCache
      ensures Valid()
      ensures match AllocChunk(AllocState(old(pool.State()), old(prefixCache.entries), v), chunk)
              case None => r == Err(CacheExhausted(1, 0))
                           && pool.State() == old(pool.State())
                           && prefixCache.entries == old(prefixCache.entries)
              case Some(next) => r == Ok(next.vars)
                                 && pool.State() == next.pool && prefixCache.entries == next.entries
    {
      hide HashBlock;
      ghost var st := AllocState(pool.State(), prefixCache.entries, v);
      var hash: Option<Hash> := None;
      if v.matching && |chunk| == pool.blockSize {
        var h := ComputeHashBlock(v.chain, chunk);
        hash := Some(h);
      }
      var adopted := AdoptCached(hash, chunk, st);
      if adopted.Some? {
        return Ok(v.Adopting(adopted.value, hash, |chunk|));
      }
      var taken := AllocateFresh(|chunk|);
      r := if taken.Ok? then Ok(v.Computing(taken.value)) else Err(taken.error);
    }

    method Allocate(seqId: SequenceId, prompt: seq<TokenId>) returns (r: Result<AllocationOutcome>)
      requires Valid()
      modifies this, pool, prefixCache
      ensures Valid()
      ensures (State(), r) == Allocated(old(State()), seqId, prompt)
    {
      hide HashBlock, AllocChunk;
      ghost var m := State();
      AllocatedWellFormed(m, seqId, prompt);
      if seqId in tables {
        return Err(Internal);
      }
      var blockSize := pool.blockSize;
      var needed := CeilDiv(|prompt|, blockSize);
      if needed > |pool.freeList| {
        return Err(CacheExhausted(needed, |pool.freeList|));
      }

      var v := AllocVars([], AllocationOutcome(0, 0, 0), None, prefixCachingEnabled);
      var pos := 0;
      while pos < |prompt|
        invariant pos <= |prompt| && Valid() && tables == m.tables
        invariant AllocFrom(AllocState(pool.State(), prefixCache.entries, v), prompt, pos)
                  == AllocFrom(AllocStart(m), prompt, 0)
      {
        var end := ChunkEnd(pos, |prompt|, blockSize);
        var backed := BackChunk(v, prompt[pos..end]);
        if backed.Err? {
          ReleaseBlocks(v.table);
          return Err(backed.error);
        }
        v := backed.value;
        pos := end;
      }
      tables := tables[seqId := BlockTable(v.table, |prompt|)];
      r := Ok(v.outcome);
    }

    /** Drops one reference to each block in turn, whatever each release reports. */
    method ReleaseBlocks(blocks: seq<BlockId>)
      requires pool.Valid()
      modifies pool
      ensures pool.Valid() && pool.State() == ReleaseAll(old(pool.State()), blocks)
    {
      ghost var p := pool.State();
      assert blocks[0..] == blocks;
      for i := 0 to |blocks|
        invariant pool.Valid() && ReleaseAll(pool.State(), blocks[i..]) == ReleaseAll(p, blocks)
      {
        assert blocks[i..][1..] == blocks[i + 1..];
        var _ := pool.Release(blocks[i]);
      }
    }

    method PublishBlock(b: BlockId, chain: Option<Hash>, chunk: seq<TokenId>) returns (h: Hash)
      requires pool.Valid()
      modifies pool, prefixCache
      ensures pool.Valid()
      ensures h == HashBlock(chain, chunk)
      ensures CommitState(pool.State(), prefixCache.entries)
              == CommitBlock(CommitState(old(pool.State()), old(prefixCache.entries)), b, h, chunk)
    {
      h := ComputeHashBlock(chain, chunk);
      var _ := pool.SetContents(b, |chunk|, Some(h));
      prefixCache.Insert(h, b, chunk);
    }

    method CommitPrefill(seqId: SequenceId, prompt: seq<TokenId>)
      requires Valid()
      modifies pool, prefixCache
      ensures Valid()
      ensures State() == Committed(old(State()), seqId, prompt)
    {
      hide HashBlock;
      ghost var m := State();
      CommittedWellFormed(m, seqId, prompt);
      if !prefixCachingEnabled || seqId !in tables {
        return;
      }
      var blockSize := pool.blockSize;
      var blocks := tables[seqId].blocks;
      var chain: Option<Hash> := None;
      var pos, i := 0, 0;
      while pos + blockSize <= |prompt| && i < |blocks|
        invariant pos <= |prompt| && pool.Valid()
        invariant CommitFrom(CommitState(pool.State(), prefixCache.entries), blocks, prompt, pos, i, chain)
                  == CommitFrom(CommitState(m.pool, m.entries), blocks, prompt, 0, 0, None)
        decreases |prompt| - pos
      {
        var h := PublishBlock(blocks[i], chain, prompt[pos..pos + blockSize]);
        chain := Some(h);
        pos, i := pos + blockSize, i + 1;
      }
    }

    /** Gives the table of a sequence room for one more token. */
    method Grow(seqId: SequenceId) returns (ok: bool)
      requires Valid() && seqId in tables
      modifies this, pool, prefixCache
      ensures Valid()
      ensures match Grown(old(State()), seqId)
              case None => !ok && State() == old(State())
              case Some(g) => ok && State() == g
    {
      GrownWellFormed(State(), seqId);
      var table := tables[seqId];
      var newLen := table.numTokens + 1;
      if CeilDiv(newLen, pool.blockSize) > |table.blocks| {
        // Taken before the table changes, so that a failure leaves the sequence as it was.
        var taken := pool.Allocate();
        if taken.Err? {
          return false;
        }
        var (blk, evicted) := taken.value;
        if evicted.Some? {
          prefixCache.Remove(evicted.value, blk);
        }
        table := table.(blocks := table.blocks + [blk]);
      }
      tables := tables[seqId := table.(numTokens := newLen)];
      ok := true;
    }

    method AppendToken(seqId: SequenceId) returns (r: Option<EngineError>)
      requires Valid()
      modifies this, pool, prefixCache
      ensures Valid()
      ensures (State(), r) == Appended(old(State()), seqId)
    {
      hide Grown;
      AppendedWellFormed(State(), seqId);
      if seqId !in tables {
        return Some(Internal);
      }
      GrownWellFormed(State(), seqId);
      var grown := Grow(seqId);
      if !grown {
        return Some(CacheExhausted(1, 0));
      }
      var table := tables[seqId];
      var filled := Filled(table.numTokens, |table.blocks|, pool.blockSize);
      var ok := pool.SetContents(table.blocks[|table.blocks| - 1], filled, None);
      r := if ok then None else Some(Internal);
    }

    method Free(seqId: SequenceId)
      requires Valid()
      modifies this, pool
      ensures Valid()
      ensures State() == Freed(old(State()), seqId)
    {
      FreedWellFormed(State(), seqId);
      if seqId in tables {
        var blocks := tables[seqId].blocks;
        tables := tables - {seqId};
        ReleaseBlocks(blocks);
      }
    }

    method EvictCached(count: nat) returns (evicted: nat)
      requires Valid()
      modifies pool, prefixCache
      ensures Valid() && evicted <= count
      ensures State() == EvictedCached(old(State()), count)
    {
      ghost var m := State();
      evicted := 0;
      while evicted < count
        invariant Valid() && evicted <= count && tables == m.tables
        invariant EvictedCached(State(), count - evicted) == EvictedCached(m, count)
      {
        var e := pool.EvictOldestCached();
        if e.None? {
          break;
        }
        prefixCache.Remove(e.value.1, e.value.0);
        evicted := evicted + 1;
      }
    }

    method ClearPrefixCache()
      requires Valid()
      modifies pool, prefixCache
      ensures Valid()
      ensures State() == Cleared(old(State()))
    {
      var n := pool.NumEvictable();
      var _ := EvictCached(n);
      prefixCache.Clear();
    }
  }
}
