// Prefix-cache soundness over all runs of the cache manager.
//
// A history adds to the manager the prompt each table was allocated for, and the token
// history under which each block still carrying a digest was last published.
module PrefixSoundness {
  import opened Prelude
  import opened Arithmetic
  import opened Hashing
  import opened BlockPools
  import opened PoolInvariant
  import opened PrefixIndex
  import opened KvCache
  import opened KvConservation

  datatype History = History(
    m: Manager,
    prompts: map<SequenceId, seq<TokenId>>,
    origin: map<BlockId, seq<TokenId>>)

  /** The scheduler commits a sequence with the prompt it allocated it for. */
  datatype CacheOp =
    | OpAllocate(s: SequenceId, prompt: seq<TokenId>)
    | OpCommit(s: SequenceId)
    | OpAppend(s: SequenceId)
    | OpFree(s: SequenceId)
    | OpEvict(count: nat)
    | OpClear

  // ----- The invariant -----

  /** Logical block `i` of a sequence: unpublished and its own, or published under its own prefix. */
  ghost predicate BlockHashed(p: Pool, size: nat, prompt: seq<TokenId>, b: BlockId, i: nat)
    requires size > 0
  {
    && b < |p.blocks|
    && (|| (p.blocks[b].hash.None? && p.blocks[b].refCount == 1)
        || (HasBlock(prompt, i, size) && p.blocks[b].hash == Some(BlockDigest(prompt, i, size))))
  }

  ghost predicate TableHashed(p: Pool, size: nat, prompt: seq<TokenId>, t: BlockTable)
    requires size > 0
  {
    && |prompt| <= t.numTokens
    && forall i :: 0 <= i < |t.blocks| ==> BlockHashed(p, size, prompt, t.blocks[i], i)
  }

  /** Every index entry names a block still carrying that very digest. */
  ghost predicate Indexed(p: Pool, entries: Entries) {
    forall h :: h in entries ==>
      entries[h].block < |p.blocks| && p.blocks[entries[h].block].hash == Some(h)
  }

  /** A nonempty whole-block token history. */
  ghost predicate WholeBlocks(history: seq<TokenId>, size: nat)
    requires size > 0
  {
    |history| >= size && |history| % size == 0
  }

  /** The blocks with a digest are full, and the digest is that of their origin. */
  ghost predicate OriginsKnown(p: Pool, size: nat, origin: map<BlockId, seq<TokenId>>)
    requires size > 0
  {
    && (forall b: BlockId :: b in origin <==> b < |p.blocks| && p.blocks[b].hash.Some?)
    && (forall b: BlockId :: b in origin ==>
          && p.blocks[b].numTokens == size
          && WholeBlocks(origin[b], size) && ChainHash(origin[b], size) == p.blocks[b].hash)
  }

  ghost predicate Tracked(h: History) {
    && Consistent(h.m)
    && h.prompts.Keys == h.m.tables.Keys
    && Indexed(h.m.pool, h.m.entries)
    && (forall s :: s in h.m.tables ==> TableHashed(h.m.pool, h.m.pool.blockSize, h.prompts[s], h.m.tables[s]))
    && OriginsKnown(h.m.pool, h.m.pool.blockSize, h.origin)
  }

  function NewHistory(numBlocks: nat, blockSize: nat, prefixCaching: bool): History {
    History(NewManager(numBlocks, blockSize, prefixCaching), map[], map[])
  }

  lemma NewHistoryTracked(numBlocks: nat, blockSize: nat, prefixCaching: bool)
    requires blockSize > 0
    ensures Tracked(NewHistory(numBlocks, blockSize, prefixCaching))
  {
    NewManagerConsistent(numBlocks, blockSize, prefixCaching);
    assert forall b :: 0 <= b < numBlocks ==> NewPool(numBlocks, blockSize).blocks[b] == EMPTY_BLOCK;
  }

  // ----- Steps -----

  /** The token history of a prompt up to and including its logical block `i`. */
  ghost function Through(prompt: seq<TokenId>, i: nat, size: nat): seq<TokenId>
    requires HasBlock(prompt, i, size)
  {
    prompt[..i * size + size]
  }

  /** The blocks of `table` from logical block `i` on, published under prefixes of `prompt`. */
  ghost function OriginFrom(origin: map<BlockId, seq<TokenId>>, size: nat, blocks: seq<BlockId>,
                            prompt: seq<TokenId>, i: nat): map<BlockId, seq<TokenId>>
    requires size > 0
    decreases |blocks| - i
  {
    if !HasBlock(prompt, i, size) || i >= |blocks| then origin
    else OriginFrom(origin[blocks[i] := Through(prompt, i, size)], size, blocks, prompt, i + 1)
  }

  /** Origins of the blocks that still carry a digest. */
  ghost function StillHashed(origin: map<BlockId, seq<TokenId>>, p: Pool): map<BlockId, seq<TokenId>> {
    map b | b in origin && b < |p.blocks| && p.blocks[b].hash.Some? :: origin[b]
  }

  ghost function Step(h: History, op: CacheOp): History
    requires Tracked(h)
  {
    match op
    case OpAllocate(s, prompt) =>
      var (after, r) := Allocated(h.m, s, prompt);
      if r.Err? then h.(m := after)
      else
        AllocationIsExact(h.m, s, prompt);
        History(after, h.prompts[s := prompt],
                h.origin - Elements(after.tables[s].blocks[r.value.reused..]))
    case OpCommit(s) =>
      if s !in h.m.tables || !h.m.prefixCaching then h
      else
        History(Committed(h.m, s, h.prompts[s]), h.prompts,
                OriginFrom(h.origin, h.m.pool.blockSize, h.m.tables[s].blocks, h.prompts[s], 0))
    case OpAppend(s) =>
      var (after, err) := Appended(h.m, s);
      if err.Some? then h.(m := after)
      else
        AppendingIsExact(h.m, s);
        h.(m := after, origin := h.origin - {LastBlock(after, s)})
    case OpFree(s) =>
      h.(m := Freed(h.m, s), prompts := h.prompts - {s})
    case OpEvict(count) =>
      var after := EvictedCached(h.m, count);
      h.(m := after, origin := StillHashed(h.origin, after.pool))
    case OpClear =>
      var after := Cleared(h.m);
      h.(m := after, origin := StillHashed(h.origin, after.pool))
  }

  ghost function LastBlock(m: Manager, s: SequenceId): BlockId {
    if s in m.tables && m.tables[s].blocks != [] then m.tables[s].blocks[|m.tables[s].blocks| - 1] else 0
  }

  // ----- Contents survive changes of reference counts -----

  /** Outside `except` the blocks keep their digests and token counts. */
  ghost predicate ContentsKept(p: Pool, q: Pool, except: set<BlockId>) {
    && |q.blocks| == |p.blocks|
    && forall b :: 0 <= b < |p.blocks| && b !in except ==>
         q.blocks[b].hash == p.blocks[b].hash && q.blocks[b].numTokens == p.blocks[b].numTokens
  }

  lemma {:induction false} ReleaseAllKeepsContents(p: Pool, blocks: seq<BlockId>)
    ensures ContentsKept(p, ReleaseAll(p, blocks), {})
    decreases |blocks|
  {
    if blocks != [] {
      ReleaseAllKeepsContents(Ignoring(p, Released(p, blocks[0])), blocks[1..]);
    }
  }

  /** A block listed at two positions is referenced at least twice. */
  lemma SharedBlockCountedTwice(m: Manager, s: SequenceId, i: nat, x: SequenceId, j: nat)
    requires Consistent(m) && s in m.tables && x in m.tables
    requires i < |m.tables[s].blocks| && j < |m.tables[x].blocks|
    requires s != x || i != j
    requires m.tables[s].blocks[i] == m.tables[x].blocks[j]
    ensures m.tables[s].blocks[i] < |m.pool.blocks|
    ensures m.pool.blocks[m.tables[s].blocks[i]].refCount >= 2
  {
    hide AllRefs;
    var b, t := m.tables[s].blocks[i], m.tables[s].blocks;
    AllRefsOf(m.tables, s);
    if s != x {
      AllRefsOf(m.tables - {s}, x);
      assert b in multiset(m.tables[x].blocks);
      assert b in multiset(t);
    } else if i < j {
      TwoOccurrences(t, i, j);
    } else {
      TwoOccurrences(t, j, i);
    }
    assert AllRefs(m.tables)[b] >= 2;
    assert b in AllRefs(m.tables);
  }

  // ----- Allocation -----

  /** One round of the allocation loop keeps the index exact and all other contents. */
  lemma AllocChunkKeepsIndex(st: AllocState, chunk: seq<TokenId>)
    requires st.pool.WellFormed() && Indexed(st.pool, st.entries)
    requires forall i :: 0 <= i < |st.pool.freeList| ==> st.pool.freeList[i] < |st.pool.blocks|
    requires AllocChunk(st, chunk).Some?
    requires |chunk| <= st.pool.blockSize
    ensures var next := AllocChunk(st, chunk).value;
            && Indexed(next.pool, next.entries)
            && |next.vars.table| == |st.vars.table| + 1
            && next.vars.table[..|st.vars.table|] == st.vars.table
            && var b := next.vars.table[|st.vars.table|];
               if AdoptChunk(st, chunk).Some?
               then ContentsKept(st.pool, next.pool, {}) && next.vars.outcome.reused == st.vars.outcome.reused + 1
                    && b < |st.pool.blocks| && st.pool.blocks[b].hash == ChunkHash(st, chunk)
               else ContentsKept(st.pool, next.pool, {b}) && next.vars.outcome.reused == st.vars.outcome.reused
                    && b < |next.pool.blocks| && next.pool.blocks[b].hash == None
  {
    hide HashBlock;
  }

  /** The blocks computed in the allocation carry no digest; all others keep their contents. */
  lemma {:induction false} AllocFromKeepsIndex(m: Manager, prompt: seq<TokenId>, st: AllocState, pos: nat)
    requires m.pool.blockSize > 0 && pos <= |prompt|
    requires AllocInv(m, prompt, st, pos) && st.pool.WellFormed()
    requires AllocFrom(st, prompt, pos).1
    requires Indexed(st.pool, st.entries)
    requires ContentsKept(m.pool, st.pool, Elements(st.vars.table[st.vars.outcome.reused..]))
    requires forall b: BlockId :: b in st.vars.table[st.vars.outcome.reused..] ==>
               b < |st.pool.blocks| && st.pool.blocks[b].hash == None
    ensures var end := AllocFrom(st, prompt, pos).0;
            && AllocInv(m, prompt, end, |prompt|)
            && Indexed(end.pool, end.entries)
            && ContentsKept(m.pool, end.pool, Elements(end.vars.table[end.vars.outcome.reused..]))
            && forall b: BlockId :: b in end.vars.table[end.vars.outcome.reused..] ==>
                 b < |end.pool.blocks| && end.pool.blocks[b].hash == None
    decreases |prompt| - pos
  {
    hide AllocChunk, AdoptChunk, AllocInv, Indexed;
    if pos < |prompt| {
      AllocInvBlockSize(m, prompt, st, pos);
      var end := ChunkEnd(pos, |prompt|, st.pool.blockSize);
      var chunk := prompt[pos..end];
      AllocChunkKeepsIndex(st, chunk);
      if AdoptChunk(st, chunk).Some? {
        AllocChunkAdopts(m, prompt, st, pos);
      } else {
        AllocChunkComputes(m, prompt, st, pos);
      }
      AllocChunkWellFormed(st, chunk);
      AllocTailStep(m, prompt, st, pos);
      AllocFromKeepsIndex(m, prompt, AllocChunk(st, chunk).value, end);
    }
  }

  lemma AllocTailStep(m: Manager, prompt: seq<TokenId>, st: AllocState, pos: nat)
    requires m.pool.blockSize > 0 && pos < |prompt| && st.pool.blockSize == m.pool.blockSize
    requires AllocInv(m, prompt, st, pos) && st.pool.WellFormed() && Indexed(st.pool, st.entries)
    requires AllocChunk(st, prompt[pos..ChunkEnd(pos, |prompt|, m.pool.blockSize)]).Some?
    requires ContentsKept(m.pool, st.pool, Elements(st.vars.table[st.vars.outcome.reused..]))
    requires forall b: BlockId :: b in st.vars.table[st.vars.outcome.reused..] ==>
               b < |st.pool.blocks| && st.pool.blocks[b].hash == None
    ensures var next := AllocChunk(st, prompt[pos..ChunkEnd(pos, |prompt|, m.pool.blockSize)]).value;
            && next.vars.outcome.reused <= |next.vars.table|
            && ContentsKept(m.pool, next.pool, Elements(next.vars.table[next.vars.outcome.reused..]))
            && forall b: BlockId :: b in next.vars.table[next.vars.outcome.reused..] ==>
                 b < |next.pool.blocks| && next.pool.blocks[b].hash == None
  {
    hide AllocChunk, AdoptChunk, Indexed, AllocInv, ChunkHash;
    var chunk := prompt[pos..ChunkEnd(pos, |prompt|, m.pool.blockSize)];
    var next, v := AllocChunk(st, chunk).value, st.vars;
    AllocInvShape(m, prompt, st, pos);
    AllocChunkKeepsIndex(st, chunk);
    var b := next.vars.table[|v.table|];
    assert next.vars.table == v.table + [b];
    if AdoptChunk(st, chunk).Some? {
      AdoptingMeansMatching(st, chunk);
      assert v.table[v.outcome.reused..] == [];
      assert next.vars.table[next.vars.outcome.reused..] == [];
    } else {
      assert next.vars.table[v.outcome.reused..] == v.table[v.outcome.reused..] + [b];
    }
  }

  lemma AllocInvShape(m: Manager, prompt: seq<TokenId>, st: AllocState, pos: nat)
    requires m.pool.blockSize > 0 && AllocInv(m, prompt, st, pos)
    ensures st.vars.outcome.reused <= |st.vars.table|
    ensures st.vars.matching ==> st.vars.outcome.reused == |st.vars.table|
    ensures forall i :: 0 <= i < |st.pool.freeList| ==> st.pool.freeList[i] < |st.pool.blocks|
  {
    assert forall i :: 0 <= i < |st.pool.freeList| ==> st.pool.freeList[i] in st.pool.freeList;
  }

  lemma AdoptingMeansMatching(st: AllocState, chunk: seq<TokenId>)
    requires AdoptChunk(st, chunk).Some?
    ensures st.vars.matching
  {
  }

  /** What allocation does to contents: the computed blocks lose theirs, nothing else changes. */
  lemma AllocationContents(m: Manager, s: SequenceId, prompt: seq<TokenId>)
    requires Consistent(m) && Indexed(m.pool, m.entries)
    requires Allocated(m, s, prompt).1.Ok?
    ensures var (after, r) := Allocated(m, s, prompt);
            && s !in m.tables && AllocationExact(m, s, prompt, after, r.value)
            && Indexed(after.pool, after.entries)
            && ContentsKept(m.pool, after.pool, Elements(after.tables[s].blocks[r.value.reused..]))
            && forall b: BlockId :: b in after.tables[s].blocks[r.value.reused..] ==>
                 b < |after.pool.blocks| && after.pool.blocks[b].hash == None
  {
    hide AllocationExact, AllocInv, Conserves, Indexed;
    AllocationIsExact(m, s, prompt);
    AllocStartInv(m, prompt);
    AllocFromKeepsIndex(m, prompt, AllocStart(m), 0);
  }

  /** A cached block named by the leading run carries the digest of its prefix. */
  lemma CachedBlockCarriesDigest(m: Manager, prompt: seq<TokenId>, i: nat, size: nat, b: BlockId)
    requires size > 0 && Indexed(m.pool, m.entries) && CachedAt(m.entries, prompt, i, size, b)
    ensures b < |m.pool.blocks| && HasBlock(prompt, i, size)
    ensures m.pool.blocks[b].hash == Some(BlockDigest(prompt, i, size))
  {
    hide BlockDigest, BlockTokens;
  }

  /** Sequences that had a table before keep the hashing of their blocks. */
  lemma AllocationKeepsOthers(m: Manager, s: SequenceId, prompt: seq<TokenId>, x: SequenceId, own: seq<TokenId>)
    requires Consistent(m) && Indexed(m.pool, m.entries) && Allocated(m, s, prompt).1.Ok?
    requires x in m.tables && TableHashed(m.pool, m.pool.blockSize, own, m.tables[x])
    ensures x != s && TableHashed(Allocated(m, s, prompt).0.pool, m.pool.blockSize, own, m.tables[x])
  {
    hide BlockDigest, AllRefs, Indexed, CachedAt, Allocated, CeilDiv;
    var (after, r) := Allocated(m, s, prompt);
    AllocationContents(m, s, prompt);
    var table, reused, refs := after.tables[s].blocks, r.value.reused, AllRefs(m.tables);
    AllRefsOf(after.tables, s);
    assert after.tables - {s} == m.tables;
    forall i | 0 <= i < |m.tables[x].blocks|
      ensures BlockHashed(after.pool, m.pool.blockSize, own, m.tables[x].blocks[i], i)
    {
      var b := m.tables[x].blocks[i];
      TableBlocksHeld(m.tables, x, b);
      assert b !in table[reused..];
      if m.pool.blocks[b].hash.None? && b in table {
        var j :| 0 <= j < |table| && table[j] == b;
        CachedBlockCarriesDigest(m, prompt, j, m.pool.blockSize, b);
      }
      assert b !in table ==> multiset(table)[b] == 0;
    }
  }

  lemma AllocationHashesOwn(m: Manager, s: SequenceId, prompt: seq<TokenId>)
    requires Consistent(m) && Indexed(m.pool, m.entries) && Allocated(m, s, prompt).1.Ok?
    ensures var (after, r) := Allocated(m, s, prompt);
            s in after.tables && TableHashed(after.pool, m.pool.blockSize, prompt, after.tables[s])
  {
    hide BlockDigest, AllRefs, Indexed, CachedAt, Allocated, CeilDiv;
    var (after, r) := Allocated(m, s, prompt);
    AllocationContents(m, s, prompt);
    ComputedBlocksAreExclusive(m, s, prompt, after, r.value);
    var table, reused := after.tables[s].blocks, r.value.reused;
    forall i | 0 <= i < |table| ensures BlockHashed(after.pool, m.pool.blockSize, prompt, table[i], i) {
      if i < reused {
        CachedBlockCarriesDigest(m, prompt, i, m.pool.blockSize, table[i]);
        assert table[i] !in table[reused..] by {
          TailIsDistinct(AllRefs(m.tables), table, reused);
          assert table[i] in table[..reused];
        }
      } else {
        assert table[i] in table[reused..];
      }
    }
  }

  lemma OriginsAfterRewrite(p: Pool, q: Pool, size: nat, origin: map<BlockId, seq<TokenId>>, lost: set<BlockId>)
    requires size > 0 && OriginsKnown(p, size, origin) && ContentsKept(p, q, lost)
    requires forall b :: b in lost ==> b < |q.blocks| && q.blocks[b].hash == None
    ensures OriginsKnown(q, size, origin - lost)
  {
    hide ChainHash;
  }

  lemma AllocateKeepsTracked(h: History, s: SequenceId, prompt: seq<TokenId>)
    requires Tracked(h)
    ensures Tracked(Step(h, OpAllocate(s, prompt)))
  {
    hide BlockDigest, AllRefs, Indexed, CachedAt, TableHashed, OriginsKnown, ContentsKept, Conserves, Allocated, CeilDiv, LeadingRun, FreshTail;
    var m := h.m;
    AllocationIsExact(m, s, prompt);
    var (after, r) := Allocated(m, s, prompt);
    if r.Ok? {
      AllocationContents(m, s, prompt);
      AllocationHashesOwn(m, s, prompt);
      forall x | x in m.tables
        ensures x != s && TableHashed(after.pool, m.pool.blockSize, h.prompts[x], m.tables[x])
      {
        AllocationKeepsOthers(m, s, prompt, x, h.prompts[x]);
      }
      OriginsAfterRewrite(m.pool, after.pool, m.pool.blockSize, h.origin,
                          Elements(after.tables[s].blocks[r.value.reused..]));
    }
  }

  // ----- Publication -----

  /** The parts of `Tracked` that publication touches, for fixed tables. */
  ghost predicate Publishing(h: History, st: CommitState, origin: map<BlockId, seq<TokenId>>) {
    && st.pool.blockSize > 0
    && Consistent(h.m.(pool := st.pool))
    && h.prompts.Keys == h.m.tables.Keys
    && Indexed(st.pool, st.entries)
    && (forall s :: s in h.m.tables ==> TableHashed(st.pool, st.pool.blockSize, h.prompts[s], h.m.tables[s]))
    && OriginsKnown(st.pool, st.pool.blockSize, origin)
  }

  /** Publication of logical block `i` of a table. */
  ghost function PublishAt(st: CommitState, b: BlockId, prompt: seq<TokenId>, i: nat): CommitState
    requires st.pool.blockSize > 0 && HasBlock(prompt, i, st.pool.blockSize)
  {
    CommitBlock(st, b, BlockDigest(prompt, i, st.pool.blockSize), BlockTokens(prompt, i, st.pool.blockSize))
  }

  ghost predicate CanPublish(h: History, st: CommitState, origin: map<BlockId, seq<TokenId>>, s: SequenceId, i: nat) {
    && Publishing(h, st, origin)
    && s in h.m.tables && i < |h.m.tables[s].blocks| && HasBlock(h.prompts[s], i, st.pool.blockSize)
  }

  /** A block listed twice that is about to be published carries the digest already. */
  lemma PublishedDigestIsStable(h: History, st: CommitState, origin: map<BlockId, seq<TokenId>>,
                                s: SequenceId, i: nat, x: SequenceId, j: nat)
    requires CanPublish(h, st, origin, s, i)
    requires x in h.m.tables && j < |h.m.tables[x].blocks|
    requires (s != x || i != j) && h.m.tables[s].blocks[i] == h.m.tables[x].blocks[j]
    ensures var b := h.m.tables[s].blocks[i];
            b < |st.pool.blocks| && st.pool.blocks[b].hash == Some(BlockDigest(h.prompts[s], i, st.pool.blockSize))
  {
    hide BlockDigest, AllRefs, Indexed, OriginsKnown, Conserves;
    SharedBlockCountedTwice(h.m.(pool := st.pool), s, i, x, j);
    assert BlockHashed(st.pool, st.pool.blockSize, h.prompts[s], h.m.tables[s].blocks[i], i);
  }

  lemma PublishWrites(h: History, st: CommitState, origin: map<BlockId, seq<TokenId>>, s: SequenceId, i: nat)
    requires CanPublish(h, st, origin, s, i)
    ensures var b := h.m.tables[s].blocks[i];
            var next := PublishAt(st, b, h.prompts[s], i);
            && b < |st.pool.blocks|
            && WithContents(st.pool, b, st.pool.blockSize, Some(BlockDigest(h.prompts[s], i, st.pool.blockSize)))
               == Some(next.pool)
            && next.entries == Published(st.entries, BlockDigest(h.prompts[s], i, st.pool.blockSize), b,
                                         BlockTokens(h.prompts[s], i, st.pool.blockSize))
  {
    hide BlockDigest, AllRefs, Indexed, OriginsKnown, Conserves;
    assert BlockHashed(st.pool, st.pool.blockSize, h.prompts[s], h.m.tables[s].blocks[i], i);
  }

  lemma PublishKeepsTable(h: History, st: CommitState, origin: map<BlockId, seq<TokenId>>,
                          s: SequenceId, i: nat, x: SequenceId)
    requires CanPublish(h, st, origin, s, i) && x in h.m.tables
    ensures TableHashed(PublishAt(st, h.m.tables[s].blocks[i], h.prompts[s], i).pool, st.pool.blockSize,
                        h.prompts[x], h.m.tables[x])
  {
    hide BlockDigest, AllRefs, Indexed, OriginsKnown, Conserves, PublishAt;
    var size, table, q := st.pool.blockSize, h.m.tables[x], PublishAt(st, h.m.tables[s].blocks[i], h.prompts[s], i).pool;
    PublishWrites(h, st, origin, s, i);
    forall j | 0 <= j < |table.blocks| ensures BlockHashed(q, size, h.prompts[x], table.blocks[j], j) {
      assert BlockHashed(st.pool, size, h.prompts[x], table.blocks[j], j);
      if table.blocks[j] == h.m.tables[s].blocks[i] && (s != x || i != j) {
        PublishedDigestIsStable(h, st, origin, s, i, x, j);
      }
    }
  }

  /** Publication keeps the digest of a block that already carries one. */
  lemma PublishedIsRewrittenEqual(h: History, st: CommitState, origin: map<BlockId, seq<TokenId>>,
                                  s: SequenceId, i: nat, b: BlockId)
    requires CanPublish(h, st, origin, s, i)
    requires b < |st.pool.blocks| && st.pool.blocks[b].hash.Some?
    ensures var q := PublishAt(st, h.m.tables[s].blocks[i], h.prompts[s], i).pool;
            && b < |q.blocks|
            && q.blocks[b].hash == st.pool.blocks[b].hash && q.blocks[b].numTokens == st.pool.blocks[b].numTokens
  {
    hide BlockDigest, ChainHash, AllRefs, Conserves, Indexed, PublishAt;
    PublishWrites(h, st, origin, s, i);
    assert BlockHashed(st.pool, st.pool.blockSize, h.prompts[s], h.m.tables[s].blocks[i], i);
  }

  lemma ThroughHash(prompt: seq<TokenId>, i: nat, size: nat)
    requires size > 0 && HasBlock(prompt, i, size)
    ensures ChainHash(Through(prompt, i, size), size) == Some(BlockDigest(prompt, i, size))
    ensures WholeBlocks(Through(prompt, i, size), size)
  {
    hide BlockDigest, ChainHash;
    PrefixHashNext(prompt, i, size);
    PrefixHashIs(prompt, i + 1, size);
    MulDivExact(i + 1, size);
    MulAtLeast(size, i + 1);
  }

  lemma PrefixHashIs(prompt: seq<TokenId>, i: nat, size: nat)
    requires size > 0 && i * size <= |prompt|
    ensures PrefixHash(prompt, i, size) == ChainHash(prompt[..i * size], size)
  {
  }

  lemma PublishKeepsIndex(h: History, st: CommitState, origin: map<BlockId, seq<TokenId>>, s: SequenceId, i: nat)
    requires CanPublish(h, st, origin, s, i)
    ensures var b := h.m.tables[s].blocks[i];
            var next := PublishAt(st, b, h.prompts[s], i);
            && Indexed(next.pool, next.entries)
            && OriginsKnown(next.pool, st.pool.blockSize, origin[b := Through(h.prompts[s], i, st.pool.blockSize)])
  {
    hide BlockDigest, AllRefs, Conserves, ChainHash, PublishAt, Through, BlockTokens, WholeBlocks;
    PublishWrites(h, st, origin, s, i);
    ThroughHash(h.prompts[s], i, st.pool.blockSize);
    assert BlockHashed(st.pool, st.pool.blockSize, h.prompts[s], h.m.tables[s].blocks[i], i);
  }

  lemma PublishBlockKeeps(h: History, st: CommitState, origin: map<BlockId, seq<TokenId>>, s: SequenceId, i: nat)
    requires CanPublish(h, st, origin, s, i)
    ensures var b := h.m.tables[s].blocks[i];
            var next := PublishAt(st, b, h.prompts[s], i);
            && next.pool.blockSize == st.pool.blockSize
            && Publishing(h, next, origin[b := Through(h.prompts[s], i, st.pool.blockSize)])
  {
    hide BlockDigest, AllRefs, Conserves, ChainHash, Indexed, OriginsKnown, TableHashed, PublishAt, Through, BlockTokens;
    var size, b := st.pool.blockSize, h.m.tables[s].blocks[i];
    var next := PublishAt(st, b, h.prompts[s], i);
    PublishWrites(h, st, origin, s, i);
    PublishKeepsIndex(h, st, origin, s, i);
    WithContentsConserves(st.pool, AllRefs(h.m.tables), b, size, Some(BlockDigest(h.prompts[s], i, size)));
    forall x | x in h.m.tables ensures TableHashed(next.pool, size, h.prompts[x], h.m.tables[x]) {
      PublishKeepsTable(h, st, origin, s, i, x);
    }
  }

  /** The publication loop from logical block `i` on. */
  ghost function PublishFrom(h: History, st: CommitState, s: SequenceId, i: nat): CommitState
    requires st.pool.blockSize > 0 && s in h.m.tables && s in h.prompts
    requires i * st.pool.blockSize <= |h.prompts[s]|
  {
    CommitFrom(st, h.m.tables[s].blocks, h.prompts[s], i * st.pool.blockSize, i,
               PrefixHash(h.prompts[s], i, st.pool.blockSize))
  }

  lemma PublishFromUnfolds(h: History, st: CommitState, s: SequenceId, i: nat)
    requires st.pool.blockSize > 0 && s in h.m.tables && s in h.prompts
    requires i * st.pool.blockSize <= |h.prompts[s]|
    ensures i < |h.m.tables[s].blocks| && HasBlock(h.prompts[s], i, st.pool.blockSize) ==>
              var next := PublishAt(st, h.m.tables[s].blocks[i], h.prompts[s], i);
              && (i + 1) * st.pool.blockSize == i * st.pool.blockSize + st.pool.blockSize
              && (next.pool.blockSize == st.pool.blockSize ==>
                    PublishFrom(h, st, s, i) == PublishFrom(h, next, s, i + 1))
    ensures !(i < |h.m.tables[s].blocks| && HasBlock(h.prompts[s], i, st.pool.blockSize)) ==>
              PublishFrom(h, st, s, i) == st
  {
    hide HashBlock, PrefixHash, CommitBlock;
    if i < |h.m.tables[s].blocks| && HasBlock(h.prompts[s], i, st.pool.blockSize) {
      PrefixHashNext(h.prompts[s], i, st.pool.blockSize);
    }
  }

  /** The loop keeps the invariant, and the contents of every block published before. */
  lemma {:induction false} PublishFromKeeps(h: History, st: CommitState, origin: map<BlockId, seq<TokenId>>,
                                            s: SequenceId, i: nat)
    requires Publishing(h, st, origin) && s in h.m.tables && i * st.pool.blockSize <= |h.prompts[s]|
    ensures var end := PublishFrom(h, st, s, i);
            && Publishing(h, end, OriginFrom(origin, st.pool.blockSize, h.m.tables[s].blocks, h.prompts[s], i))
            && |end.pool.blocks| >= |st.pool.blocks|
            && forall b :: 0 <= b < |st.pool.blocks| && st.pool.blocks[b].hash.Some? ==>
                 && end.pool.blocks[b].hash == st.pool.blocks[b].hash
                 && end.pool.blocks[b].numTokens == st.pool.blocks[b].numTokens
    decreases |h.m.tables[s].blocks| - i
  {
    hide Publishing, PublishFrom, PublishAt;
    PublishingBlockSize(h, st, origin);
    PublishFromUnfolds(h, st, s, i);
    if i < |h.m.tables[s].blocks| && HasBlock(h.prompts[s], i, st.pool.blockSize) {
      var b := h.m.tables[s].blocks[i];
      var next := PublishAt(st, b, h.prompts[s], i);
      CanPublishNow(h, st, origin, s, i);
      PublishBlockKeeps(h, st, origin, s, i);
      PublishWrites(h, st, origin, s, i);
      forall x | 0 <= x < |st.pool.blocks| && st.pool.blocks[x].hash.Some?
        ensures next.pool.blocks[x].hash == st.pool.blocks[x].hash
                && next.pool.blocks[x].numTokens == st.pool.blocks[x].numTokens
      {
        PublishedIsRewrittenEqual(h, st, origin, s, i, x);
      }
      PublishFromKeeps(h, next, origin[b := Through(h.prompts[s], i, st.pool.blockSize)], s, i + 1);
    }
  }

  lemma CanPublishNow(h: History, st: CommitState, origin: map<BlockId, seq<TokenId>>, s: SequenceId, i: nat)
    requires Publishing(h, st, origin) && s in h.m.tables && i < |h.m.tables[s].blocks|
    requires HasBlock(h.prompts[s], i, st.pool.blockSize)
    ensures CanPublish(h, st, origin, s, i)
  {
  }

  lemma PublishingBlockSize(h: History, st: CommitState, origin: map<BlockId, seq<TokenId>>)
    requires Publishing(h, st, origin)
    ensures st.pool.blockSize > 0 && h.prompts.Keys == h.m.tables.Keys
  {
  }

  lemma CommitKeepsTracked(h: History, s: SequenceId)
    requires Tracked(h)
    ensures Tracked(Step(h, OpCommit(s)))
  {
    hide BlockDigest, AllRefs, Conserves, ChainHash, Indexed, OriginsKnown, TableHashed;
    if s in h.m.tables && h.m.prefixCaching {
      var st := CommitState(h.m.pool, h.m.entries);
      assert h.m.(pool := st.pool) == h.m;
      PublishFromKeeps(h, st, h.origin, s, 0);
      CommittingConserves(h.m, s, h.prompts[s]);
      EmptyPrefix(h.prompts[s], h.m.pool.blockSize);
    }
  }

  lemma EmptyPrefix(prompt: seq<TokenId>, size: nat)
    requires size > 0
    ensures PrefixHash(prompt, 0, size) == None
  {
    assert prompt[..0 * size] == [];
  }

  // ----- Growth -----

  /**
   * Appending writes one block only: it belongs to `s` alone, carries no digest before or
   * after unless it was free, and no index entry names it. All other contents stay.
   */
  ghost predicate WritesExclusively(m: Manager, after: Manager, s: SequenceId) {
    && s in after.tables && after.tables[s].blocks != []
    && var b := LastBlock(after, s);
       && b < |after.pool.blocks|
       && after.pool.blocks[b].refCount == 1 && after.pool.blocks[b].hash == None
       && (b < |m.pool.blocks| && (m.pool.blocks[b].hash == None || m.pool.blocks[b].refCount == 0))
       && (forall k :: k in after.entries ==> after.entries[k].block != b)
       && (forall x :: x in m.tables && x != s ==> b !in m.tables[x].blocks)
       && ContentsKept(m.pool, after.pool, {b})
  }

  lemma GrowthKeepsIndex(m: Manager, s: SequenceId)
    requires Consistent(m) && Indexed(m.pool, m.entries) && s in m.tables && Grown(m, s).Some?
    requires m.tables[s].numTokens % m.pool.blockSize == 0
    ensures var g := Grown(m, s).value; var b := LastBlock(g, s);
            && g.tables[s].blocks == m.tables[s].blocks + [b]
            && b !in AllRefs(m.tables) && b < |m.pool.blocks| && m.pool.blocks[b].refCount == 0
            && Indexed(g.pool, g.entries) && ContentsKept(m.pool, g.pool, {b})
            && g.pool.blocks[b].hash == None
  {
    hide AllRefs;
    CeilSuccessor(m.tables[s].numTokens, m.pool.blockSize);
    TakeConserves(m.pool, AllRefs(m.tables));
  }

  /** Without a new block, the block written was already unpublished and unshared. */
  lemma TailBlockIsOwn(h: History, s: SequenceId)
    requires Tracked(h) && s in h.m.tables && h.m.tables[s].numTokens % h.m.pool.blockSize != 0
    ensures var t := h.m.tables[s].blocks; var b := LastBlock(h.m, s);
            && t != [] && b == t[|t| - 1] && b < |h.m.pool.blocks|
            && h.m.pool.blocks[b].hash == None && h.m.pool.blocks[b].refCount == 1
  {
    hide BlockDigest, AllRefs, Indexed, OriginsKnown, Conserves;
    var table, size := h.m.tables[s], h.m.pool.blockSize;
    CeilSuccessor(table.numTokens, size);
    var i := |table.blocks| - 1;
    assert i == table.numTokens / size;
    assert i * size + size > table.numTokens by {
      DivisionEquation(table.numTokens, size);
      assert i * size == size * i;
    }
    assert BlockHashed(h.m.pool, size, h.prompts[s], table.blocks[i], i);
  }

  lemma ExclusiveBlock(m: Manager, s: SequenceId, i: nat, x: SequenceId)
    requires Consistent(m) && s in m.tables && x in m.tables && x != s && i < |m.tables[s].blocks|
    requires m.tables[s].blocks[i] < |m.pool.blocks| && m.pool.blocks[m.tables[s].blocks[i]].refCount == 1
    ensures m.tables[s].blocks[i] !in m.tables[x].blocks
  {
    forall j | 0 <= j < |m.tables[x].blocks| ensures m.tables[x].blocks[j] != m.tables[s].blocks[i] {
      if m.tables[x].blocks[j] == m.tables[s].blocks[i] {
        SharedBlockCountedTwice(m, s, i, x, j);
      }
    }
  }

  lemma GrownWritesExclusively(h: History, s: SequenceId)
    requires Tracked(h) && s in h.m.tables && Grown(h.m, s).Some?
    ensures WritesExclusively(h.m, Grown(h.m, s).value, s)
    ensures Indexed(Grown(h.m, s).value.pool, Grown(h.m, s).value.entries)
  {
    hide BlockDigest, AllRefs, OriginsKnown, Conserves, TableHashed;
    var m, g := h.m, Grown(h.m, s).value;
    GrownConserves(m, s);
    GrownWellFormed(m, s);
    AllRefsOf(g.tables, s);
    var b, last := LastBlock(g, s), |g.tables[s].blocks| - 1;
    if m.tables[s].numTokens % m.pool.blockSize == 0 {
      GrowthKeepsIndex(m, s);
      forall x | x in m.tables && x != s ensures b !in m.tables[x].blocks {
        if b in m.tables[x].blocks {
          TableBlocksHeld(m.tables, x, b);
        }
      }
      NewBlockCountedOnce(m, g, s, b);
    } else {
      hide Grown;
      GrownInPlace(m, s);
      TailBlockIsOwn(h, s);
      forall x | x in m.tables && x != s ensures b !in m.tables[x].blocks {
        ExclusiveBlock(m, s, last, x);
      }
    }
  }

  lemma GrownInPlace(m: Manager, s: SequenceId)
    requires m.WellFormed() && s in m.tables && m.tables[s].numTokens % m.pool.blockSize != 0
    ensures Grown(m, s).Some?
    ensures var g := Grown(m, s).value;
            g.pool == m.pool && g.entries == m.entries && g.tables[s].blocks == m.tables[s].blocks
  {
    CeilSuccessor(m.tables[s].numTokens, m.pool.blockSize);
  }

  lemma NewBlockCountedOnce(m: Manager, g: Manager, s: SequenceId, b: BlockId)
    requires Consistent(m) && Consistent(g) && s in m.tables && s in g.tables
    requires g.tables == m.tables[s := g.tables[s]] && g.tables[s].blocks == m.tables[s].blocks + [b]
    requires b !in AllRefs(m.tables)
    ensures b < |g.pool.blocks| && g.pool.blocks[b].refCount == 1
  {
    hide AllRefs;
    AllRefsOf(m.tables, s);
    AllRefsOf(g.tables, s);
    assert g.tables - {s} == m.tables - {s};
    assert multiset(g.tables[s].blocks) == multiset(m.tables[s].blocks) + multiset{b};
    assert b in AllRefs(g.tables);
  }

  lemma AppendWritesExclusively(h: History, s: SequenceId)
    requires Tracked(h) && Appended(h.m, s).1.None?
    ensures WritesExclusively(h.m, Appended(h.m, s).0, s)
    ensures Indexed(Appended(h.m, s).0.pool, Appended(h.m, s).0.entries)
  {
    hide BlockDigest, AllRefs, OriginsKnown, Conserves, TableHashed, Grown, CeilDiv;
    GrownWritesExclusively(h, s);
    GrownWellFormed(h.m, s);
  }

  /** A rewrite of one exclusive block keeps the hashing of every table that does not list it. */
  lemma RewriteKeepsTable(p: Pool, q: Pool, size: nat, prompt: seq<TokenId>, t: BlockTable, b: BlockId)
    requires size > 0 && TableHashed(p, size, prompt, t) && ContentsKept(p, q, {b}) && b !in t.blocks
    requires forall x :: 0 <= x < |p.blocks| && x != b ==> q.blocks[x].refCount == p.blocks[x].refCount
    ensures TableHashed(q, size, prompt, t)
  {
    hide BlockDigest;
    forall i | 0 <= i < |t.blocks| ensures BlockHashed(q, size, prompt, t.blocks[i], i) {
      assert BlockHashed(p, size, prompt, t.blocks[i], i);
      assert t.blocks[i] in t.blocks;
    }
  }

  lemma AppendKeepsCounts(m: Manager, s: SequenceId)
    requires Consistent(m) && Appended(m, s).1.None?
    ensures var after := Appended(m, s).0;
            |after.pool.blocks| == |m.pool.blocks| &&
            forall x :: 0 <= x < |m.pool.blocks| && x != LastBlock(after, s) ==>
              after.pool.blocks[x].refCount == m.pool.blocks[x].refCount
  {
    CeilSuccessor(m.tables[s].numTokens, m.pool.blockSize);
    AppendingIsExact(m, s);
  }

  lemma AppendHashesOwn(h: History, s: SequenceId)
    requires Tracked(h) && Appended(h.m, s).1.None?
    ensures var after := Appended(h.m, s).0;
            s in h.m.tables && s in after.tables
            && TableHashed(after.pool, h.m.pool.blockSize, h.prompts[s], after.tables[s])
  {
    hide BlockDigest, AllRefs, OriginsKnown, Conserves, Appended, Indexed, CeilDiv;
    AppendingIsExact(h.m, s);
    var after, size, prompt := Appended(h.m, s).0, h.m.pool.blockSize, h.prompts[s];
    AppendWritesExclusively(h, s);
    AppendKeepsCounts(h.m, s);
    AppendedBlocks(h.m, s);
    var was, now, b := h.m.tables[s].blocks, after.tables[s].blocks, LastBlock(after, s);
    forall i | 0 <= i < |now| ensures BlockHashed(after.pool, size, prompt, now[i], i) {
      if now[i] != b {
        assert now[i] == was[i];
        assert BlockHashed(h.m.pool, size, prompt, was[i], i);
      }
    }
  }

  lemma AppendedBlocks(m: Manager, s: SequenceId)
    requires Consistent(m) && Appended(m, s).1.None?
    ensures var after := Appended(m, s).0;
            && s in m.tables && s in after.tables
            && (after.tables[s].blocks == m.tables[s].blocks
                || after.tables[s].blocks == m.tables[s].blocks + [LastBlock(after, s)])
  {
    CeilSuccessor(m.tables[s].numTokens, m.pool.blockSize);
    GrownWellFormed(m, s);
  }

  lemma AppendKeepsTracked(h: History, s: SequenceId)
    requires Tracked(h)
    ensures Tracked(Step(h, OpAppend(s)))
  {
    hide BlockDigest, AllRefs, Indexed, TableHashed, OriginsKnown, ContentsKept, Conserves, Appended, CeilDiv;
    var m := h.m;
    AppendingIsExact(m, s);
    var (after, err) := Appended(m, s);
    if err.None? {
      AppendWritesExclusively(h, s);
      AppendHashesOwn(h, s);
      AppendKeepsCounts(m, s);
      var b := LastBlock(after, s);
      forall x | x in m.tables && x != s
        ensures TableHashed(after.pool, m.pool.blockSize, h.prompts[x], m.tables[x])
      {
        RewriteKeepsTable(m.pool, after.pool, m.pool.blockSize, h.prompts[x], m.tables[x], b);
      }
      OriginsAfterRewrite(m.pool, after.pool, m.pool.blockSize, h.origin, {b});
    }
  }

  // ----- Release and eviction -----

  lemma FreeKeepsTable(h: History, s: SequenceId, x: SequenceId)
    requires Tracked(h) && s in h.m.tables && x in h.m.tables && x != s
    ensures TableHashed(Freed(h.m, s).pool, h.m.pool.blockSize, h.prompts[x], h.m.tables[x])
  {
    hide BlockDigest, AllRefs, Indexed, OriginsKnown;
    var m, after, t := h.m, Freed(h.m, s), h.m.tables[x];
    FreeingConserves(m, s);
    ReleaseAllKeepsContents(m.pool, m.tables[s].blocks);
    AllRefsOf(m.tables, s);
    AllRefsOf(after.tables, x);
    forall i | 0 <= i < |t.blocks|
      ensures BlockHashed(after.pool, m.pool.blockSize, h.prompts[x], t.blocks[i], i)
    {
      assert BlockHashed(m.pool, m.pool.blockSize, h.prompts[x], t.blocks[i], i);
      assert t.blocks[i] in multiset(t.blocks);
    }
  }

  lemma FreeKeepsTracked(h: History, s: SequenceId)
    requires Tracked(h)
    ensures Tracked(Step(h, OpFree(s)))
  {
    hide BlockDigest, AllRefs, TableHashed, ChainHash, Conserves;
    FreeingConserves(h.m, s);
    if s in h.m.tables {
      ReleaseAllKeepsContents(h.m.pool, h.m.tables[s].blocks);
      forall x | x in h.m.tables && x != s
        ensures TableHashed(Freed(h.m, s).pool, h.m.pool.blockSize, h.prompts[x], h.m.tables[x])
      {
        FreeKeepsTable(h, s, x);
      }
    } else {
      assert h.prompts - {s} == h.prompts;
    }
  }

  ghost function EvictOne(h: History): History
    requires Tracked(h) && EvictOldest(h.m.pool).Some?
  {
    var e := EvictOldest(h.m.pool).value;
    h.(m := h.m.(pool := e.pool, entries := Dropped(h.m.entries, e.hash, e.block)), origin := h.origin - {e.block})
  }

  lemma EvictOneKeepsTracked(h: History)
    requires Tracked(h) && EvictOldest(h.m.pool).Some?
    ensures Tracked(EvictOne(h))
  {
    hide BlockDigest, AllRefs, TableHashed, OriginsKnown, Conserves;
    var e := EvictOldest(h.m.pool).value;
    EvictOldestConserves(h.m.pool, AllRefs(h.m.tables));
    forall x | x in h.m.tables
      ensures TableHashed(e.pool, h.m.pool.blockSize, h.prompts[x], h.m.tables[x])
    {
      if e.block in h.m.tables[x].blocks {
        TableBlocksHeld(h.m.tables, x, e.block);
      }
      RewriteKeepsTable(h.m.pool, e.pool, h.m.pool.blockSize, h.prompts[x], h.m.tables[x], e.block);
    }
    OriginsAfterRewrite(h.m.pool, e.pool, h.m.pool.blockSize, h.origin, {e.block});
  }

  lemma StillHashedIs(h: History, origin: map<BlockId, seq<TokenId>>)
    requires Tracked(h)
    requires forall b :: b in h.origin ==> b in origin && origin[b] == h.origin[b]
    ensures StillHashed(origin, h.m.pool) == map b | b in origin && b in h.origin :: h.origin[b]
    ensures h.origin.Keys <= origin.Keys ==> StillHashed(origin, h.m.pool) == h.origin
  {
    hide ChainHash, AllRefs, TableHashed, Indexed, Conserves;
  }

  lemma {:induction false} EvictKeepsTracked(h: History, origin: map<BlockId, seq<TokenId>>, count: nat)
    requires Tracked(h)
    requires forall b :: b in h.origin ==> b in origin && origin[b] == h.origin[b]
    ensures var after := EvictedCached(h.m, count);
            Tracked(h.(m := after, origin := StillHashed(origin, after.pool)))
    decreases count
  {
    hide Tracked, StillHashed;
    TrackedWellFormed(h);
    if count > 0 && EvictOldest(h.m.pool).Some? {
      EvictOneKeepsTracked(h);
      EvictKeepsTracked(EvictOne(h), origin, count - 1);
    } else {
      StillHashedIs(h, origin);
    }
  }

  lemma TrackedWellFormed(h: History)
    requires Tracked(h)
    ensures h.m.WellFormed()
  {
  }

  lemma ClearKeepsTracked(h: History)
    requires Tracked(h)
    ensures Tracked(Step(h, OpClear))
  {
    hide BlockDigest, AllRefs, TableHashed, OriginsKnown, Conserves, ChainHash, StillHashed;
    EvictKeepsTracked(h, h.origin, Evictable(h.m.pool, |h.m.pool.freeList|));
  }

  lemma StepKeepsTracked(h: History, op: CacheOp)
    requires Tracked(h)
    ensures Tracked(Step(h, op))
  {
    hide Tracked;
    match op
    case OpAllocate(s, prompt) => AllocateKeepsTracked(h, s, prompt);
    case OpCommit(s) => CommitKeepsTracked(h, s);
    case OpAppend(s) => AppendKeepsTracked(h, s);
    case OpFree(s) => FreeKeepsTracked(h, s);
    case OpEvict(count) => EvictKeepsTracked(h, h.origin, count);
    case OpClear => ClearKeepsTracked(h);
  }

  ghost function Run(h: History, ops: seq<CacheOp>): (r: History)
    requires Tracked(h)
    ensures Tracked(r)
    decreases |ops|
  {
    if ops == [] then h
    else
      StepKeepsTracked(h, ops[0]);
      Run(Step(h, ops[0]), ops[1..])
  }

  // ----- Soundness -----

  ghost function Prompts(ops: seq<CacheOp>): (r: set<seq<TokenId>>)
    ensures forall i :: 0 <= i < |ops| && ops[i].OpAllocate? ==> ops[i].prompt in r
  {
    set i | 0 <= i < |ops| && ops[i].OpAllocate? :: ops[i].prompt
  }

  /** `x` is a nonempty whole-block prefix of one of the prompts. */
  ghost predicate HistoryOf(prompts: set<seq<TokenId>>, x: seq<TokenId>, size: nat)
    requires size > 0
  {
    WholeBlocks(x, size) && exists p :: p in prompts && x <= p
  }

  ghost function LastTokens(x: seq<TokenId>, size: nat): seq<TokenId>
    requires size > 0 && WholeBlocks(x, size)
  {
    x[|x| - size..]
  }

  /** One digest and one last block: all that a lookup compares. */
  ghost predicate Alike(x: seq<TokenId>, y: seq<TokenId>, size: nat)
    requires size > 0 && WholeBlocks(x, size) && WholeBlocks(y, size)
  {
    ChainHash(x, size) == ChainHash(y, size) && LastTokens(x, size) == LastTokens(y, size)
  }

  ghost predicate WholePrefix(u: seq<TokenId>, x: seq<TokenId>, size: nat)
    requires size > 0
  {
    WholeBlocks(u, size) && u <= x
  }

  /** All whole-block prefixes of `x` can be in the index at once: those with one digest end in one block. */
  ghost predicate Coherent(x: seq<TokenId>, size: nat)
    requires size > 0
  {
    forall u, v :: WholePrefix(u, x, size) && WholePrefix(v, x, size) && ChainHash(u, size) == ChainHash(v, size)
      ==> LastTokens(u, size) == LastTokens(v, size)
  }

  /** `y` can enter the index: when its turn comes, no shorter prefix of it has taken its digest. */
  ghost predicate Leading(y: seq<TokenId>, size: nat)
    requires size > 0
  {
    forall u :: WholePrefix(u, y, size) && ChainHash(u, size) == ChainHash(y, size) ==> u == y
  }

  /** The index can confuse `x`, looked up, with `y`, published. */
  ghost predicate Confusable(x: seq<TokenId>, y: seq<TokenId>, size: nat)
    requires size > 0 && WholeBlocks(x, size) && WholeBlocks(y, size)
  {
    x != y && Alike(x, y, size) && Coherent(x, size) && Leading(y, size)
  }

  /** Among the whole-block histories of the prompts, the index can confuse none with another. */
  ghost predicate Unambiguous(prompts: set<seq<TokenId>>, size: nat)
    requires size > 0
  {
    forall x, y :: HistoryOf(prompts, x, size) && HistoryOf(prompts, y, size) ==> !Confusable(x, y, size)
  }

  /** Every prompt and every origin of the state comes from the given prompts. */
  ghost predicate DrawnFrom(h: History, prompts: set<seq<TokenId>>)
    requires Tracked(h)
  {
    && (forall s :: s in h.prompts ==> h.prompts[s] in prompts)
    && (forall b: BlockId :: b in h.origin ==> HistoryOf(prompts, h.origin[b], h.m.pool.blockSize))
  }

  lemma PrefixIsHistory(prompts: set<seq<TokenId>>, prompt: seq<TokenId>, i: nat, size: nat)
    requires size > 0 && prompt in prompts && HasBlock(prompt, i, size)
    ensures HistoryOf(prompts, Through(prompt, i, size), size)
  {
    hide ChainHash, BlockDigest;
    ThroughHash(prompt, i, size);
    assert Through(prompt, i, size) <= prompt;
  }

  lemma {:induction false} OriginFromDrawn(prompts: set<seq<TokenId>>, origin: map<BlockId, seq<TokenId>>, size: nat,
                                           blocks: seq<BlockId>, prompt: seq<TokenId>, i: nat)
    requires size > 0 && prompt in prompts
    requires forall b: BlockId :: b in origin ==> HistoryOf(prompts, origin[b], size)
    ensures forall b: BlockId :: b in OriginFrom(origin, size, blocks, prompt, i) ==>
              HistoryOf(prompts, OriginFrom(origin, size, blocks, prompt, i)[b], size)
    decreases |blocks| - i
  {
    hide HistoryOf;
    if HasBlock(prompt, i, size) && i < |blocks| {
      PrefixIsHistory(prompts, prompt, i, size);
      OriginFromDrawn(prompts, origin[blocks[i] := Through(prompt, i, size)], size, blocks, prompt, i + 1);
    }
  }

  lemma StepDrawnFrom(h: History, op: CacheOp, prompts: set<seq<TokenId>>)
    requires Tracked(h) && DrawnFrom(h, prompts)
    requires op.OpAllocate? ==> op.prompt in prompts
    ensures Tracked(Step(h, op)) && DrawnFrom(Step(h, op), prompts)
    ensures Step(h, op).m.pool.blockSize == h.m.pool.blockSize
  {
    hide HistoryOf, AllRefs, Conserves, Indexed, TableHashed, OriginsKnown, Allocated, Appended, Committed, Freed,
      EvictedCached, Cleared, CeilDiv;
    StepKeepsTracked(h, op);
    StepKeepsBlockSize(h, op);
    match op
    case OpCommit(s) =>
      if s in h.m.tables {
        OriginFromDrawn(prompts, h.origin, h.m.pool.blockSize, h.m.tables[s].blocks, h.prompts[s], 0);
      }
    case _ =>
  }

  lemma EvictedBlockSize(m: Manager, count: nat)
    requires m.WellFormed()
    ensures EvictedCached(m, count).pool.blockSize == m.pool.blockSize
    decreases count
  {
    if count > 0 && EvictOldest(m.pool).Some? {
      var e := EvictOldest(m.pool).value;
      EvictedBlockSize(m.(pool := e.pool, entries := Dropped(m.entries, e.hash, e.block)), count - 1);
    }
  }

  lemma StepKeepsBlockSize(h: History, op: CacheOp)
    requires Tracked(h)
    ensures Step(h, op).m.pool.blockSize == h.m.pool.blockSize
  {
    hide Conserves, AllRefs, Indexed, TableHashed, OriginsKnown;
    match op
    case OpAllocate(s, prompt) => AllocatedWellFormed(h.m, s, prompt);
    case OpCommit(s) =>
      if s in h.m.tables {
        CommittedWellFormed(h.m, s, h.prompts[s]);
      }
    case OpAppend(s) => AppendedWellFormed(h.m, s);
    case OpFree(s) => FreedWellFormed(h.m, s);
    case OpEvict(count) => EvictedBlockSize(h.m, count);
    case OpClear => EvictedBlockSize(h.m, Evictable(h.m.pool, |h.m.pool.freeList|));
  }

  lemma PromptsOfTail(ops: seq<CacheOp>)
    requires ops != []
    ensures Prompts(ops[1..]) <= Prompts(ops)
  {
    forall p | p in Prompts(ops[1..]) ensures p in Prompts(ops) {
      var i :| 0 <= i < |ops[1..]| && ops[1..][i].OpAllocate? && ops[1..][i].prompt == p;
      assert ops[i + 1].prompt == p;
    }
  }

  lemma {:induction false} RunDrawnFrom(h: History, ops: seq<CacheOp>, prompts: set<seq<TokenId>>)
    requires Tracked(h) && DrawnFrom(h, prompts) && Prompts(ops) <= prompts
    ensures DrawnFrom(Run(h, ops), prompts)
    ensures Run(h, ops).m.pool.blockSize == h.m.pool.blockSize
    decreases |ops|
  {
    hide Tracked, DrawnFrom, Step;
    if ops != [] {
      assert ops[0].OpAllocate? ==> ops[0].prompt in Prompts(ops);
      StepDrawnFrom(h, ops[0], prompts);
      PromptsOfTail(ops);
      RunDrawnFrom(Step(h, ops[0]), ops[1..], prompts);
    }
  }

  // ----- Origins are told apart -----

  /** An index entry holds the last block of its block's origin, which entered under its own digest. */
  ghost predicate EntryKnown(e: CacheEntry, origin: map<BlockId, seq<TokenId>>, size: nat)
    requires size > 0
  {
    && e.block in origin && WholeBlocks(origin[e.block], size)
    && e.tokens == LastTokens(origin[e.block], size) && Leading(origin[e.block], size)
  }

  ghost predicate EntriesKnown(entries: Entries, origin: map<BlockId, seq<TokenId>>, size: nat)
    requires size > 0
  {
    forall k :: k in entries ==> EntryKnown(entries[k], origin, size)
  }

  /** A published block in a table originates in that very prefix of the table's prompt. */
  ghost predicate OwnOrigin(origin: map<BlockId, seq<TokenId>>, size: nat, prompt: seq<TokenId>, b: BlockId, i: nat) {
    b in origin ==> HasBlock(prompt, i, size) && origin[b] == Through(prompt, i, size)
  }

  ghost predicate TablesOwn(h: History, origin: map<BlockId, seq<TokenId>>)
    requires h.prompts.Keys == h.m.tables.Keys
  {
    forall s, i :: s in h.m.tables && 0 <= i < |h.m.tables[s].blocks| ==>
      OwnOrigin(origin, h.m.pool.blockSize, h.prompts[s], h.m.tables[s].blocks[i], i)
  }

  ghost predicate OwnOrigins(h: History)
    requires Tracked(h)
  {
    EntriesKnown(h.m.entries, h.origin, h.m.pool.blockSize) && TablesOwn(h, h.origin)
  }

  lemma NewHistoryOwn(numBlocks: nat, blockSize: nat, prefixCaching: bool)
    requires blockSize > 0
    ensures Tracked(NewHistory(numBlocks, blockSize, prefixCaching)) && OwnOrigins(NewHistory(numBlocks, blockSize, prefixCaching))
  {
    NewHistoryTracked(numBlocks, blockSize, prefixCaching);
  }

  /** The whole-block prefixes of a prompt up to logical block `i` end at its logical blocks. */
  lemma PrefixIsThrough(prompt: seq<TokenId>, i: nat, size: nat, u: seq<TokenId>) returns (j: nat)
    requires size > 0 && HasBlock(prompt, i, size) && WholePrefix(u, Through(prompt, i, size), size)
    ensures j <= i && HasBlock(prompt, j, size) && u == Through(prompt, j, size)
  {
    DivisionEquation(|u|, size);
    j := |u| / size - 1;
    assert |u| == size * (j + 1);
    assert size * (j + 1) == j * size + size;
    if j > i {
      MulMonotone(i + 1, j, size);
    }
    MulMonotone(j, i, size);
    assert u == Through(prompt, i, size)[..|u|];
  }

  lemma ThroughEnds(prompt: seq<TokenId>, i: nat, size: nat)
    requires size > 0 && HasBlock(prompt, i, size)
    ensures WholeBlocks(Through(prompt, i, size), size)
    ensures LastTokens(Through(prompt, i, size), size) == BlockTokens(prompt, i, size)
  {
    hide BlockDigest, ChainHash;
    ThroughHash(prompt, i, size);
  }

  /** A prefix found in the index block by block is coherent. */
  lemma FoundIsCoherent(entries: Entries, prompt: seq<TokenId>, i: nat, size: nat, table: seq<BlockId>)
    requires size > 0 && i < |table| && HasBlock(prompt, i, size)
    requires forall j :: 0 <= j <= i ==> CachedAt(entries, prompt, j, size, table[j])
    ensures Coherent(Through(prompt, i, size), size)
  {
    hide BlockDigest, BlockTokens, ChainHash, Through, WholePrefix, LastTokens, HasBlock;
    var x := Through(prompt, i, size);
    forall u, v | WholePrefix(u, x, size) && WholePrefix(v, x, size) && ChainHash(u, size) == ChainHash(v, size)
      ensures WholeBlocks(u, size) && WholeBlocks(v, size) && LastTokens(u, size) == LastTokens(v, size)
    {
      var j := PrefixIsThrough(prompt, i, size, u);
      var k := PrefixIsThrough(prompt, i, size, v);
      ThroughEnds(prompt, j, size);
      ThroughEnds(prompt, k, size);
      ThroughHash(prompt, j, size);
      ThroughHash(prompt, k, size);
      assert CachedAt(entries, prompt, j, size, table[j]) && CachedAt(entries, prompt, k, size, table[k]);
    }
  }

  /** A block found for a prompt originates in that very prefix. */
  lemma FoundIsOwn(h: History, prompts: set<seq<TokenId>>, prompt: seq<TokenId>, i: nat, table: seq<BlockId>)
    requires Tracked(h) && DrawnFrom(h, prompts) && OwnOrigins(h) && Unambiguous(prompts, h.m.pool.blockSize)
    requires prompt in prompts && i < |table|
    requires forall j :: 0 <= j <= i ==> CachedAt(h.m.entries, prompt, j, h.m.pool.blockSize, table[j])
    ensures table[i] in h.origin && HasBlock(prompt, i, h.m.pool.blockSize)
    ensures h.origin[table[i]] == Through(prompt, i, h.m.pool.blockSize)
  {
    hide BlockDigest, BlockTokens, Through, AllRefs, Conserves, TableHashed, HistoryOf, ChainHash, Coherent, Leading, TablesOwn, CeilDiv;
    var size, b := h.m.pool.blockSize, table[i];
    assert CachedAt(h.m.entries, prompt, i, size, b);
    CachedBlockCarriesDigest(h.m, prompt, i, size, b);
    var k := BlockDigest(prompt, i, size);
    assert EntryKnown(h.m.entries[k], h.origin, size);
    FoundIsCoherent(h.m.entries, prompt, i, size, table);
    ThroughEnds(prompt, i, size);
    ThroughHash(prompt, i, size);
    PrefixIsHistory(prompts, prompt, i, size);
    assert HistoryOf(prompts, h.origin[b], size);
    assert !Confusable(Through(prompt, i, size), h.origin[b], size);
  }

  /** In state `h`, every block that `prompt` would adopt was published under the prompt's own prefix. */
  ghost predicate AdoptsOwnHistory(h: History, s: SequenceId, prompt: seq<TokenId>)
    requires Tracked(h)
  {
    var (after, r) := Allocated(h.m, s, prompt);
    r.Ok? ==>
      && s in after.tables && r.value.reused <= |after.tables[s].blocks|
      && forall i :: 0 <= i < r.value.reused ==>
           && HasBlock(prompt, i, h.m.pool.blockSize)
           && after.tables[s].blocks[i] in h.origin
           && h.origin[after.tables[s].blocks[i]] == Through(prompt, i, h.m.pool.blockSize)
  }

  lemma AdoptionIsSound(h: History, prompts: set<seq<TokenId>>, s: SequenceId, prompt: seq<TokenId>)
    requires Tracked(h) && DrawnFrom(h, prompts) && OwnOrigins(h)
    requires Unambiguous(prompts, h.m.pool.blockSize) && prompt in prompts
    ensures AdoptsOwnHistory(h, s, prompt)
  {
    hide BlockDigest, Through, AllRefs, Conserves, TableHashed, OriginsKnown, Unambiguous, OwnOrigins, Allocated, CeilDiv, CachedAt;
    var (after, r) := Allocated(h.m, s, prompt);
    if r.Ok? {
      AllocationIsExact(h.m, s, prompt);
      var table, size := after.tables[s].blocks, h.m.pool.blockSize;
      forall i | 0 <= i < r.value.reused
        ensures HasBlock(prompt, i, size) && table[i] in h.origin && h.origin[table[i]] == Through(prompt, i, size)
      {
        FoundIsOwn(h, prompts, prompt, i, table);
      }
    }
  }

  // ----- Every operation keeps origins told apart -----

  /** The entries only lose members. */
  ghost predicate Fewer(after: Entries, before: Entries) {
    forall k :: k in after ==> k in before && after[k] == before[k]
  }

  lemma {:induction false} AllocFromDropsOnly(st: AllocState, prompt: seq<TokenId>, pos: nat)
    requires st.pool.WellFormed() && pos <= |prompt|
    ensures Fewer(AllocFrom(st, prompt, pos).0.entries, st.entries)
    decreases |prompt| - pos
  {
    hide HashBlock;
    if pos < |prompt| {
      var end := ChunkEnd(pos, |prompt|, st.pool.blockSize);
      var chunk := prompt[pos..end];
      if AllocChunk(st, chunk).Some? {
        AllocChunkWellFormed(st, chunk);
        AllocFromDropsOnly(AllocChunk(st, chunk).value, prompt, end);
      }
    }
  }

  lemma {:induction false} EvictionDropsOnly(m: Manager, count: nat)
    requires m.WellFormed()
    ensures Fewer(EvictedCached(m, count).entries, m.entries)
    ensures EvictedCached(m, count).tables == m.tables
    decreases count
  {
    if count > 0 && EvictOldest(m.pool).Some? {
      var e := EvictOldest(m.pool).value;
      EvictionDropsOnly(m.(pool := e.pool, entries := Dropped(m.entries, e.hash, e.block)), count - 1);
    }
  }

  /** Blocks leave the index, and tables gain unpublished blocks or blocks published under their own prefix. */
  lemma DroppingKeepsOwn(h: History, after: History)
    requires Tracked(h) && Tracked(after) && OwnOrigins(h)
    requires after.m.pool.blockSize == h.m.pool.blockSize && Fewer(after.m.entries, h.m.entries)
    requires forall b :: b in after.origin ==> b in h.origin && after.origin[b] == h.origin[b]
    requires forall s, i :: s in after.m.tables && 0 <= i < |after.m.tables[s].blocks| ==>
               || OwnOrigin(after.origin, h.m.pool.blockSize, after.prompts[s], after.m.tables[s].blocks[i], i)
               || (s in h.m.tables && i < |h.m.tables[s].blocks| && h.m.tables[s].blocks[i] == after.m.tables[s].blocks[i]
                   && h.prompts[s] == after.prompts[s])
    ensures OwnOrigins(after)
  {
    hide AllRefs, Conserves, TableHashed, ChainHash, Leading, Through, WholeBlocks, HasBlock;
    var size := h.m.pool.blockSize;
    forall k | k in after.m.entries ensures EntryKnown(after.m.entries[k], after.origin, size) {
      assert EntryKnown(h.m.entries[k], h.origin, size);
    }
    forall s, i | s in after.m.tables && 0 <= i < |after.m.tables[s].blocks|
      ensures OwnOrigin(after.origin, size, after.prompts[s], after.m.tables[s].blocks[i], i)
    {
      if s in h.m.tables && i < |h.m.tables[s].blocks| {
        assert OwnOrigin(h.origin, size, h.prompts[s], h.m.tables[s].blocks[i], i);
      }
    }
  }

  /** The blocks of a new table are its own: adopted ones hold its history, computed ones hold none yet. */
  lemma NewTableIsOwn(h: History, s: SequenceId, prompt: seq<TokenId>, prompts: set<seq<TokenId>>)
    requires Tracked(h) && DrawnFrom(h, prompts) && OwnOrigins(h)
    requires Unambiguous(prompts, h.m.pool.blockSize) && prompt in prompts && Allocated(h.m, s, prompt).1.Ok?
    ensures var next, table := Step(h, OpAllocate(s, prompt)), Allocated(h.m, s, prompt).0.tables[s].blocks;
            forall i :: 0 <= i < |table| ==> OwnOrigin(next.origin, h.m.pool.blockSize, prompt, table[i], i)
  {
    hide BlockDigest, Through, AllRefs, Indexed, CachedAt, TableHashed, OriginsKnown, EntriesKnown, Conserves, Allocated,
      CeilDiv, LeadingRun, FreshTail, HasBlock, Unambiguous, HistoryOf, TablesOwn;
    AllocationIsExact(h.m, s, prompt);
    AdoptionIsSound(h, prompts, s, prompt);
    var (after, r) := Allocated(h.m, s, prompt);
    var next, table := Step(h, OpAllocate(s, prompt)), after.tables[s].blocks;
    forall i | 0 <= i < |table| ensures OwnOrigin(next.origin, h.m.pool.blockSize, prompt, table[i], i) {
      if i >= r.value.reused {
        assert table[i] == table[r.value.reused..][i - r.value.reused];
      }
    }
  }

  lemma AllocateKeepsOwn(h: History, s: SequenceId, prompt: seq<TokenId>, prompts: set<seq<TokenId>>)
    requires Tracked(h) && DrawnFrom(h, prompts) && OwnOrigins(h)
    requires Unambiguous(prompts, h.m.pool.blockSize) && prompt in prompts
    ensures Tracked(Step(h, OpAllocate(s, prompt))) && OwnOrigins(Step(h, OpAllocate(s, prompt)))
  {
    hide BlockDigest, Through, AllRefs, Indexed, CachedAt, TableHashed, OriginsKnown, EntriesKnown, Conserves, Allocated,
      CeilDiv, LeadingRun, FreshTail, HasBlock, Unambiguous, HistoryOf, OwnOrigin, OwnOrigins, DrawnFrom;
    AllocateKeepsTracked(h, s, prompt);
    AllocationIsExact(h.m, s, prompt);
    AllocationDropsOnly(h.m, s, prompt);
    var (after, r) := Allocated(h.m, s, prompt);
    if r.Ok? {
      NewTableIsOwn(h, s, prompt, prompts);
      DroppingKeepsOwn(h, Step(h, OpAllocate(s, prompt)));
    }
  }

  lemma AllocationDropsOnly(m: Manager, s: SequenceId, prompt: seq<TokenId>)
    requires m.WellFormed()
    ensures Fewer(Allocated(m, s, prompt).0.entries, m.entries)
  {
    hide AllocFrom;
    AllocFromDropsOnly(AllocStart(m), prompt, 0);
  }

  lemma AppendKeepsOwn(h: History, s: SequenceId)
    requires Tracked(h) && OwnOrigins(h)
    ensures Tracked(Step(h, OpAppend(s))) && OwnOrigins(Step(h, OpAppend(s)))
  {
    hide BlockDigest, Through, AllRefs, Indexed, TableHashed, OriginsKnown, EntriesKnown, Conserves, Appended, CeilDiv, HasBlock;
    AppendKeepsTracked(h, s);
    AppendingIsExact(h.m, s);
    AppendDropsOnly(h.m, s);
    if Appended(h.m, s).1.None? {
      AppendedBlocks(h.m, s);
      DroppingKeepsOwn(h, Step(h, OpAppend(s)));
    }
  }

  lemma AppendDropsOnly(m: Manager, s: SequenceId)
    requires m.WellFormed()
    ensures Fewer(Appended(m, s).0.entries, m.entries)
  {
    hide CeilDiv;
    if s in m.tables {
      GrownWellFormed(m, s);
    }
  }

  lemma FreeKeepsOwn(h: History, s: SequenceId)
    requires Tracked(h) && OwnOrigins(h)
    ensures Tracked(Step(h, OpFree(s))) && OwnOrigins(Step(h, OpFree(s)))
  {
    hide BlockDigest, Through, AllRefs, Indexed, TableHashed, OriginsKnown, EntriesKnown, Conserves, ReleaseAll, HasBlock;
    FreeKeepsTracked(h, s);
    FreeingConserves(h.m, s);
    DroppingKeepsOwn(h, Step(h, OpFree(s)));
  }

  lemma EvictKeepsOwn(h: History, op: CacheOp)
    requires Tracked(h) && OwnOrigins(h) && (op.OpEvict? || op.OpClear?)
    ensures Tracked(Step(h, op)) && OwnOrigins(Step(h, op))
  {
    hide BlockDigest, Through, AllRefs, Indexed, TableHashed, OriginsKnown, EntriesKnown, Conserves, EvictedCached, HasBlock,
      Evictable;
    StepKeepsTracked(h, op);
    StepKeepsBlockSize(h, op);
    EvictionDropsOnly(h.m, if op.OpEvict? then op.count else Evictable(h.m.pool, |h.m.pool.freeList|));
    DroppingKeepsOwn(h, Step(h, op));
  }

  // ----- Publication keeps origins told apart -----

  /** The digests of the logical blocks before `i` are in the index. */
  ghost predicate Entered(entries: Entries, prompt: seq<TokenId>, i: nat, size: nat)
    requires size > 0
  {
    forall j: nat :: j < i && HasBlock(prompt, j, size) ==> BlockDigest(prompt, j, size) in entries
  }

  /** A digest not yet in the index leads. */
  lemma AbsentIsLeading(entries: Entries, prompt: seq<TokenId>, i: nat, size: nat)
    requires size > 0 && HasBlock(prompt, i, size) && Entered(entries, prompt, i, size)
    requires BlockDigest(prompt, i, size) !in entries
    ensures Leading(Through(prompt, i, size), size)
  {
    hide BlockDigest, ChainHash, Through, WholePrefix, HasBlock;
    var x := Through(prompt, i, size);
    ThroughHash(prompt, i, size);
    forall u | WholePrefix(u, x, size) && ChainHash(u, size) == ChainHash(x, size) ensures u == x {
      var j := PrefixIsThrough(prompt, i, size, u);
      ThroughHash(prompt, j, size);
    }
  }

  /** Publication names the origin that the block has already, if it has one. */
  lemma PublishKeepsTablesOwn(h: History, st: CommitState, origin: map<BlockId, seq<TokenId>>, s: SequenceId, i: nat)
    requires CanPublish(h, st, origin, s, i) && TablesOwn(h, origin) && h.m.pool.blockSize == st.pool.blockSize
    ensures var b := h.m.tables[s].blocks[i];
            var now := origin[b := Through(h.prompts[s], i, st.pool.blockSize)];
            && TablesOwn(h, now)
            && (b in origin ==> now == origin)
  {
    hide BlockDigest, AllRefs, Indexed, Conserves, Through, TableHashed, ChainHash, WholeBlocks, HasBlock;
    var size, b := st.pool.blockSize, h.m.tables[s].blocks[i];
    assert OwnOrigin(origin, size, h.prompts[s], b, i);
    var now := origin[b := Through(h.prompts[s], i, size)];
    forall x, j | x in h.m.tables && 0 <= j < |h.m.tables[x].blocks|
      ensures OwnOrigin(now, size, h.prompts[x], h.m.tables[x].blocks[j], j)
    {
      assert OwnOrigin(origin, size, h.prompts[x], h.m.tables[x].blocks[j], j);
      if h.m.tables[x].blocks[j] == b && (s != x || i != j) {
        PublishedDigestIsStable(h, st, origin, s, i, x, j);
      }
    }
  }

  lemma PublishKeepsEntriesKnown(h: History, st: CommitState, origin: map<BlockId, seq<TokenId>>, s: SequenceId, i: nat)
    requires CanPublish(h, st, origin, s, i) && TablesOwn(h, origin) && h.m.pool.blockSize == st.pool.blockSize
    requires EntriesKnown(st.entries, origin, st.pool.blockSize) && Entered(st.entries, h.prompts[s], i, st.pool.blockSize)
    ensures var b := h.m.tables[s].blocks[i];
            var next := PublishAt(st, b, h.prompts[s], i);
            && EntriesKnown(next.entries, origin[b := Through(h.prompts[s], i, st.pool.blockSize)], st.pool.blockSize)
            && Entered(next.entries, h.prompts[s], i + 1, st.pool.blockSize)
  {
    hide BlockDigest, AllRefs, Indexed, Conserves, Through, TableHashed, OriginsKnown, ChainHash, WholeBlocks, HasBlock, Leading,
      PublishAt, TablesOwn, LastTokens;
    var size, b, prompt := st.pool.blockSize, h.m.tables[s].blocks[i], h.prompts[s];
    PublishWrites(h, st, origin, s, i);
    PublishKeepsTablesOwn(h, st, origin, s, i);
    var k, next, now := BlockDigest(prompt, i, size), PublishAt(st, b, prompt, i), origin[b := Through(prompt, i, size)];
    ThroughEnds(prompt, i, size);
    if k !in st.entries {
      AbsentIsLeading(st.entries, prompt, i, size);
    }
    forall x | x in next.entries ensures EntryKnown(next.entries[x], now, size) {
      if x in st.entries {
        assert EntryKnown(st.entries[x], origin, size);
      }
    }
  }

  lemma {:induction false} PublishFromKeepsOwn(h: History, st: CommitState, origin: map<BlockId, seq<TokenId>>,
                                               s: SequenceId, i: nat)
    requires Publishing(h, st, origin) && s in h.m.tables && i * st.pool.blockSize <= |h.prompts[s]|
    requires h.m.pool.blockSize == st.pool.blockSize && TablesOwn(h, origin)
    requires EntriesKnown(st.entries, origin, st.pool.blockSize) && Entered(st.entries, h.prompts[s], i, st.pool.blockSize)
    ensures var end, now := PublishFrom(h, st, s, i), OriginFrom(origin, st.pool.blockSize, h.m.tables[s].blocks, h.prompts[s], i);
            TablesOwn(h, now) && EntriesKnown(end.entries, now, st.pool.blockSize)
    decreases |h.m.tables[s].blocks| - i
  {
    hide Publishing, PublishFrom, PublishAt, TablesOwn, EntriesKnown, Entered;
    PublishingBlockSize(h, st, origin);
    PublishFromUnfolds(h, st, s, i);
    if i < |h.m.tables[s].blocks| && HasBlock(h.prompts[s], i, st.pool.blockSize) {
      var b := h.m.tables[s].blocks[i];
      CanPublishNow(h, st, origin, s, i);
      PublishBlockKeeps(h, st, origin, s, i);
      PublishKeepsTablesOwn(h, st, origin, s, i);
      PublishKeepsEntriesKnown(h, st, origin, s, i);
      PublishFromKeepsOwn(h, PublishAt(st, b, h.prompts[s], i), origin[b := Through(h.prompts[s], i, st.pool.blockSize)], s, i + 1);
    }
  }

  lemma CommitKeepsOwn(h: History, s: SequenceId)
    requires Tracked(h) && OwnOrigins(h)
    ensures Tracked(Step(h, OpCommit(s))) && OwnOrigins(Step(h, OpCommit(s)))
  {
    hide BlockDigest, AllRefs, Conserves, ChainHash, Indexed, OriginsKnown, TableHashed, EntriesKnown, PublishFrom;
    CommitKeepsTracked(h, s);
    if s in h.m.tables && h.m.prefixCaching {
      var st := CommitState(h.m.pool, h.m.entries);
      assert h.m.(pool := st.pool) == h.m;
      PublishFromKeepsOwn(h, st, h.origin, s, 0);
      CommitIsPublish(h, s);
      CommittingConserves(h.m, s, h.prompts[s]);
    }
  }

  lemma CommitIsPublish(h: History, s: SequenceId)
    requires Tracked(h) && s in h.m.tables && h.m.prefixCaching
    ensures h.m.WellFormed()
    ensures var end := PublishFrom(h, CommitState(h.m.pool, h.m.entries), s, 0);
            Committed(h.m, s, h.prompts[s]) == h.m.(pool := end.pool, entries := end.entries)
  {
    hide CommitFrom, AllRefs, Conserves, Indexed, OriginsKnown, TableHashed;
    EmptyPrefix(h.prompts[s], h.m.pool.blockSize);
  }

  lemma StepKeepsOwn(h: History, op: CacheOp, prompts: set<seq<TokenId>>)
    requires Tracked(h) && DrawnFrom(h, prompts) && OwnOrigins(h) && Unambiguous(prompts, h.m.pool.blockSize)
    requires op.OpAllocate? ==> op.prompt in prompts
    ensures Tracked(Step(h, op)) && OwnOrigins(Step(h, op))
  {
    hide Tracked, DrawnFrom, OwnOrigins, Unambiguous, Step;
    StepKeepsTracked(h, op);
    match op
    case OpAllocate(s, prompt) => AllocateKeepsOwn(h, s, prompt, prompts);
    case OpCommit(s) => CommitKeepsOwn(h, s);
    case OpAppend(s) => AppendKeepsOwn(h, s);
    case OpFree(s) => FreeKeepsOwn(h, s);
    case OpEvict(count) => EvictKeepsOwn(h, op);
    case OpClear => EvictKeepsOwn(h, op);
  }

  lemma {:induction false} RunKeepsOwn(h: History, ops: seq<CacheOp>, prompts: set<seq<TokenId>>)
    requires Tracked(h) && DrawnFrom(h, prompts) && OwnOrigins(h) && Unambiguous(prompts, h.m.pool.blockSize)
    requires Prompts(ops) <= prompts
    ensures OwnOrigins(Run(h, ops))
    decreases |ops|
  {
    hide Tracked, DrawnFrom, OwnOrigins, Unambiguous, Step;
    if ops != [] {
      assert ops[0].OpAllocate? ==> ops[0].prompt in Prompts(ops);
      StepDrawnFrom(h, ops[0], prompts);
      StepKeepsOwn(h, ops[0], prompts);
      PromptsOfTail(ops);
      RunKeepsOwn(Step(h, ops[0]), ops[1..], prompts);
    }
  }

  /** The state after a run from an empty cache. */
  ghost function StateAfter(numBlocks: nat, blockSize: nat, prefixCaching: bool, ops: seq<CacheOp>): (h: History)
    requires blockSize > 0
    ensures Tracked(h) && h.m.pool.blockSize == blockSize && DrawnFrom(h, Prompts(ops))
  {
    NewHistoryTracked(numBlocks, blockSize, prefixCaching);
    RunDrawnFrom(NewHistory(numBlocks, blockSize, prefixCaching), ops, Prompts(ops));
    Run(NewHistory(numBlocks, blockSize, prefixCaching), ops)
  }

  lemma StateKeepsOwn(numBlocks: nat, blockSize: nat, prefixCaching: bool, ops: seq<CacheOp>, prompts: set<seq<TokenId>>)
    requires blockSize > 0 && Unambiguous(prompts, blockSize) && Prompts(ops) <= prompts
    ensures var h := StateAfter(numBlocks, blockSize, prefixCaching, ops);
            OwnOrigins(h) && DrawnFrom(h, prompts)
  {
    hide Tracked, OwnOrigins, Unambiguous, Run;
    NewHistoryOwn(numBlocks, blockSize, prefixCaching);
    RunDrawnFrom(NewHistory(numBlocks, blockSize, prefixCaching), ops, prompts);
    RunKeepsOwn(NewHistory(numBlocks, blockSize, prefixCaching), ops, prompts);
  }

  /**
   * Prefix-cache soundness over all runs: every block a prompt adopts at logical index i was
   * last published for a prompt with the same first i + 1 blocks of tokens, and has been
   * neither recycled nor rewritten since, provided the index can confuse no two whole-block
   * histories of the run.
   */
  lemma AdoptedBlocksHoldTheSameHistory(numBlocks: nat, blockSize: nat, prefixCaching: bool,
                                        ops: seq<CacheOp>, s: SequenceId, prompt: seq<TokenId>)
    requires blockSize > 0
    requires Unambiguous(Prompts(ops) + {prompt}, blockSize)
    ensures AdoptsOwnHistory(StateAfter(numBlocks, blockSize, prefixCaching, ops), s, prompt)
  {
    hide Unambiguous, AdoptsOwnHistory, StateAfter, Tracked, OwnOrigins, DrawnFrom;
    StateKeepsOwn(numBlocks, blockSize, prefixCaching, ops, Prompts(ops) + {prompt});
    AdoptionIsSound(StateAfter(numBlocks, blockSize, prefixCaching, ops), Prompts(ops) + {prompt}, s, prompt);
  }

  /**
   * Sharing needs no copy: whatever operation comes next, a published block that stays
   * referenced keeps its contents, and an append writes only into its own unpublished tail.
   */
  lemma PublishedBlocksNeverChange(h: History, op: CacheOp, b: BlockId)
    requires Tracked(h)
    requires b in AllRefs(h.m.tables) && b < |h.m.pool.blocks| && h.m.pool.blocks[b].hash.Some?
    ensures var after := Step(h, op).m.pool;
            && b < |after.blocks|
            && after.blocks[b].hash == h.m.pool.blocks[b].hash
            && after.blocks[b].numTokens == h.m.pool.blocks[b].numTokens
    ensures op.OpAppend? && Appended(h.m, op.s).1.None? ==> WritesExclusively(h.m, Step(h, op).m, op.s)
  {
    hide BlockDigest, AllRefs, TableHashed, OriginsKnown, Conserves, CeilDiv;
    match op
    case OpAllocate(s, prompt) =>
      hide Allocated;
      AllocationIsExact(h.m, s, prompt);
      if Allocated(h.m, s, prompt).1.Ok? {
        AllocationContents(h.m, s, prompt);
        var (after, r) := Allocated(h.m, s, prompt);
        TailIsDistinct(AllRefs(h.m.tables), after.tables[s].blocks, r.value.reused);
      }
    case OpCommit(s) =>
      CommitKeepsPublished(h, s, b);
    case OpAppend(s) =>
      hide Appended;
      AppendingIsExact(h.m, s);
      if Appended(h.m, s).1.None? {
        AppendWritesExclusively(h, s);
        ReferencedIsCounted(h, b);
      }
    case OpFree(s) =>
      if s in h.m.tables {
        ReleaseAllKeepsContents(h.m.pool, h.m.tables[s].blocks);
      }
    case OpEvict(count) =>
      EvictKeepsReferenced(h.m, count, b);
    case OpClear =>
      EvictKeepsReferenced(h.m, Evictable(h.m.pool, |h.m.pool.freeList|), b);
  }

  lemma ReferencedIsCounted(h: History, b: BlockId)
    requires Tracked(h) && b in AllRefs(h.m.tables)
    ensures b < |h.m.pool.blocks| && h.m.pool.blocks[b].refCount > 0
  {
    hide AllRefs, TableHashed, OriginsKnown;
  }

  lemma {:induction false} EvictKeepsReferenced(m: Manager, count: nat, b: BlockId)
    requires Consistent(m) && b in AllRefs(m.tables) && b < |m.pool.blocks|
    ensures b < |EvictedCached(m, count).pool.blocks|
    ensures EvictedCached(m, count).pool.blocks[b] == m.pool.blocks[b]
    decreases count
  {
    hide AllRefs, Conserves;
    if count > 0 && EvictOldest(m.pool).Some? {
      var e := EvictOldest(m.pool).value;
      EvictOldestConserves(m.pool, AllRefs(m.tables));
      EvictKeepsReferenced(m.(pool := e.pool, entries := Dropped(m.entries, e.hash, e.block)), count - 1, b);
    }
  }

  lemma CommitKeepsPublished(h: History, s: SequenceId, b: BlockId)
    requires Tracked(h) && b < |h.m.pool.blocks| && h.m.pool.blocks[b].hash.Some?
    ensures var after := Step(h, OpCommit(s)).m.pool;
            && b < |after.blocks|
            && after.blocks[b].hash == h.m.pool.blocks[b].hash
            && after.blocks[b].numTokens == h.m.pool.blocks[b].numTokens
  {
    if s in h.m.tables && h.m.prefixCaching {
      EmptyPrefix(h.prompts[s], h.m.pool.blockSize);
      var st := CommitState(h.m.pool, h.m.entries);
      assert h.m.(pool := st.pool) == h.m;
      PublishFromKeeps(h, st, h.origin, s, 0);
    }
  }
}
