// What a digest collision can do to the prefix cache: exactly when adoption stays sound.
module Collisions {
  import opened Prelude
  import opened Arithmetic
  import opened Hashing
  import opened BlockPools
  import opened PoolInvariant
  import opened PrefixIndex
  import opened KvCache
  import opened KvConservation
  import opened PrefixSoundness

  // ----- A prompt whose blocks are all in the index -----

  ghost predicate FoundAt(entries: Entries, prompt: seq<TokenId>, size: nat, i: nat)
    requires size > 0
  {
    HasBlock(prompt, i, size) ==> Find(entries, BlockDigest(prompt, i, size), BlockTokens(prompt, i, size)).Some?
  }

  ghost predicate AllFound(entries: Entries, prompt: seq<TokenId>, size: nat)
    requires size > 0
  {
    forall i: nat :: FoundAt(entries, prompt, size, i)
  }

  lemma ChunkIsBlock(m: Manager, prompt: seq<TokenId>, st: AllocState, pos: nat)
    requires m.pool.blockSize > 0 && AllocInv(m, prompt, st, pos) && pos < |prompt| && |prompt| % m.pool.blockSize == 0
    ensures var size, n := m.pool.blockSize, |st.vars.table|;
            && HasBlock(prompt, n, size) && pos == n * size && ChunkEnd(pos, |prompt|, size) == pos + size
            && prompt[pos..pos + size] == BlockTokens(prompt, n, size)
  {
    hide Conserves, LeadingRun, FreshTail, AllRefs, PrefixHash;
    var size, n := m.pool.blockSize, |st.vars.table|;
    BlockAtNext(n, size, |prompt|, pos);
    DivisionEquation(|prompt|, size);
    var q := |prompt| / size;
    assert |prompt| == q * size;
    RowsApart(q, n, size);
  }

  /** The allocation loop adopts as long as it finds. */
  lemma {:induction false} FoundIsAdopted(m: Manager, prompt: seq<TokenId>, st: AllocState, pos: nat)
    requires m.pool.blockSize > 0 && AllocInv(m, prompt, st, pos) && st.pool.WellFormed() && pos <= |prompt|
    requires |prompt| % m.pool.blockSize == 0 && AllFound(m.entries, prompt, m.pool.blockSize)
    requires Indexed(m.pool, m.entries) && st.vars.matching
    ensures AllocFrom(st, prompt, pos).1 && AllocFrom(st, prompt, pos).0.vars.matching
    ensures AllocInv(m, prompt, AllocFrom(st, prompt, pos).0, |prompt|)
    decreases |prompt| - pos
  {
    hide AllocInv, AllocChunk, Indexed, BlockDigest, BlockTokens, AllFound;
    if pos < |prompt| {
      var size := m.pool.blockSize;
      AllocInvBlockSize(m, prompt, st, pos);
      ChunkIsBlock(m, prompt, st, pos);
      var chunk := prompt[pos..pos + size];
      FoundChunkIsAdopted(m, prompt, st, pos);
      AllocChunkAdopts(m, prompt, st, pos);
      AllocChunkWellFormed(st, chunk);
      FoundIsAdopted(m, prompt, AllocChunk(st, chunk).value, pos + size);
    }
  }

  lemma FoundChunkIsAdopted(m: Manager, prompt: seq<TokenId>, st: AllocState, pos: nat)
    requires m.pool.blockSize > 0 && AllocInv(m, prompt, st, pos) && pos < |prompt| && |prompt| % m.pool.blockSize == 0
    requires st.pool.WellFormed() && AllFound(m.entries, prompt, m.pool.blockSize) && Indexed(m.pool, m.entries) && st.vars.matching
    ensures var chunk := prompt[pos..ChunkEnd(pos, |prompt|, m.pool.blockSize)];
            AdoptChunk(st, chunk).Some? && AllocChunk(st, chunk).Some? && AllocChunk(st, chunk).value.vars.matching
  {
    hide Conserves, LeadingRun, FreshTail, AllRefs, HashBlock, BlockAt, PrefixHash;
    ChunkIsBlock(m, prompt, st, pos);
    var size, n := m.pool.blockSize, |st.vars.table|;
    assert FoundAt(m.entries, prompt, size, n);
    assert st.vars.chain == PrefixHash(prompt, n, size);
    var k := BlockDigest(prompt, n, size);
    assert k in m.entries && m.entries[k].block < |m.pool.blocks|;
  }

  /** A prompt of whole blocks that are all in the index adopts all of them. */
  lemma AllFoundIsAllAdopted(h: History, s: SequenceId, prompt: seq<TokenId>, i: nat)
    requires Tracked(h) && h.m.prefixCaching && s !in h.m.tables
    requires |prompt| % h.m.pool.blockSize == 0 && CeilDiv(|prompt|, h.m.pool.blockSize) <= |h.m.pool.freeList|
    requires AllFound(h.m.entries, prompt, h.m.pool.blockSize) && HasBlock(prompt, i, h.m.pool.blockSize)
    ensures h.m.WellFormed()
    ensures var (after, r) := Allocated(h.m, s, prompt);
            && r.Ok? && s in after.tables && i < r.value.reused <= |after.tables[s].blocks|
            && Find(h.m.entries, BlockDigest(prompt, i, h.m.pool.blockSize), BlockTokens(prompt, i, h.m.pool.blockSize))
               == Some(after.tables[s].blocks[i])
  {
    hide AllRefs, Indexed, TableHashed, OriginsKnown, Conserves, BlockDigest, BlockTokens, AllFound, AllocInv, AllocFrom;
    var m, size := h.m, h.m.pool.blockSize;
    AllocStartInv(m, prompt);
    FoundIsAdopted(m, prompt, AllocStart(m), 0);
    AllocationIsExact(m, s, prompt);
    var (after, r) := Allocated(m, s, prompt);
    MatchingComputesNothing(m, prompt, AllocFrom(AllocStart(m), prompt, 0).0);
    CeilMonotone(i * size + size, |prompt|, size);
    assert i * size + size == (i + 1) * size;
    CeilExact(i + 1, size);
    assert CachedAt(m.entries, prompt, i, size, after.tables[s].blocks[i]);
  }

  lemma MatchingComputesNothing(m: Manager, prompt: seq<TokenId>, st: AllocState)
    requires m.pool.blockSize > 0 && AllocInv(m, prompt, st, |prompt|) && st.vars.matching
    ensures st.vars.outcome.newBlocks == 0
  {
    hide Conserves, LeadingRun, FreshTail, BlockAt, PrefixHash;
  }

  lemma CeilExact(n: nat, size: nat)
    requires size > 0
    ensures CeilDiv(n * size, size) == n
  {
    MulDivExact(n, size);
    CeilSuccessor(n * size, size);
  }

  // ----- Pools whose free blocks hold nothing -----

  ghost predicate FreeBlank(p: Pool) {
    forall i :: 0 <= i < |p.freeList| ==> p.freeList[i] < |p.blocks| && p.blocks[p.freeList[i]].hash.None?
  }

  lemma ChunkStaysBlank(st: AllocState, chunk: seq<TokenId>)
    requires st.pool.WellFormed() && FreeBlank(st.pool) && AllocChunk(st, chunk).Some?
    ensures FreeBlank(AllocChunk(st, chunk).value.pool) && AllocChunk(st, chunk).value.entries == st.entries
  {
    hide HashBlock;
    if AdoptChunk(st, chunk).Some? {
      RemoveIsSublist(st.pool.freeList, AdoptChunk(st, chunk).value.1);
    }
  }

  lemma {:induction false} AllocFromStaysBlank(st: AllocState, prompt: seq<TokenId>, pos: nat)
    requires st.pool.WellFormed() && pos <= |prompt| && FreeBlank(st.pool)
    ensures FreeBlank(AllocFrom(st, prompt, pos).0.pool) && AllocFrom(st, prompt, pos).0.entries == st.entries
    decreases |prompt| - pos
  {
    hide AllocChunk, FreeBlank;
    if pos < |prompt| {
      var end := ChunkEnd(pos, |prompt|, st.pool.blockSize);
      var chunk := prompt[pos..end];
      if AllocChunk(st, chunk).Some? {
        AllocChunkWellFormed(st, chunk);
        ChunkStaysBlank(st, chunk);
        AllocFromStaysBlank(AllocChunk(st, chunk).value, prompt, end);
      }
    }
  }

  /** Without contents in the free blocks, an allocation drops nothing from the index. */
  lemma AllocationStaysBlank(m: Manager, s: SequenceId, prompt: seq<TokenId>)
    requires Consistent(m) && FreeBlank(m.pool) && s !in m.tables && CeilDiv(|prompt|, m.pool.blockSize) <= |m.pool.freeList|
    ensures var (after, r) := Allocated(m, s, prompt);
            r.Ok? && FreeBlank(after.pool) && after.entries == m.entries
  {
    hide AllocFrom, FreeBlank, Conserves;
    AllocationIsExact(m, s, prompt);
    AllocFromStaysBlank(AllocStart(m), prompt, 0);
  }

  lemma {:induction false} CommitWritesTable(st: CommitState, blocks: seq<BlockId>, prompt: seq<TokenId>, pos: nat,
                                             i: nat, chain: Option<Hash>, b: BlockId)
    requires pos <= |prompt| && st.pool.blockSize > 0 && b !in blocks && b < |st.pool.blocks|
    ensures var end := CommitFrom(st, blocks, prompt, pos, i, chain).pool;
            b < |end.blocks| && end.blocks[b] == st.pool.blocks[b] && end.freeList == st.pool.freeList
    decreases |prompt| - pos
  {
    hide HashBlock;
    var end := pos + st.pool.blockSize;
    if end <= |prompt| && i < |blocks| {
      var h := HashBlock(chain, prompt[pos..end]);
      CommitWritesTable(CommitBlock(st, blocks[i], h, prompt[pos..end]), blocks, prompt, end, i + 1, Some(h), b);
    }
  }

  lemma CommitStaysBlank(m: Manager, s: SequenceId, prompt: seq<TokenId>)
    requires Consistent(m) && FreeBlank(m.pool)
    ensures m.WellFormed() && FreeBlank(Committed(m, s, prompt).pool)
  {
    hide CommitFrom, AllRefs;
    if s in m.tables && m.prefixCaching {
      CommittingConserves(m, s, prompt);
      var after := Committed(m, s, prompt);
      forall i | 0 <= i < |after.pool.freeList|
        ensures after.pool.freeList[i] < |after.pool.blocks| && after.pool.blocks[after.pool.freeList[i]].hash.None?
      {
        var b := m.pool.freeList[i];
        FreeIsUnlisted(m, s, i);
        CommitWritesTable(CommitState(m.pool, m.entries), m.tables[s].blocks, prompt, 0, 0, None, b);
      }
    }
  }

  lemma FreeIsUnlisted(m: Manager, s: SequenceId, i: nat)
    requires Consistent(m) && s in m.tables && i < |m.pool.freeList|
    ensures m.pool.freeList[i] !in m.tables[s].blocks
  {
    hide AllRefs;
    var b := m.pool.freeList[i];
    assert b in m.pool.freeList;
    if b in m.tables[s].blocks {
      TableBlocksHeld(m.tables, s, b);
    }
  }

  // ----- What publication enters -----

  /** Key `k` stands for logical block `j` of the prompt. */
  ghost predicate EntersAs(e: CacheEntry, k: Hash, prompt: seq<TokenId>, blocks: seq<BlockId>, size: nat, j: nat)
    requires size > 0
  {
    && HasBlock(prompt, j, size) && j < |blocks|
    && k == BlockDigest(prompt, j, size) && e == CacheEntry(blocks[j], BlockTokens(prompt, j, size))
  }

  ghost predicate Stands(e: CacheEntry, k: Hash, prompt: seq<TokenId>, blocks: seq<BlockId>, size: nat)
    requires size > 0
  {
    exists j: nat :: EntersAs(e, k, prompt, blocks, size, j)
  }

  /** The index after a publication: what was there stays, and the rest stands for blocks of the prompt. */
  ghost predicate PublishedInto(before: Entries, after: Entries, prompt: seq<TokenId>, blocks: seq<BlockId>, size: nat)
    requires size > 0
  {
    && (forall k :: k in before ==> k in after && after[k] == before[k])
    && (forall k :: k in after && k !in before ==> Stands(after[k], k, prompt, blocks, size))
  }

  lemma PublishAtEnters(st: CommitState, blocks: seq<BlockId>, prompt: seq<TokenId>, i: nat)
    requires st.pool.blockSize > 0 && i < |blocks| && HasBlock(prompt, i, st.pool.blockSize)
    ensures var size := st.pool.blockSize;
            var next := PublishAt(st, blocks[i], prompt, i);
            && next.pool.blockSize == size
            && PublishedInto(st.entries, next.entries, prompt, blocks, size) && BlockDigest(prompt, i, size) in next.entries
  {
    hide BlockDigest, BlockTokens;
    var size, k, next := st.pool.blockSize, BlockDigest(prompt, i, st.pool.blockSize), PublishAt(st, blocks[i], prompt, i);
    if k !in st.entries {
      assert EntersAs(next.entries[k], k, prompt, blocks, size, i);
    }
  }

  lemma PublishedTwice(a: Entries, b: Entries, c: Entries, prompt: seq<TokenId>, blocks: seq<BlockId>, size: nat)
    requires size > 0 && PublishedInto(a, b, prompt, blocks, size) && PublishedInto(b, c, prompt, blocks, size)
    ensures PublishedInto(a, c, prompt, blocks, size)
  {
    hide Stands;
    forall k | k in c && k !in a ensures Stands(c[k], k, prompt, blocks, size) {
      if k in b {
        assert Stands(b[k], k, prompt, blocks, size);
      }
    }
  }

  lemma {:induction false} PublishFromEnters(h: History, st: CommitState, s: SequenceId, i: nat)
    requires st.pool.blockSize > 0 && s in h.m.tables && s in h.prompts && i * st.pool.blockSize <= |h.prompts[s]|
    requires Entered(st.entries, h.prompts[s], i, st.pool.blockSize)
    ensures var end := PublishFrom(h, st, s, i);
            && PublishedInto(st.entries, end.entries, h.prompts[s], h.m.tables[s].blocks, st.pool.blockSize)
            && Entered(end.entries, h.prompts[s], |h.m.tables[s].blocks|, st.pool.blockSize)
    decreases |h.m.tables[s].blocks| - i
  {
    hide PublishFrom, PublishAt, BlockDigest, Stands;
    var size, prompt, blocks := st.pool.blockSize, h.prompts[s], h.m.tables[s].blocks;
    PublishFromUnfolds(h, st, s, i);
    if i < |blocks| && HasBlock(prompt, i, size) {
      PublishAtEnters(st, blocks, prompt, i);
      var next := PublishAt(st, blocks[i], prompt, i);
      PublishFromEnters(h, next, s, i + 1);
      PublishedTwice(st.entries, next.entries, PublishFrom(h, next, s, i + 1).entries, prompt, blocks, size);
    } else if i < |blocks| {
      forall j: nat | j < |blocks| && HasBlock(prompt, j, size) ensures BlockDigest(prompt, j, size) in st.entries {
        if j >= i {
          MulMonotone(i, j, size);
        }
      }
    }
  }

  lemma CommitEnters(h: History, s: SequenceId)
    requires Tracked(h) && s in h.m.tables && s in h.prompts && h.m.prefixCaching
    ensures h.m.WellFormed() && h.m.pool.blockSize > 0
    ensures var after := Committed(h.m, s, h.prompts[s]).entries;
            && PublishedInto(h.m.entries, after, h.prompts[s], h.m.tables[s].blocks, h.m.pool.blockSize)
            && Entered(after, h.prompts[s], |h.m.tables[s].blocks|, h.m.pool.blockSize)
  {
    hide PublishFrom, BlockDigest, PublishedInto, AllRefs, Indexed, TableHashed, OriginsKnown;
    CommitIsPublish(h, s);
    PublishFromEnters(h, CommitState(h.m.pool, h.m.entries), s, 0);
  }

  ghost predicate EndsAt(prompt: seq<TokenId>, n: nat, size: nat) {
    HasBlock(prompt, n, size) && !HasBlock(prompt, n + 1, size)
  }

  /** The last whole block of a prompt keeps the prompt itself as its origin. */
  lemma {:induction false} OriginOfLast(origin: map<BlockId, seq<TokenId>>, size: nat, blocks: seq<BlockId>,
                                        prompt: seq<TokenId>, i: nat, n: nat)
    requires size > 0 && i <= n < |blocks| && EndsAt(prompt, n, size)
    ensures var now := OriginFrom(origin, size, blocks, prompt, i);
            blocks[n] in now && now[blocks[n]] == Through(prompt, n, size)
    decreases |blocks| - i
  {
    hide Through;
    MulMonotone(i, n, size);
    var next := origin[blocks[i] := Through(prompt, i, size)];
    if i == n {
      assert OriginFrom(next, size, blocks, prompt, n + 1) == next;
    } else {
      OriginOfLast(next, size, blocks, prompt, i + 1, n);
    }
  }

  // ----- A run for every confusable pair -----

  function Shorter(x: seq<TokenId>, size: nat): seq<TokenId>
    requires size <= |x|
  {
    x[..|x| - size]
  }

  /** Publish all of `x` but its last block, and then, if it takes that, all of `y`. */
  function Before(x: seq<TokenId>, size: nat): seq<CacheOp>
    requires size <= |x|
  {
    [OpAllocate(1, Shorter(x, size)), OpCommit(1)]
  }

  function Both(x: seq<TokenId>, y: seq<TokenId>, size: nat): seq<CacheOp>
    requires size <= |x|
  {
    Before(x, size) + [OpAllocate(0, y), OpCommit(0)]
  }

  lemma WholeBlocksCount(x: seq<TokenId>, size: nat) returns (n: nat)
    requires size > 0 && WholeBlocks(x, size)
    ensures |x| == (n + 1) * size && CeilDiv(|x|, size) == n + 1 && EndsAt(x, n, size)
    ensures x[..n * size + size] == x
  {
    DivisionEquation(|x|, size);
    n := |x| / size - 1;
    assert |x| == size * (n + 1);
    assert (n + 1) * size == n * size + size;
    CeilExact(n + 1, size);
  }

  /** The state after one prompt was allocated and published in a pool whose free blocks hold nothing. */
  ghost predicate Publishable(h: History, s: SequenceId, prompt: seq<TokenId>) {
    && Tracked(h) && h.m.prefixCaching && FreeBlank(h.m.pool) && s !in h.m.tables
    && WholeOrEmpty(prompt, h.m.pool.blockSize) && CeilDiv(|prompt|, h.m.pool.blockSize) <= |h.m.pool.freeList|
  }

  ghost predicate WholeOrEmpty(prompt: seq<TokenId>, size: nat) {
    size > 0 && |prompt| % size == 0
  }

  ghost function PublishedHistory(h: History, s: SequenceId, prompt: seq<TokenId>): (r: History)
    requires Tracked(h)
    ensures Tracked(r)
  {
    StepKeepsTracked(h, OpAllocate(s, prompt));
    StepKeepsTracked(Step(h, OpAllocate(s, prompt)), OpCommit(s));
    Step(Step(h, OpAllocate(s, prompt)), OpCommit(s))
  }

  lemma PublishingEnters(h: History, s: SequenceId, prompt: seq<TokenId>)
    requires Publishable(h, s, prompt)
    ensures var r, size := PublishedHistory(h, s, prompt), h.m.pool.blockSize;
            && r.m.prefixCaching && r.m.pool.blockSize == size && FreeBlank(r.m.pool)
            && r.m.tables.Keys == h.m.tables.Keys + {s}
            && |r.m.tables[s].blocks| == CeilDiv(|prompt|, size)
            && |r.m.pool.freeList| >= |h.m.pool.freeList| - CeilDiv(|prompt|, size)
            && PublishedInto(h.m.entries, r.m.entries, prompt, r.m.tables[s].blocks, size)
            && Entered(r.m.entries, prompt, |r.m.tables[s].blocks|, size)
    ensures var r, size := PublishedHistory(h, s, prompt), h.m.pool.blockSize;
            forall n: nat :: n < CeilDiv(|prompt|, size) && EndsAt(prompt, n, size) ==>
              r.m.tables[s].blocks[n] in r.origin && r.origin[r.m.tables[s].blocks[n]] == Through(prompt, n, size)
  {
    hide Conserves, AllRefs, Indexed, TableHashed, OriginsKnown, Allocated, Committed, CeilDiv, PublishedInto, Entered, HasBlock,
      LeadingRun, FreshTail, FreeBlank, Through;
    AllocationIsExact(h.m, s, prompt);
    AllocationStaysBlank(h.m, s, prompt);
    StepKeepsTracked(h, OpAllocate(s, prompt));
    var mid, r, size := Step(h, OpAllocate(s, prompt)), PublishedHistory(h, s, prompt), h.m.pool.blockSize;
    CommitEnters(mid, s);
    CommitStaysBlank(mid.m, s, prompt);
    CommittingConserves(mid.m, s, prompt);
    var blocks := mid.m.tables[s].blocks;
    forall n: nat | n < CeilDiv(|prompt|, size) && EndsAt(prompt, n, size)
      ensures blocks[n] in r.origin && r.origin[blocks[n]] == Through(prompt, n, size)
    {
      OriginOfLast(mid.origin, size, blocks, prompt, 0, n);
    }
  }

  // ----- What the index holds after the first publication -----

  /** `x` is n + 1 blocks long. */
  ghost predicate Spans(x: seq<TokenId>, n: nat, size: nat) {
    0 < size <= |x| && |x| == (n + 1) * size && EndsAt(x, n, size)
  }

  /** The index holds all of `x` but its last block, and nothing else. */
  ghost predicate HoldsShorter(entries: Entries, blocks: seq<BlockId>, x: seq<TokenId>, n: nat, size: nat)
    requires 0 < size <= |x|
  {
    && |blocks| == n
    && PublishedInto(map[], entries, Shorter(x, size), blocks, size) && Entered(entries, Shorter(x, size), n, size)
  }

  lemma ShorterBlocks(x: seq<TokenId>, size: nat, n: nat, i: nat)
    requires size > 0 && |x| == (n + 1) * size && i < n
    ensures size <= |x| && HasBlock(Shorter(x, size), i, size) && HasBlock(x, i, size)
    ensures BlockTokens(Shorter(x, size), i, size) == BlockTokens(x, i, size)
    ensures BlockDigest(Shorter(x, size), i, size) == BlockDigest(x, i, size)
  {
    hide ChainHash, HashBlock;
    assert (n + 1) * size == n * size + size && (i + 1) * size == i * size + size;
    MulMonotone(i + 1, n, size);
    assert Shorter(x, size)[..i * size] == x[..i * size];
  }

  lemma BlockIsPrefix(x: seq<TokenId>, size: nat, n: nat, j: nat)
    requires size > 0 && |x| == (n + 1) * size && HasBlock(x, j, size)
    ensures WholePrefix(Through(x, j, size), x, size)
    ensures ChainHash(Through(x, j, size), size) == Some(BlockDigest(x, j, size))
    ensures LastTokens(Through(x, j, size), size) == BlockTokens(x, j, size)
  {
    hide ChainHash, BlockDigest;
    ThroughHash(x, j, size);
    ThroughEnds(x, j, size);
  }

  /** In a coherent history one digest means one block of tokens. */
  lemma CoherentBlocks(x: seq<TokenId>, size: nat, n: nat, i: nat, j: nat)
    requires size > 0 && |x| == (n + 1) * size && Coherent(x, size) && HasBlock(x, i, size) && HasBlock(x, j, size)
    requires BlockDigest(x, i, size) == BlockDigest(x, j, size)
    ensures BlockTokens(x, i, size) == BlockTokens(x, j, size)
  {
    hide ChainHash, BlockDigest, Through, WholePrefix, LastTokens, BlockTokens, HasBlock;
    BlockIsPrefix(x, size, n, i);
    BlockIsPrefix(x, size, n, j);
    assert WholePrefix(Through(x, i, size), x, size) && WholePrefix(Through(x, j, size), x, size);
  }

  /** All of `x` but its last block is found; so is the last one, if the index holds its digest. */
  lemma ShorterIsFound(entries: Entries, x: seq<TokenId>, size: nat, n: nat, blocks: seq<BlockId>, i: nat)
    requires Spans(x, n, size) && Coherent(x, size) && HoldsShorter(entries, blocks, x, n, size) && HasBlock(x, i, size)
    requires i < n || BlockDigest(x, i, size) in entries
    ensures FoundAt(entries, x, size, i)
  {
    hide ChainHash, BlockDigest, BlockTokens, Coherent;
    if i < n {
      ShorterBlocks(x, size, n, i);
    }
    var k := BlockDigest(x, i, size);
    assert k in entries && Stands(entries[k], k, Shorter(x, size), blocks, size);
    var j: nat :| EntersAs(entries[k], k, Shorter(x, size), blocks, size, j);
    ShorterBlocks(x, size, n, j);
    CoherentBlocks(x, size, n, i, j);
  }

  /** An adopted block whose origin is another history. */
  lemma AdoptsAnother(h: History, s: SequenceId, x: seq<TokenId>, n: nat, b: BlockId)
    requires Tracked(h) && h.m.prefixCaching && s !in h.m.tables
    requires h.m.pool.blockSize > 0 && |x| == (n + 1) * h.m.pool.blockSize && EndsAt(x, n, h.m.pool.blockSize)
    requires CeilDiv(|x|, h.m.pool.blockSize) <= |h.m.pool.freeList|
    requires AllFound(h.m.entries, x, h.m.pool.blockSize)
    requires Find(h.m.entries, BlockDigest(x, n, h.m.pool.blockSize), BlockTokens(x, n, h.m.pool.blockSize)) == Some(b)
    requires b in h.origin && h.origin[b] != Through(x, n, h.m.pool.blockSize)
    ensures !AdoptsOwnHistory(h, s, x)
  {
    hide Tracked, Allocated, BlockDigest, BlockTokens, AllFound, CeilDiv, Through;
    MulDivExact(n + 1, h.m.pool.blockSize);
    AllFoundIsAllAdopted(h, s, x, n);
  }

  // ----- The two cases -----

  /** The length of every origin after publishing one prompt is at most the prompt's. */
  lemma OriginsAreShort(h: History, prompt: seq<TokenId>, b: BlockId)
    requires Tracked(h) && DrawnFrom(h, {prompt}) && b in h.origin
    ensures |h.origin[b]| <= |prompt|
  {
    hide AllRefs, Conserves, Indexed, TableHashed, OriginsKnown;
    assert HistoryOf({prompt}, h.origin[b], h.m.pool.blockSize);
  }

  lemma EntryHasOrigin(h: History, k: Hash)
    requires Tracked(h) && k in h.m.entries
    ensures h.m.entries[k].block in h.origin
  {
    hide AllRefs, Conserves, TableHashed, ChainHash;
  }

  /** If a shorter prefix of `x` has taken its digest, `x` adopts a block of that prefix. */
  lemma TakenDigestConfuses(h: History, size: nat, x: seq<TokenId>, n: nat)
    requires Tracked(h) && h.m.prefixCaching && h.m.pool.blockSize == size && h.m.tables.Keys == {1}
    requires Spans(x, n, size) && Coherent(x, size) && HoldsShorter(h.m.entries, h.m.tables[1].blocks, x, n, size)
    requires DrawnFrom(h, {Shorter(x, size)}) && CeilDiv(|x|, size) <= |h.m.pool.freeList|
    requires BlockDigest(x, n, size) in h.m.entries
    ensures !AdoptsOwnHistory(h, 2, x)
  {
    hide Tracked, DrawnFrom, ChainHash, BlockDigest, Coherent, PublishedInto, Entered, CeilDiv, AdoptsOwnHistory, BlockTokens;
    var k := BlockDigest(x, n, size);
    forall i: nat ensures FoundAt(h.m.entries, x, size, i) {
      if HasBlock(x, i, size) {
        BlocksEnd(x, n, size, i);
        ShorterIsFound(h.m.entries, x, size, n, h.m.tables[1].blocks, i);
      }
    }
    assert FoundAt(h.m.entries, x, size, n);
    var b := h.m.entries[k].block;
    EntryHasOrigin(h, k);
    OriginsAreShort(h, Shorter(x, size), b);
    AdoptsAnother(h, 2, x, n, b);
  }

  lemma BlocksEnd(x: seq<TokenId>, n: nat, size: nat, i: nat)
    requires size > 0 && |x| == (n + 1) * size && HasBlock(x, i, size)
    ensures i <= n
  {
    if i > n {
      MulMonotone(n + 1, i, size);
    }
  }

  /** Otherwise `y`, published next, takes the digest, and `x` adopts the last block of `y`. */
  lemma FreeDigestConfuses(g: History, h: History, size: nat, x: seq<TokenId>, n: nat, y: seq<TokenId>, l: nat)
    requires Tracked(g) && Tracked(h) && h.m.prefixCaching && g.m.tables.Keys == {1} && h.m.tables.Keys == {0, 1}
    requires g.m.pool.blockSize == h.m.pool.blockSize == size && Spans(x, n, size) && Spans(y, l, size)
    requires WholeBlocks(x, size) && WholeBlocks(y, size) && Confusable(x, y, size)
    requires HoldsShorter(g.m.entries, g.m.tables[1].blocks, x, n, size) && BlockDigest(x, n, size) !in g.m.entries
    requires |h.m.tables[0].blocks| == l + 1 && Entered(h.m.entries, y, l + 1, size)
    requires PublishedInto(g.m.entries, h.m.entries, y, h.m.tables[0].blocks, size)
    requires h.m.tables[0].blocks[l] in h.origin && h.origin[h.m.tables[0].blocks[l]] == y
    requires CeilDiv(|x|, size) <= |h.m.pool.freeList|
    ensures !AdoptsOwnHistory(h, 2, x)
  {
    hide Tracked, ChainHash, BlockDigest, Coherent, Leading, CeilDiv, AdoptsOwnHistory, BlockTokens, Through, WholeBlocks, LastTokens;
    var k := BlockDigest(x, n, size);
    LastBlockOf(x, n, size);
    LastBlockOf(y, l, size);
    assert k == BlockDigest(y, l, size);
    assert k in h.m.entries && Stands(h.m.entries[k], k, y, h.m.tables[0].blocks, size);
    var j: nat :| EntersAs(h.m.entries[k], k, y, h.m.tables[0].blocks, size, j);
    LeadingIsLast(y, l, size, j);
    forall i: nat ensures FoundAt(h.m.entries, x, size, i) {
      if HasBlock(x, i, size) {
        BlocksEnd(x, n, size, i);
        if i < n {
          ShorterBlocks(x, size, n, i);
          ShorterIsFound(g.m.entries, x, size, n, g.m.tables[1].blocks, i);
        }
      }
    }
    AdoptsAnother(h, 2, x, n, h.m.tables[0].blocks[l]);
  }

  lemma LastBlockOf(x: seq<TokenId>, n: nat, size: nat)
    requires size > 0 && |x| == (n + 1) * size && EndsAt(x, n, size)
    ensures Through(x, n, size) == x && WholeBlocks(x, size)
    ensures ChainHash(x, size) == Some(BlockDigest(x, n, size)) && LastTokens(x, size) == BlockTokens(x, n, size)
  {
    hide ChainHash, BlockDigest;
    assert (n + 1) * size == n * size + size;
    ThroughHash(x, n, size);
    ThroughEnds(x, n, size);
  }

  lemma LeadingIsLast(y: seq<TokenId>, l: nat, size: nat, j: nat)
    requires size > 0 && |y| == (l + 1) * size && EndsAt(y, l, size) && Leading(y, size) && HasBlock(y, j, size)
    requires BlockDigest(y, j, size) == BlockDigest(y, l, size)
    ensures j == l
  {
    hide ChainHash, BlockDigest;
    LastBlockOf(y, l, size);
    BlockIsPrefix(y, size, l, j);
    assert Through(y, j, size) == y;
    assert j * size + size == (l + 1) * size == l * size + size;
    RowsApart(j, l, size);
  }

  // ----- The theorem -----

  /** Some prompt of the set begins with `p`. */
  ghost predicate Within(prompts: set<seq<TokenId>>, p: seq<TokenId>) {
    exists q :: q in prompts && p <= q
  }

  ghost predicate AllWithin(prompts: set<seq<TokenId>>, ops: seq<CacheOp>) {
    forall p :: p in Prompts(ops) ==> Within(prompts, p)
  }

  /** A run with prefix caching, over prefixes of the prompts, after which some prefix adopts another history's block. */
  ghost predicate Confused(prompts: set<seq<TokenId>>, size: nat, numBlocks: nat, ops: seq<CacheOp>, s: SequenceId, p: seq<TokenId>)
    requires size > 0
  {
    AllWithin(prompts, ops) && Within(prompts, p) && !AdoptsOwnHistory(StateAfter(numBlocks, size, true, ops), s, p)
  }

  lemma RunPublishes(h: History, s: SequenceId, prompt: seq<TokenId>, rest: seq<CacheOp>)
    requires Tracked(h)
    ensures Run(h, [OpAllocate(s, prompt), OpCommit(s)] + rest) == Run(PublishedHistory(h, s, prompt), rest)
  {
    hide Tracked, Step;
    StepKeepsTracked(h, OpAllocate(s, prompt));
    StepKeepsTracked(Step(h, OpAllocate(s, prompt)), OpCommit(s));
    var ops := [OpAllocate(s, prompt), OpCommit(s)] + rest;
    assert ops[1..][0] == OpCommit(s) && ops[1..][1..] == rest;
  }

  lemma StatesAfter(numBlocks: nat, x: seq<TokenId>, y: seq<TokenId>, size: nat)
    requires size > 0 && size <= |x|
    ensures Tracked(NewHistory(numBlocks, size, true))
    ensures var g := PublishedHistory(NewHistory(numBlocks, size, true), 1, Shorter(x, size));
            && StateAfter(numBlocks, size, true, Before(x, size)) == g
            && StateAfter(numBlocks, size, true, Both(x, y, size)) == PublishedHistory(g, 0, y)
  {
    hide Tracked, Step, Run, PublishedHistory;
    NewHistoryTracked(numBlocks, size, true);
    var h := NewHistory(numBlocks, size, true);
    var g := PublishedHistory(h, 1, Shorter(x, size));
    assert Before(x, size) == [OpAllocate(1, Shorter(x, size)), OpCommit(1)] + [];
    RunPublishes(h, 1, Shorter(x, size), []);
    RunPublishes(h, 1, Shorter(x, size), [OpAllocate(0, y), OpCommit(0)]);
    assert [OpAllocate(0, y), OpCommit(0)] == [OpAllocate(0, y), OpCommit(0)] + [];
    RunPublishes(g, 0, y, []);
    RunNothing(g);
    RunNothing(PublishedHistory(g, 0, y));
  }

  lemma RunNothing(h: History)
    requires Tracked(h)
    ensures Run(h, []) == h
  {
  }

  lemma NewIsPublishable(numBlocks: nat, size: nat, s: SequenceId, prompt: seq<TokenId>)
    requires WholeOrEmpty(prompt, size) && CeilDiv(|prompt|, size) <= numBlocks
    ensures Publishable(NewHistory(numBlocks, size, true), s, prompt)
    ensures NewHistory(numBlocks, size, true).m.entries == map[] && NewHistory(numBlocks, size, true).m.tables == map[]
    ensures |NewHistory(numBlocks, size, true).m.pool.freeList| == numBlocks
  {
    hide Tracked;
    NewHistoryTracked(numBlocks, size, true);
  }

  /** In a pool large enough for three such prompts, every confusable pair is confused, after one publication or two. */
  lemma ConfusablePairIsConfused(x: seq<TokenId>, y: seq<TokenId>, size: nat)
    requires size > 0 && WholeBlocks(x, size) && WholeBlocks(y, size) && Confusable(x, y, size)
    ensures var numBlocks := |x| + |x| + |y|;
            || !AdoptsOwnHistory(StateAfter(numBlocks, size, true, Before(x, size)), 2, x)
            || !AdoptsOwnHistory(StateAfter(numBlocks, size, true, Both(x, y, size)), 2, x)
    ensures Leading(x, size) ==> !AdoptsOwnHistory(StateAfter(|x| + |x| + |y|, size, true, Both(x, y, size)), 2, x)
  {
    hide Tracked, PublishedHistory, AdoptsOwnHistory, Coherent, Leading, ChainHash, BlockDigest, PublishedInto, Entered, CeilDiv,
      FreeBlank, HasBlock, Before, Both, Confusable, WholeBlocks;
    var n := WholeBlocksCount(x, size);
    var l := WholeBlocksCount(y, size);
    var numBlocks, x1 := |x| + |x| + |y|, Shorter(x, size);
    assert |x1| == n * size;
    CeilExact(n, size);
    MulDivExact(n, size);
    MulDivExact(l + 1, size);
    MulAtLeast(n + 1, size);
    MulAtLeast(l + 1, size);
    StatesAfter(numBlocks, x, y, size);
    var h := NewHistory(numBlocks, size, true);
    NewIsPublishable(numBlocks, size, 1, x1);
    PublishingEnters(h, 1, x1);
    var g := PublishedHistory(h, 1, x1);
    assert |g.m.pool.freeList| >= numBlocks - n;
    ConfusableIsCoherent(x, y, size);
    if BlockDigest(x, n, size) in g.m.entries {
      BeforeIsDrawn(numBlocks, x, size);
      TakenDigestConfuses(g, size, x, n);
      TakenMeansNotLeading(g.m.entries, x, n, size, g.m.tables[1].blocks);
    } else {
      PublishingEnters(g, 0, y);
      LastBlockOf(y, l, size);
      FreeDigestConfuses(g, PublishedHistory(g, 0, y), size, x, n, y, l);
    }
  }

  lemma TakenMeansNotLeading(entries: Entries, x: seq<TokenId>, n: nat, size: nat, blocks: seq<BlockId>)
    requires Spans(x, n, size) && HoldsShorter(entries, blocks, x, n, size) && BlockDigest(x, n, size) in entries
    ensures !Leading(x, size)
  {
    hide ChainHash, BlockDigest, BlockTokens, Leading;
    var k := BlockDigest(x, n, size);
    assert Stands(entries[k], k, Shorter(x, size), blocks, size);
    var j: nat :| EntersAs(entries[k], k, Shorter(x, size), blocks, size, j);
    ShorterBlocks(x, size, n, j);
    if Leading(x, size) {
      LeadingIsLast(x, n, size, j);
    }
  }

  lemma ConfusableIsCoherent(x: seq<TokenId>, y: seq<TokenId>, size: nat)
    requires size > 0 && WholeBlocks(x, size) && WholeBlocks(y, size) && Confusable(x, y, size)
    ensures Coherent(x, size)
  {
  }

  lemma BeforeIsDrawn(numBlocks: nat, x: seq<TokenId>, size: nat)
    requires size > 0 && size <= |x|
    ensures Tracked(NewHistory(numBlocks, size, true))
    ensures DrawnFrom(PublishedHistory(NewHistory(numBlocks, size, true), 1, Shorter(x, size)), {Shorter(x, size)})
  {
    hide Tracked, PublishedHistory, DrawnFrom, StateAfter;
    StatesAfter(numBlocks, x, [], size);
    assert Prompts(Before(x, size)) == {Shorter(x, size)} by {
      assert Before(x, size)[0].prompt == Shorter(x, size);
    }
  }

  lemma WithinKeepsHistories(prompts: set<seq<TokenId>>, more: set<seq<TokenId>>, size: nat)
    requires size > 0 && (forall p :: p in more ==> Within(prompts, p)) && Unambiguous(prompts, size)
    ensures Unambiguous(more, size)
  {
    hide Confusable, WholeBlocks;
    forall x, y | HistoryOf(more, x, size) && HistoryOf(more, y, size) ensures !Confusable(x, y, size) {
      var p :| p in more && x <= p;
      var q :| q in more && y <= q;
      var pp :| pp in prompts && p <= pp;
      var qq :| qq in prompts && q <= qq;
      assert x <= pp && y <= qq;
      assert HistoryOf(prompts, x, size) && HistoryOf(prompts, y, size);
    }
  }

  lemma PairIsWithin(prompts: set<seq<TokenId>>, x: seq<TokenId>, y: seq<TokenId>, size: nat)
    requires size > 0 && HistoryOf(prompts, x, size) && HistoryOf(prompts, y, size)
    ensures Within(prompts, x) && AllWithin(prompts, Before(x, size)) && AllWithin(prompts, Both(x, y, size))
  {
    var p :| p in prompts && x <= p;
    assert Shorter(x, size) <= p;
    var q :| q in prompts && y <= q;
    forall r | r in Prompts(Both(x, y, size)) ensures Within(prompts, r) {
      var i :| 0 <= i < 4 && Both(x, y, size)[i].OpAllocate? && Both(x, y, size)[i].prompt == r;
    }
    forall r | r in Prompts(Before(x, size)) ensures Within(prompts, r) {
      var i :| 0 <= i < 2 && Before(x, size)[i].OpAllocate? && Before(x, size)[i].prompt == r;
    }
  }

  /**
   * Exactly when sharing is sound: over all pool sizes, all runs of cache operations and all
   * prompts that are prefixes of the given ones, no prompt ever adopts a block of another
   * history if and only if the index can confuse no two histories of the given prompts.
   */
  lemma SoundExactlyWhenUnambiguous(prompts: set<seq<TokenId>>, size: nat)
    requires size > 0
    ensures Unambiguous(prompts, size)
            <==> forall numBlocks: nat, ops, s, p :: !Confused(prompts, size, numBlocks, ops, s, p)
  {
    hide Unambiguous, AdoptsOwnHistory, StateAfter, Within, Confusable, WholeBlocks;
    if Unambiguous(prompts, size) {
      forall numBlocks: nat, ops, s, p ensures !Confused(prompts, size, numBlocks, ops, s, p) {
        if AllWithin(prompts, ops) && Within(prompts, p) {
          WithinKeepsHistories(prompts, Prompts(ops) + {p}, size);
          AdoptedBlocksHoldTheSameHistory(numBlocks, size, true, ops, s, p);
        }
      }
    } else {
      var numBlocks, ops, p := AmbiguousIsConfused(prompts, size);
    }
  }

  lemma AmbiguousIsConfused(prompts: set<seq<TokenId>>, size: nat) returns (numBlocks: nat, ops: seq<CacheOp>, p: seq<TokenId>)
    requires size > 0 && !Unambiguous(prompts, size)
    ensures Confused(prompts, size, numBlocks, ops, 2, p)
  {
    hide Confused, Confusable, Unambiguous, Before, Both;
    var x, y := SomeConfusable(prompts, size);
    HistoryIsWhole(prompts, x, size);
    numBlocks, p := |x| + |x| + |y|, x;
    PairIsConfused(prompts, x, y, size);
    ops := if Confused(prompts, size, numBlocks, Before(x, size), 2, x) then Before(x, size) else Both(x, y, size);
  }

  lemma PairIsConfused(prompts: set<seq<TokenId>>, x: seq<TokenId>, y: seq<TokenId>, size: nat)
    requires size > 0 && HistoryOf(prompts, x, size) && HistoryOf(prompts, y, size) && Confusable(x, y, size)
    ensures || Confused(prompts, size, |x| + |x| + |y|, Before(x, size), 2, x)
            || Confused(prompts, size, |x| + |x| + |y|, Both(x, y, size), 2, x)
  {
    hide AdoptsOwnHistory, StateAfter, Within, Confusable, Before, Both, AllWithin;
    ConfusablePairIsConfused(x, y, size);
    PairIsWithin(prompts, x, y, size);
  }

  lemma SomeConfusable(prompts: set<seq<TokenId>>, size: nat) returns (x: seq<TokenId>, y: seq<TokenId>)
    requires size > 0 && !Unambiguous(prompts, size)
    ensures HistoryOf(prompts, x, size) && HistoryOf(prompts, y, size) && Confusable(x, y, size)
  {
    x, y :| HistoryOf(prompts, x, size) && HistoryOf(prompts, y, size) && Confusable(x, y, size);
  }

  // ----- Collisions that the token comparison catches -----

  /** No two distinct histories that end in the same block have one digest. */
  ghost predicate EndsTellApart(prompts: set<seq<TokenId>>, size: nat)
    requires size > 0
  {
    forall x, y :: HistoryOf(prompts, x, size) && HistoryOf(prompts, y, size) && Alike(x, y, size) ==> x == y
  }

  /** Collisions between histories with different last blocks do no harm. */
  lemma DifferentEndsAreHarmless(prompts: set<seq<TokenId>>, size: nat)
    requires size > 0 && EndsTellApart(prompts, size)
    ensures Unambiguous(prompts, size)
  {
    hide Alike, Coherent, Leading, HistoryOf;
    forall x, y | HistoryOf(prompts, x, size) && HistoryOf(prompts, y, size)
      ensures WholeBlocks(x, size) && WholeBlocks(y, size) && !Confusable(x, y, size)
    {
      HistoryIsWhole(prompts, x, size);
      HistoryIsWhole(prompts, y, size);
    }
  }

  lemma HistoryIsWhole(prompts: set<seq<TokenId>>, x: seq<TokenId>, size: nat)
    requires size > 0 && HistoryOf(prompts, x, size)
    ensures WholeBlocks(x, size)
  {
  }
}
