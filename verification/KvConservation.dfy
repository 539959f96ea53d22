// Reference conservation and exact allocation in the cache manager.
module KvConservation {
  import opened Prelude
  import opened Arithmetic
  import opened Hashing
  import opened BlockPools
  import opened PoolInvariant
  import opened PrefixIndex
  import opened KvCache

  ghost function AnyKey(tables: map<SequenceId, BlockTable>): (s: SequenceId)
    requires tables != map[]
    ensures s in tables
  {
    var s :| s in tables;
    s
  }

  /** Every occurrence of every block over all block tables. */
  ghost function AllRefs(tables: map<SequenceId, BlockTable>): multiset<BlockId>
    decreases |tables|
  {
    if tables == map[] then multiset{}
    else
      var s := AnyKey(tables);
      multiset(tables[s].blocks) + AllRefs(tables - {s})
  }

  lemma {:induction false} AllRefsOf(tables: map<SequenceId, BlockTable>, s: SequenceId)
    requires s in tables
    ensures AllRefs(tables) == multiset(tables[s].blocks) + AllRefs(tables - {s})
    decreases |tables|
  {
    var x := AnyKey(tables);
    if x != s {
      AllRefsOf(tables - {x}, s);
      AllRefsOf(tables - {s}, x);
      assert tables - {x} - {s} == tables - {s} - {x};
      var rest := AllRefs(tables - {x} - {s});
      assert AllRefs(tables) == multiset(tables[x].blocks) + (multiset(tables[s].blocks) + rest);
      assert AllRefs(tables - {s}) == multiset(tables[x].blocks) + rest;
    }
  }

  lemma AllRefsWith(tables: map<SequenceId, BlockTable>, s: SequenceId, t: BlockTable)
    ensures AllRefs(tables[s := t]) == multiset(t.blocks) + AllRefs(tables - {s})
  {
    AllRefsOf(tables[s := t], s);
    assert tables[s := t] - {s} == tables - {s};
  }

  lemma AllRefsInsert(tables: map<SequenceId, BlockTable>, s: SequenceId, t: BlockTable)
    requires s !in tables
    ensures AllRefs(tables[s := t]) == AllRefs(tables) + multiset(t.blocks)
  {
    AllRefsWith(tables, s, t);
    AllRefsWithout(tables, s);
  }

  lemma AllRefsWithout(tables: map<SequenceId, BlockTable>, s: SequenceId)
    requires s !in tables
    ensures AllRefs(tables - {s}) == AllRefs(tables)
  {
    assert tables - {s} == tables;
  }

  /**
   * Reference conservation: each block's count is its number of occurrences over all
   * tables, the free list lists the rest, and every table is exactly large enough.
   */
  ghost predicate Consistent(m: Manager) {
    && m.WellFormed()
    && Conserves(m.pool, AllRefs(m.tables))
  }

  lemma NewManagerConsistent(numBlocks: nat, blockSize: nat, prefixCaching: bool)
    requires blockSize > 0
    ensures Consistent(NewManager(numBlocks, blockSize, prefixCaching))
  {
    NewPoolConserves(numBlocks, blockSize);
    ConservesIsWellFormed(NewPool(numBlocks, blockSize), multiset{});
  }

  lemma FreeBlocksExact(m: Manager)
    requires Consistent(m)
    ensures |m.pool.freeList| == |m.pool.blocks| - |Held(AllRefs(m.tables))|
  {
    FreeIsTotalLessReferenced(m.pool, AllRefs(m.tables));
  }

  lemma TableBlocksHeld(tables: map<SequenceId, BlockTable>, s: SequenceId, b: BlockId)
    requires s in tables && b in tables[s].blocks
    ensures b in AllRefs(tables)
  {
    AllRefsOf(tables, s);
    assert b in multiset(tables[s].blocks);
  }

  /** With no table left every block is free. */
  lemma NoTablesAllFree(m: Manager)
    requires Consistent(m) && m.tables == map[]
    ensures |m.pool.freeList| == |m.pool.blocks|
  {
    FreeBlocksExact(m);
    assert Held(AllRefs(m.tables)) == {};
  }

  // ----- Allocation -----

  /** Digest of the first `i` whole blocks of the prompt. */
  ghost function PrefixHash(prompt: seq<TokenId>, i: nat, size: nat): Option<Hash>
    requires size > 0 && i * size <= |prompt|
  {
    ChainHash(prompt[..i * size], size)
  }

  ghost predicate HasBlock(prompt: seq<TokenId>, i: nat, size: nat) {
    i * size + size <= |prompt|
  }

  /** The tokens of logical block `i`. */
  ghost function BlockTokens(prompt: seq<TokenId>, i: nat, size: nat): seq<TokenId>
    requires HasBlock(prompt, i, size)
  {
    prompt[i * size..i * size + size]
  }

  /** The chained digest of logical block `i`. */
  ghost function BlockDigest(prompt: seq<TokenId>, i: nat, size: nat): Hash
    requires size > 0 && HasBlock(prompt, i, size)
  {
    HashBlock(PrefixHash(prompt, i, size), BlockTokens(prompt, i, size))
  }

  /** Logical block `i` of the prompt is found in the index, as block `b`. */
  ghost predicate CachedAt(entries: Entries, prompt: seq<TokenId>, i: nat, size: nat, b: BlockId)
    requires size > 0
  {
    && HasBlock(prompt, i, size)
    && Find(entries, BlockDigest(prompt, i, size), BlockTokens(prompt, i, size)) == Some(b)
  }

  lemma PrefixHashNext(prompt: seq<TokenId>, i: nat, size: nat)
    requires size > 0 && HasBlock(prompt, i, size)
    ensures (i + 1) * size == i * size + size
    ensures PrefixHash(prompt, i + 1, size) == Some(BlockDigest(prompt, i, size))
  {
    var whole := prompt[..i * size + size];
    assert (i + 1) * size == i * size + size;
    assert whole[..|whole| - size] == prompt[..i * size];
    assert whole[|whole| - size..] == prompt[i * size..i * size + size];
  }

  /** The first `reused` blocks of the table are the prompt's own cached blocks. */
  ghost predicate LeadingRun(entries: Entries, prompt: seq<TokenId>, size: nat, table: seq<BlockId>, reused: nat)
    requires size > 0
  {
    && reused <= |table|
    && forall i :: 0 <= i < reused ==> CachedAt(entries, prompt, i, size, table[i])
  }

  /** The other blocks were referenced by nobody, and none is listed twice. */
  ghost predicate FreshTail(refs: multiset<BlockId>, table: seq<BlockId>, reused: nat) {
    forall i :: reused <= i < |table| ==> table[i] !in refs && table[i] !in table[..i]
  }

  /** Position `pos` is where logical block `n` of a prompt of `length` tokens begins. */
  ghost predicate BlockAt(n: nat, size: nat, length: nat, pos: nat) {
    pos == Min(n * size, length)
  }

  lemma BlockAtNext(n: nat, size: nat, length: nat, pos: nat)
    requires BlockAt(n, size, length, pos) && pos < length
    ensures pos == n * size
    ensures BlockAt(n + 1, size, length, ChunkEnd(pos, length, size))
    ensures (n + 1) * size == n * size + size
  {
  }

  /** The state of the allocation loop at `pos`, for a manager that was `m` before. */
  ghost predicate AllocInv(m: Manager, prompt: seq<TokenId>, st: AllocState, pos: nat)
    requires m.pool.blockSize > 0
  {
    var size, refs, v := m.pool.blockSize, AllRefs(m.tables), st.vars;
    && BlockAt(|v.table|, size, |prompt|, pos)
    && st.pool.blockSize == size && |st.pool.blocks| == |m.pool.blocks|
    && Conserves(st.pool, refs + multiset(v.table))
    && v.outcome.newBlocks + v.outcome.reused == |v.table|
    && (v.matching ==>
          && m.prefixCaching && v.outcome.newBlocks == 0 && st.entries == m.entries
          && |v.table| * size <= |prompt| && v.chain == PrefixHash(prompt, |v.table|, size))
    && LeadingRun(m.entries, prompt, size, v.table, v.outcome.reused)
    && FreshTail(refs, v.table, v.outcome.reused)
    && v.outcome.cachedTokens == v.outcome.reused * size
    && (v.outcome.reused > 0 ==> m.prefixCaching)
  }

  lemma AllocChunkAdopts(m: Manager, prompt: seq<TokenId>, st: AllocState, pos: nat)
    requires m.pool.blockSize > 0 && AllocInv(m, prompt, st, pos) && pos < |prompt|
    requires AdoptChunk(st, prompt[pos..ChunkEnd(pos, |prompt|, m.pool.blockSize)]).Some?
    requires st.pool.WellFormed()
    ensures var end := ChunkEnd(pos, |prompt|, m.pool.blockSize);
            var next := AllocChunk(st, prompt[pos..end]);
            && next.Some? && AllocInv(m, prompt, next.value, end)
            && |next.value.pool.freeList| >= |st.pool.freeList| - 1
  {
    hide HashBlock, ChainHash, Conserves, BlockAt, LeadingRun, FreshTail, AllRefs;
    var size, v := m.pool.blockSize, st.vars;
    BlockAtNext(|v.table|, size, |prompt|, pos);
    var end := ChunkEnd(pos, |prompt|, size);
    var chunk := prompt[pos..end];
    var b := AdoptChunk(st, chunk).value.1;
    var next := AllocChunk(st, chunk).value;
    ReferencedConserves(st.pool, AllRefs(m.tables) + multiset(v.table), b);
    assert AllRefs(m.tables) + multiset(v.table) + multiset{b} == AllRefs(m.tables) + multiset(v.table + [b]);
    assert v.matching && |chunk| == size;
    assert end == pos + size;
    PrefixHashNext(prompt, |v.table|, size);
    assert CachedAt(m.entries, prompt, |v.table|, size, b);
    assert v.outcome.reused == |v.table|;
    LeadingRunGrows(m.entries, prompt, size, v.table, b);
    FreshTailEmpty(AllRefs(m.tables), v.table + [b]);
  }

  lemma LeadingRunGrows(entries: Entries, prompt: seq<TokenId>, size: nat, table: seq<BlockId>, b: BlockId)
    requires size > 0 && LeadingRun(entries, prompt, size, table, |table|)
    requires CachedAt(entries, prompt, |table|, size, b)
    ensures LeadingRun(entries, prompt, size, table + [b], |table| + 1)
  {
    hide CachedAt;
    assert forall i :: 0 <= i < |table| ==> (table + [b])[i] == table[i];
  }

  lemma FreshTailEmpty(refs: multiset<BlockId>, table: seq<BlockId>)
    ensures FreshTail(refs, table, |table|)
  {
  }

  lemma FreshTailGrows(entries: Entries, prompt: seq<TokenId>, size: nat, refs: multiset<BlockId>,
                       table: seq<BlockId>, reused: nat, b: BlockId)
    requires size > 0 && LeadingRun(entries, prompt, size, table, reused) && FreshTail(refs, table, reused)
    requires b !in refs && b !in table
    ensures LeadingRun(entries, prompt, size, table + [b], reused)
    ensures FreshTail(refs, table + [b], reused)
  {
    hide CachedAt;
    forall i | 0 <= i < |table| + 1 ensures (table + [b])[..i] == table[..i] {
    }
  }

  lemma AllocChunkComputes(m: Manager, prompt: seq<TokenId>, st: AllocState, pos: nat)
    requires m.pool.blockSize > 0 && AllocInv(m, prompt, st, pos) && pos < |prompt|
    requires AdoptChunk(st, prompt[pos..ChunkEnd(pos, |prompt|, m.pool.blockSize)]).None?
    requires st.pool.WellFormed()
    ensures var end := ChunkEnd(pos, |prompt|, m.pool.blockSize);
            var next := AllocChunk(st, prompt[pos..end]);
            && (next.None? <==> st.pool.freeList == [])
            && (next.Some? ==> AllocInv(m, prompt, next.value, end)
                               && |next.value.pool.freeList| == |st.pool.freeList| - 1)
  {
    hide HashBlock, ChainHash, Conserves, BlockAt, LeadingRun, FreshTail, AllRefs, PrefixHash;
    var size, v, refs := m.pool.blockSize, st.vars, AllRefs(m.tables);
    BlockAtNext(|v.table|, size, |prompt|, pos);
    var end := ChunkEnd(pos, |prompt|, size);
    var chunk := prompt[pos..end];
    TakeConserves(st.pool, refs + multiset(v.table));
    if st.pool.freeList != [] {
      var t := Take(st.pool).value;
      var next := AllocChunk(st, chunk).value;
      WithContentsConserves(t.pool, refs + multiset(v.table) + multiset{t.block}, t.block, |chunk|, None);
      assert refs + multiset(v.table) + multiset{t.block} == refs + multiset(v.table + [t.block]);
      assert t.block !in multiset(v.table);
      FreshTailGrows(m.entries, prompt, size, refs, v.table, v.outcome.reused, t.block);
    }
  }

  lemma {:induction false} AllocFromRuns(m: Manager, prompt: seq<TokenId>, st: AllocState, pos: nat)
    requires m.pool.blockSize > 0 && AllocInv(m, prompt, st, pos)
    requires st.pool.WellFormed() && pos <= |prompt|
    requires CeilDiv(|prompt| - pos, m.pool.blockSize) <= |st.pool.freeList|
    ensures var (end, done) := AllocFrom(st, prompt, pos);
            done && AllocInv(m, prompt, end, |prompt|)
    decreases |prompt| - pos
  {
    hide AllocChunk, AllocInv, AdoptChunk;
    if pos < |prompt| {
      var end := ChunkEnd(pos, |prompt|, st.pool.blockSize);
      AllocInvBlockSize(m, prompt, st, pos);
      CeilChunk(|prompt| - pos, m.pool.blockSize);
      if AdoptChunk(st, prompt[pos..end]).Some? {
        AllocChunkAdopts(m, prompt, st, pos);
      } else {
        AllocChunkComputes(m, prompt, st, pos);
      }
      AllocChunkWellFormed(st, prompt[pos..end]);
      AllocFromRuns(m, prompt, AllocChunk(st, prompt[pos..end]).value, end);
    }
  }

  lemma AllocInvBlockSize(m: Manager, prompt: seq<TokenId>, st: AllocState, pos: nat)
    requires m.pool.blockSize > 0 && AllocInv(m, prompt, st, pos)
    ensures st.pool.blockSize == m.pool.blockSize
  {
  }

  lemma AllocStartInv(m: Manager, prompt: seq<TokenId>)
    requires Consistent(m)
    ensures AllocInv(m, prompt, AllocStart(m), 0)
  {
    var refs := AllRefs(m.tables);
    assert refs + multiset([]) == refs;
    assert prompt[..0 * m.pool.blockSize] == [];
  }

  /** Blocks of the new table that were adopted while nobody referenced them. */
  ghost function Revived(m: Manager, table: seq<BlockId>, reused: nat): set<BlockId>
    requires reused <= |table|
  {
    Elements(table[..reused]) - Held(AllRefs(m.tables))
  }

  /** What a successful allocation leaves behind. */
  ghost predicate AllocationExact(m: Manager, s: SequenceId, prompt: seq<TokenId>,
                                  after: Manager, o: AllocationOutcome)
    requires m.pool.blockSize > 0
  {
    && Consistent(after)
    && after.pool.blockSize == m.pool.blockSize && |after.pool.blocks| == |m.pool.blocks|
    && after.prefixCaching == m.prefixCaching
    && after.tables.Keys == m.tables.Keys + {s}
    && (forall x :: x in m.tables ==> after.tables[x] == m.tables[x])
    && after.tables[s].numTokens == |prompt|
    && var table := after.tables[s].blocks;
       && o.reused + o.newBlocks == |table| == CeilDiv(|prompt|, m.pool.blockSize)
       && o.cachedTokens == o.reused * m.pool.blockSize
       && LeadingRun(m.entries, prompt, m.pool.blockSize, table, o.reused)
       && FreshTail(AllRefs(m.tables), table, o.reused)
       && |after.pool.freeList| == |m.pool.freeList| - o.newBlocks - |Revived(m, table, o.reused)|
  }

  /**
   * Allocation succeeds exactly when the sequence has no table and the prompt's blocks are
   * free, so the roll-back never happens; the blocks reused are a leading run of cached
   * blocks; the free list shrinks by the blocks computed and the blocks revived, at most the
   * estimate; and a failure changes nothing.
   */
  lemma AllocationIsExact(m: Manager, s: SequenceId, prompt: seq<TokenId>)
    requires Consistent(m)
    ensures var (after, r) := Allocated(m, s, prompt);
            && (r.Ok? <==> s !in m.tables && CeilDiv(|prompt|, m.pool.blockSize) <= |m.pool.freeList|)
            && (r.Err? ==> after == m)
            && (r.Ok? ==>
                  && AllocationExact(m, s, prompt, after, r.value)
                  && |m.pool.freeList| - |after.pool.freeList| <= CeilDiv(|prompt|, m.pool.blockSize))
  {
    hide Conserves, AllocInv, AllocationExact;
    if s !in m.tables && CeilDiv(|prompt|, m.pool.blockSize) <= |m.pool.freeList| {
      AllocStartInv(m, prompt);
      AllocFromRuns(m, prompt, AllocStart(m), 0);
      AllocationFromState(m, s, prompt);
    }
  }

  lemma AllocationFromState(m: Manager, s: SequenceId, prompt: seq<TokenId>)
    requires Consistent(m) && s !in m.tables && CeilDiv(|prompt|, m.pool.blockSize) <= |m.pool.freeList|
    requires AllocFrom(AllocStart(m), prompt, 0).1
    requires AllocInv(m, prompt, AllocFrom(AllocStart(m), prompt, 0).0, |prompt|)
    ensures var (after, r) := Allocated(m, s, prompt);
            && r.Ok? && AllocationExact(m, s, prompt, after, r.value)
            && |m.pool.freeList| - |after.pool.freeList| <= CeilDiv(|prompt|, m.pool.blockSize)
  {
    hide AllocationExact, AllocInv, Conserves;
    AllocFromWellFormed(AllocStart(m), prompt, 0);
    AllocatedWellFormed(m, s, prompt);
    var st := AllocFrom(AllocStart(m), prompt, 0).0;
    AllocInvIsExact(m, s, prompt, st);
    AllocationFreeCount(m, prompt, st);
  }

  lemma AllocInvIsExact(m: Manager, s: SequenceId, prompt: seq<TokenId>, st: AllocState)
    requires Consistent(m) && s !in m.tables && AllocInv(m, prompt, st, |prompt|)
    requires |st.vars.table| == CeilDiv(|prompt|, m.pool.blockSize) && st.pool.WellFormed()
    ensures var after := Manager(st.pool, m.tables[s := BlockTable(st.vars.table, |prompt|)],
                                 st.entries, m.prefixCaching);
            && AllocationExact(m, s, prompt, after, st.vars.outcome)
            && |after.pool.freeList|
               == |m.pool.freeList| - st.vars.outcome.newBlocks
                  - |Revived(m, st.vars.table, st.vars.outcome.reused)|
            && |Revived(m, st.vars.table, st.vars.outcome.reused)| <= st.vars.outcome.reused
            && st.vars.outcome.newBlocks + st.vars.outcome.reused == |st.vars.table|
  {
    hide Conserves, LeadingRun, FreshTail, CeilDiv, BlockAt, Revived, AllRefs;
    AllRefsInsert(m.tables, s, BlockTable(st.vars.table, |prompt|));
    AllocationFreeCount(m, prompt, st);
  }

  /** The computed blocks belong to the new table alone. */
  lemma ComputedBlocksAreExclusive(m: Manager, s: SequenceId, prompt: seq<TokenId>,
                                   after: Manager, o: AllocationOutcome)
    requires Consistent(m) && s !in m.tables && AllocationExact(m, s, prompt, after, o)
    ensures forall i :: o.reused <= i < |after.tables[s].blocks| ==>
              && after.tables[s].blocks[i] < |after.pool.blocks|
              && after.pool.blocks[after.tables[s].blocks[i]].refCount == 1
  {
    var table, refs := after.tables[s].blocks, AllRefs(m.tables);
    AllRefsOf(after.tables, s);
    assert after.tables - {s} == m.tables;
    forall i | o.reused <= i < |table|
      ensures table[i] < |after.pool.blocks| && after.pool.blocks[table[i]].refCount == 1
    {
      CountOnce(refs, table, o.reused, i);
      assert table[i] in AllRefs(after.tables);
    }
  }

  lemma CountOnce(refs: multiset<BlockId>, table: seq<BlockId>, reused: nat, i: nat)
    requires FreshTail(refs, table, reused) && reused <= i < |table|
    ensures multiset(table)[table[i]] == 1 && refs[table[i]] == 0
  {
    var tail := table[i + 1..];
    assert table == table[..i] + [table[i]] + tail;
    forall j | 0 <= j < |tail| ensures tail[j] != table[i] {
      assert table[i] in table[..i + 1 + j];
      assert tail[j] == table[i + 1 + j];
    }
    assert table[i] !in multiset(tail) && table[i] !in multiset(table[..i]);
  }

  lemma AllocationFreeCount(m: Manager, prompt: seq<TokenId>, st: AllocState)
    requires Consistent(m) && AllocInv(m, prompt, st, |prompt|)
    ensures |st.pool.freeList| == |m.pool.freeList| - st.vars.outcome.newBlocks
                                  - |Revived(m, st.vars.table, st.vars.outcome.reused)|
    ensures |Revived(m, st.vars.table, st.vars.outcome.reused)| <= st.vars.outcome.reused
  {
    hide Conserves, CachedAt;
    var table, reused, refs := st.vars.table, st.vars.outcome.reused, AllRefs(m.tables);
    FreeIsTotalLessReferenced(m.pool, refs);
    FreeIsTotalLessReferenced(st.pool, refs + multiset(table));
    HeldWithTable(refs, table, reused);
  }

  lemma HeldWithTable(refs: multiset<BlockId>, table: seq<BlockId>, reused: nat)
    requires FreshTail(refs, table, reused) && reused <= |table|
    ensures |Held(refs + multiset(table))|
            == |Held(refs)| + (|table| - reused) + |Elements(table[..reused]) - Held(refs)|
    ensures |Elements(table[..reused]) - Held(refs)| <= reused
  {
    var head, tail := table[..reused], table[reused..];
    var revived := Elements(head) - Held(refs);
    TailIsDistinct(refs, table, reused);
    DistinctCount(tail);
    HeldUnion(refs, table, reused);
    ThreeDisjoint(Held(refs), revived, Elements(tail));
    CountAtMost(head);
    SubsetCount(revived, Elements(head));
  }

  lemma HeldUnion(refs: multiset<BlockId>, table: seq<BlockId>, reused: nat)
    requires reused <= |table|
    ensures Held(refs + multiset(table))
            == Held(refs) + (Elements(table[..reused]) - Held(refs)) + Elements(table[reused..])
  {
    assert table == table[..reused] + table[reused..];
    forall b: BlockId
      ensures b in refs + multiset(table) <==> b in refs || b in table[..reused] || b in table[reused..]
    {
    }
  }

  lemma ThreeDisjoint<T>(a: set<T>, b: set<T>, c: set<T>)
    requires a !! b && a !! c && b !! c
    ensures |a + b + c| == |a| + |b| + |c|
  {
    assert (a + b) !! c;
  }

  lemma TailIsDistinct(refs: multiset<BlockId>, table: seq<BlockId>, reused: nat)
    requires FreshTail(refs, table, reused) && reused <= |table|
    ensures NoDuplicates(table[reused..])
    ensures forall b :: b in table[reused..] ==> b !in table[..reused] && b !in refs
  {
    var tail := table[reused..];
    forall i, j | 0 <= i < j < |tail| ensures tail[i] != tail[j] {
      assert table[reused + i] in table[..reused + j];
    }
    forall b | b in tail ensures b !in table[..reused] && b !in refs {
      var i :| 0 <= i < |tail| && tail[i] == b;
      assert table[reused + i] == b;
      assert forall x :: x in table[..reused] ==> x in table[..reused + i];
    }
  }

  lemma CountAtMost<T(!new)>(s: seq<T>)
    ensures |Elements(s)| <= |s|
  {
    if s != [] {
      CountAtMost(s[..|s| - 1]);
      assert Elements(s) == Elements(s[..|s| - 1]) + {s[|s| - 1]};
    } else {
      assert Elements(s) == {};
    }
  }

  lemma SubsetCount<T>(a: set<T>, b: set<T>)
    requires a <= b
    ensures |a| <= |b|
  {
    assert b == a + (b - a);
  }

  // ----- Release -----

  /** Releasing the blocks one by one, no release is refused. */
  ghost predicate NoReleaseFails(p: Pool, blocks: seq<BlockId>)
    decreases |blocks|
  {
    blocks == [] || (Released(p, blocks[0]).Some? && NoReleaseFails(Released(p, blocks[0]).value, blocks[1..]))
  }

  lemma {:induction false} ReleaseAllConserves(p: Pool, refs: multiset<BlockId>, blocks: seq<BlockId>)
    requires Conserves(p, refs + multiset(blocks))
    ensures Conserves(ReleaseAll(p, blocks), refs)
    ensures NoReleaseFails(p, blocks)
    ensures |ReleaseAll(p, blocks).blocks| == |p.blocks|
    decreases |blocks|
  {
    hide Conserves;
    if blocks == [] {
      assert refs + multiset(blocks) == refs;
    } else {
      var b, rest := blocks[0], blocks[1..];
      assert blocks == [b] + rest;
      assert refs + multiset(blocks) - multiset{b} == refs + multiset(rest);
      ReleasedConserves(p, refs + multiset(blocks), b);
      ReleaseAllConserves(Released(p, b).value, refs, rest);
    }
  }

  /** Freeing a sequence never meets a refused release, and keeps every count right. */
  lemma FreeingConserves(m: Manager, s: SequenceId)
    requires Consistent(m)
    ensures Consistent(Freed(m, s))
    ensures Freed(m, s).tables == m.tables - {s}
    ensures s in m.tables ==> NoReleaseFails(m.pool, m.tables[s].blocks)
    ensures |Freed(m, s).pool.blocks| == |m.pool.blocks|
    ensures Freed(m, s).pool.blockSize == m.pool.blockSize
  {
    FreedWellFormed(m, s);
    if s in m.tables {
      AllRefsOf(m.tables, s);
      var rest := AllRefs(m.tables - {s});
      assert multiset(m.tables[s].blocks) + rest == rest + multiset(m.tables[s].blocks);
      ReleaseAllConserves(m.pool, rest, m.tables[s].blocks);
    } else {
      assert m.tables - {s} == m.tables;
    }
  }

  // ----- Growth -----

  /** Whether one more token of `s` fits: it has a table, and a slot or a free block. */
  predicate CanAppend(m: Manager, s: SequenceId)
    requires m.pool.blockSize > 0
  {
    s in m.tables && (m.tables[s].numTokens % m.pool.blockSize != 0 || m.pool.freeList != [])
  }

  lemma LastBlockInRange(m: Manager, s: SequenceId)
    requires Consistent(m) && s in m.tables && m.tables[s].blocks != []
    ensures m.tables[s].blocks[|m.tables[s].blocks| - 1] < |m.pool.blocks|
  {
    TableBlocksHeld(m.tables, s, m.tables[s].blocks[|m.tables[s].blocks| - 1]);
  }

  lemma GrownConserves(m: Manager, s: SequenceId)
    requires Consistent(m) && s in m.tables
    ensures Grown(m, s).Some? <==> CanAppend(m, s)
    ensures Grown(m, s).Some? ==>
              var g := Grown(m, s).value;
              && Consistent(g) && |g.pool.blocks| == |m.pool.blocks| && g.pool.blockSize == m.pool.blockSize
              && g.tables == m.tables[s := g.tables[s]] && g.prefixCaching == m.prefixCaching
              && |g.pool.freeList|
                 == |m.pool.freeList| - (if m.tables[s].numTokens % m.pool.blockSize == 0 then 1 else 0)
  {
    hide AllRefs, CeilDiv;
    var table, refs := m.tables[s], AllRefs(m.tables);
    CeilSuccessor(table.numTokens, m.pool.blockSize);
    GrownWellFormed(m, s);
    TakeConserves(m.pool, refs);
    AllRefsOf(m.tables, s);
    if Grown(m, s).Some? {
      var g := Grown(m, s).value;
      AllRefsWith(m.tables, s, g.tables[s]);
      if table.numTokens % m.pool.blockSize == 0 {
        var t := Take(m.pool).value;
        assert multiset(table.blocks + [t.block]) == multiset(table.blocks) + multiset{t.block};
        assert AllRefs(g.tables) == refs + multiset{t.block};
      }
    }
  }

  /**
   * Appending succeeds exactly when the token fits; it then uses at most one free block, and
   * the table of `s` alone changes, by one token. Otherwise nothing changes.
   */
  lemma AppendingIsExact(m: Manager, s: SequenceId)
    requires Consistent(m)
    ensures var (after, err) := Appended(m, s);
            && (err.None? <==> CanAppend(m, s))
            && (err.Some? ==> after == m)
            && Consistent(after)
            && |after.pool.blocks| == |m.pool.blocks| && after.pool.blockSize == m.pool.blockSize
            && after.prefixCaching == m.prefixCaching
            && (err.None? ==>
                  && after.tables == m.tables[s := after.tables[s]]
                  && after.tables[s].numTokens == m.tables[s].numTokens + 1
                  && |after.pool.freeList|
                     == |m.pool.freeList| - (if m.tables[s].numTokens % m.pool.blockSize == 0 then 1 else 0))
  {
    hide Grown, Conserves, CeilDiv;
    if s in m.tables {
      GrownConserves(m, s);
      GrownWellFormed(m, s);
      if Grown(m, s).Some? {
        var g := Grown(m, s).value;
        var table := g.tables[s];
        LastBlockInRange(g, s);
        WithContentsConserves(g.pool, AllRefs(g.tables), table.blocks[|table.blocks| - 1],
                              Filled(table.numTokens, |table.blocks|, g.pool.blockSize), None);
      }
    }
  }

  // ----- Publication and eviction -----

  lemma {:induction false} CommitFromConserves(st: CommitState, refs: multiset<BlockId>, blocks: seq<BlockId>,
                                               prompt: seq<TokenId>, pos: nat, i: nat, chain: Option<Hash>)
    requires pos <= |prompt| && Conserves(st.pool, refs)
    ensures var end := CommitFrom(st, blocks, prompt, pos, i, chain);
            && Conserves(end.pool, refs) && end.pool.freeList == st.pool.freeList
            && |end.pool.blocks| == |st.pool.blocks| && end.pool.blockSize == st.pool.blockSize
    decreases |prompt| - pos
  {
    hide HashBlock;
    var end := pos + st.pool.blockSize;
    if end <= |prompt| && i < |blocks| {
      var h := HashBlock(chain, prompt[pos..end]);
      WithContentsConserves(st.pool, refs, blocks[i], |prompt[pos..end]|, Some(h));
      CommitFromConserves(CommitBlock(st, blocks[i], h, prompt[pos..end]), refs, blocks, prompt, end, i + 1, Some(h));
    }
  }

  lemma CommittingConserves(m: Manager, s: SequenceId, prompt: seq<TokenId>)
    requires Consistent(m)
    ensures Consistent(Committed(m, s, prompt))
    ensures Committed(m, s, prompt).tables == m.tables
    ensures Committed(m, s, prompt).pool.freeList == m.pool.freeList
    ensures |Committed(m, s, prompt).pool.blocks| == |m.pool.blocks|
    ensures Committed(m, s, prompt).pool.blockSize == m.pool.blockSize
    ensures Committed(m, s, prompt).prefixCaching == m.prefixCaching
  {
    CommittedWellFormed(m, s, prompt);
    if s in m.tables {
      CommitFromConserves(CommitState(m.pool, m.entries), AllRefs(m.tables), m.tables[s].blocks, prompt, 0, 0, None);
    }
  }

  lemma {:induction false} EvictingConserves(m: Manager, count: nat)
    requires Consistent(m)
    ensures Consistent(EvictedCached(m, count))
    ensures EvictedCached(m, count).tables == m.tables
    ensures EvictedCached(m, count).pool.freeList == m.pool.freeList
    decreases count
  {
    hide Conserves;
    if count > 0 && EvictOldest(m.pool).Some? {
      var e := EvictOldest(m.pool).value;
      EvictOldestConserves(m.pool, AllRefs(m.tables));
      EvictingConserves(m.(pool := e.pool, entries := Dropped(m.entries, e.hash, e.block)), count - 1);
    }
  }
}
