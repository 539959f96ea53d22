// Reference conservation and release order for the block pool.
module PoolInvariant {
  import opened Prelude
  import opened Hashing
  import opened BlockPools

  /**
   * `refs` counts the references held on each block: counts agree, and the free list lists
   * exactly the unreferenced blocks, each once.
   */
  ghost predicate Conserves(p: Pool, refs: multiset<BlockId>) {
    && p.blockSize > 0
    && (forall b: BlockId :: b in refs ==> b < |p.blocks|)
    && (forall b :: 0 <= b < |p.blocks| ==> p.blocks[b].refCount == refs[b])
    && NoDuplicates(p.freeList)
    && (forall b: BlockId :: b in p.freeList <==> b < |p.blocks| && b !in refs)
  }

  lemma ConservesIsWellFormed(p: Pool, refs: multiset<BlockId>)
    requires Conserves(p, refs)
    ensures p.WellFormed()
  {
    forall i | 0 <= i < |p.freeList| ensures p.freeList[i] < |p.blocks| {
      assert p.freeList[i] in p.freeList;
    }
  }

  lemma NewPoolConserves(numBlocks: nat, blockSize: nat)
    requires blockSize > 0
    ensures Conserves(NewPool(numBlocks, blockSize), multiset{})
  {
    var p := NewPool(numBlocks, blockSize);
    var none: multiset<BlockId> := multiset{};
    assert forall b :: 0 <= b < |p.blocks| ==> p.blocks[b].refCount == 0 == none[b];
    forall b: BlockId ensures b in p.freeList <==> b < |p.blocks| && b !in none {
      assert none[b] == 0;
      if b < numBlocks {
        assert p.freeList[b] == b;
      }
    }
  }

  lemma RemoveKeepsOthers(s: seq<BlockId>, x: BlockId)
    requires NoDuplicates(s)
    ensures NoDuplicates(Remove(s, x))
    ensures forall b: BlockId :: b in Remove(s, x) <==> b in s && b != x
    ensures |Remove(s, x)| == if x in s then |s| - 1 else |s|
  {
    var pos := FirstIndex(s, x);
    if pos < |s| {
      assert s == s[..pos] + [x] + s[pos + 1..];
      assert x !in s[..pos] && x !in s[pos + 1..];
    }
  }

  /** The blocks with at least one reference. */
  ghost function Held(refs: multiset<BlockId>): (r: set<BlockId>)
    ensures forall b: BlockId :: b in r <==> b in refs
  {
    set b | b in refs
  }

  /** Free blocks are the total less the distinct referenced ones. */
  lemma FreeIsTotalLessReferenced(p: Pool, refs: multiset<BlockId>)
    requires Conserves(p, refs)
    ensures |p.freeList| == |p.blocks| - |Held(refs)|
  {
    DistinctCount(p.freeList);
    assert Elements(p.freeList) * Held(refs) == {};
    assert Elements(p.freeList) + Held(refs) == Below(|p.blocks|);
  }

  lemma TakeConserves(p: Pool, refs: multiset<BlockId>)
    requires Conserves(p, refs)
    ensures p.WellFormed()
    ensures Take(p).None? <==> p.freeList == []
    ensures Take(p).Some? ==>
              var t := Take(p).value;
              && t.block !in refs && t.block < |p.blocks|
              && t.evicted == p.blocks[t.block].hash
              && Conserves(t.pool, refs + multiset{t.block})
              && |t.pool.freeList| == |p.freeList| - 1
              && |t.pool.blocks| == |p.blocks| && t.pool.blockSize == p.blockSize
  {
    ConservesIsWellFormed(p, refs);
    if p.freeList != [] {
      var t := Take(p).value;
      assert p.freeList[0] in p.freeList;
      forall b: BlockId ensures b in t.pool.freeList <==> b in p.freeList && b != t.block {
        if b in p.freeList && b != t.block {
          var i :| 0 <= i < |p.freeList| && p.freeList[i] == b;
          assert t.pool.freeList[i - 1] == b;
        }
      }
    }
  }

  lemma ReferencedConserves(p: Pool, refs: multiset<BlockId>, b: BlockId)
    requires Conserves(p, refs)
    ensures Referenced(p, b).Some? <==> b < |p.blocks|
    ensures Referenced(p, b).Some? ==>
              var q := Referenced(p, b).value;
              && Conserves(q, refs + multiset{b})
              && |q.freeList| == (if b in refs then |p.freeList| else |p.freeList| - 1)
              && |q.blocks| == |p.blocks| && q.blockSize == p.blockSize
  {
    RemoveKeepsOthers(p.freeList, b);
  }

  lemma ReleasedConserves(p: Pool, refs: multiset<BlockId>, b: BlockId)
    requires Conserves(p, refs)
    ensures Released(p, b).Some? <==> b in refs
    ensures Released(p, b).Some? ==>
              var q := Released(p, b).value;
              && Conserves(q, refs - multiset{b})
              && q.freeList == (if refs[b] == 1 then p.freeList + [b] else p.freeList)
              && |q.blocks| == |p.blocks| && q.blockSize == p.blockSize
  {
    if b in refs {
      var q := Released(p, b).value;
      var left := refs - multiset{b};
      assert forall x :: x != b ==> left[x] == refs[x];
      assert refs[b] == 1 ==> b !in p.freeList;
    }
  }

  lemma WithContentsConserves(p: Pool, refs: multiset<BlockId>, b: BlockId, n: nat, h: Option<Hash>)
    requires Conserves(p, refs)
    ensures WithContents(p, b, n, h).Some? ==> Conserves(WithContents(p, b, n, h).value, refs)
  {
  }

  lemma EvictOldestConserves(p: Pool, refs: multiset<BlockId>)
    requires Conserves(p, refs)
    ensures p.WellFormed()
    ensures EvictOldest(p).Some? ==>
              var e := EvictOldest(p).value;
              e.block < |p.blocks| && e.block !in refs && Conserves(e.pool, refs)
  {
    ConservesIsWellFormed(p, refs);
    if EvictOldest(p).Some? {
      assert p.freeList[OldestCached(p, 0)] in p.freeList;
    }
  }

  // ----- Release order -----

  /** A pool with the time each block was last released, counted in releases. */
  datatype Timed = Timed(pool: Pool, releasedAt: seq<nat>, clock: nat)

  datatype PoolOp =
    | OpTake
    | OpAddRef(block: BlockId)
    | OpRelease(block: BlockId)
    | OpSetContents(block: BlockId, numTokens: nat, hash: Option<Hash>)
    | OpEvict

  function TimedNew(numBlocks: nat, blockSize: nat): Timed {
    Timed(NewPool(numBlocks, blockSize), seq(numBlocks, i => i), numBlocks)
  }

  ghost function TimedStep(t: Timed, op: PoolOp): Timed
    requires InReleaseOrder(t)
  {
    match op
    case OpTake =>
      (match Take(t.pool) case None => t case Some(x) => t.(pool := x.pool))
    case OpAddRef(b) =>
      (match Referenced(t.pool, b) case None => t case Some(q) => t.(pool := q))
    case OpRelease(b) =>
      (match Released(t.pool, b)
       case None => t
       case Some(q) =>
         if q.blocks[b].refCount == 0 && b < |t.releasedAt|
         then Timed(q, t.releasedAt[b := t.clock], t.clock + 1)
         else t.(pool := q))
    case OpSetContents(b, n, h) =>
      (match WithContents(t.pool, b, n, h) case None => t case Some(q) => t.(pool := q))
    case OpEvict =>
      (match EvictOldest(t.pool) case None => t case Some(e) => t.(pool := e.pool))
  }

  /** The listed blocks were released one after the other, all before `clock`. */
  ghost predicate Ordered(list: seq<BlockId>, releasedAt: seq<nat>, clock: nat) {
    && (forall i :: 0 <= i < |list| ==> list[i] < |releasedAt|)
    && (forall i :: 0 <= i < |list| ==> releasedAt[list[i]] < clock)
    && (forall i, j :: 0 <= i < j < |list| ==> releasedAt[list[i]] < releasedAt[list[j]])
  }

  /** The free list holds unreferenced blocks only, and runs in order of release. */
  ghost predicate InReleaseOrder(t: Timed) {
    && t.pool.blockSize > 0
    && |t.releasedAt| == |t.pool.blocks|
    && Ordered(t.pool.freeList, t.releasedAt, t.clock)
    && forall i :: 0 <= i < |t.pool.freeList| ==> t.pool.blocks[t.pool.freeList[i]].refCount == 0
  }

  lemma OrderedHasNoDuplicates(list: seq<BlockId>, releasedAt: seq<nat>, clock: nat)
    requires Ordered(list, releasedAt, clock)
    ensures NoDuplicates(list)
  {
    forall i, j | 0 <= i < j < |list| ensures list[i] != list[j] {
      assert releasedAt[list[i]] < releasedAt[list[j]];
    }
  }

  lemma OrderedRemove(list: seq<BlockId>, releasedAt: seq<nat>, clock: nat, b: BlockId)
    requires Ordered(list, releasedAt, clock)
    ensures Ordered(Remove(list, b), releasedAt, clock)
    ensures b !in Remove(list, b)
    ensures forall i :: 0 <= i < |Remove(list, b)| ==> Remove(list, b)[i] in list
  {
    OrderedHasNoDuplicates(list, releasedAt, clock);
    RemoveKeepsOthers(list, b);
    var pos := FirstIndex(list, b);
    if pos < |list| {
      forall i | 0 <= i < |list| - 1
        ensures Remove(list, b)[i] == list[if i < pos then i else i + 1]
      {
      }
    }
  }

  lemma OrderedPush(list: seq<BlockId>, releasedAt: seq<nat>, clock: nat, b: BlockId)
    requires Ordered(list, releasedAt, clock) && b < |releasedAt| && b !in list
    ensures Ordered(list + [b], releasedAt[b := clock], clock + 1)
  {
    var at := releasedAt[b := clock];
    forall i | 0 <= i < |list| ensures at[list[i]] == releasedAt[list[i]] {
      assert list[i] in list;
    }
  }

  lemma TimedStepKeepsOrder(t: Timed, op: PoolOp)
    requires InReleaseOrder(t)
    ensures InReleaseOrder(TimedStep(t, op))
  {
    match op
    case OpTake => TakeKeepsOrder(t);
    case OpAddRef(b) => AddRefKeepsOrder(t, b);
    case OpRelease(b) => ReleaseKeepsOrder(t, b);
    case OpSetContents(b, n, h) =>
    case OpEvict =>
  }

  lemma TakeKeepsOrder(t: Timed)
    requires InReleaseOrder(t)
    ensures InReleaseOrder(TimedStep(t, OpTake))
  {
    var list := t.pool.freeList;
    OrderedHasNoDuplicates(list, t.releasedAt, t.clock);
    if list != [] {
      assert forall i :: 0 <= i < |list[1..]| ==> list[1..][i] == list[i + 1] != list[0];
    }
  }

  lemma AddRefKeepsOrder(t: Timed, b: BlockId)
    requires InReleaseOrder(t)
    ensures InReleaseOrder(TimedStep(t, OpAddRef(b)))
  {
    var list := t.pool.freeList;
    OrderedRemove(list, t.releasedAt, t.clock, b);
    if t.pool.Has(b) {
      var after := TimedStep(t, OpAddRef(b)).pool;
      forall i | 0 <= i < |after.freeList| ensures after.blocks[after.freeList[i]].refCount == 0 {
        assert after.freeList[i] in list;
        assert after.freeList[i] != b;
      }
    }
  }

  lemma ReleaseKeepsOrder(t: Timed, b: BlockId)
    requires InReleaseOrder(t)
    ensures InReleaseOrder(TimedStep(t, OpRelease(b)))
  {
    if t.pool.Has(b) && t.pool.blocks[b].refCount > 0 {
      assert b !in t.pool.freeList;
      OrderedPush(t.pool.freeList, t.releasedAt, t.clock, b);
    }
  }

  ghost function TimedRun(t: Timed, ops: seq<PoolOp>): (r: Timed)
    requires InReleaseOrder(t)
    ensures InReleaseOrder(r)
    decreases |ops|
  {
    if ops == [] then t
    else
      TimedStepKeepsOrder(t, ops[0]);
      TimedRun(TimedStep(t, ops[0]), ops[1..])
  }

  /** Over any run, the block recycled next is the one released longest ago. */
  lemma FreeListIsLeastRecentlyReleased(numBlocks: nat, blockSize: nat, ops: seq<PoolOp>)
    requires blockSize > 0
    ensures InReleaseOrder(TimedNew(numBlocks, blockSize))
    ensures var t := TimedRun(TimedNew(numBlocks, blockSize), ops);
            && t.pool.WellFormed()
            && NoDuplicates(t.pool.freeList)
            && (Take(t.pool).Some? ==>
                  forall i :: 0 < i < |t.pool.freeList| ==>
                    t.releasedAt[Take(t.pool).value.block] < t.releasedAt[t.pool.freeList[i]])
  {
    TimedNewInOrder(numBlocks, blockSize);
    var t := TimedRun(TimedNew(numBlocks, blockSize), ops);
    OrderedHasNoDuplicates(t.pool.freeList, t.releasedAt, t.clock);
  }

  lemma TimedNewInOrder(numBlocks: nat, blockSize: nat)
    requires blockSize > 0
    ensures InReleaseOrder(TimedNew(numBlocks, blockSize))
  {
  }
}
