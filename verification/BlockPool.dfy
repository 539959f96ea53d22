// Reference-counted cache blocks, and the list of those nobody holds.
module BlockPools {
  import opened Prelude
  import opened Hashing

  datatype Block = Block(refCount: nat, numTokens: nat, hash: Option<Hash>)

  const EMPTY_BLOCK := Block(0, 0, None)

  /** The state of a pool: block `b` is `blocks[b]`; `freeList` runs oldest first. */
  datatype Pool = Pool(blocks: seq<Block>, freeList: seq<BlockId>, blockSize: nat) {

    ghost predicate WellFormed() {
      && blockSize > 0
      && forall i :: 0 <= i < |freeList| ==> freeList[i] < |blocks|
    }

    predicate Has(b: BlockId) {
      b < |blocks|
    }
  }

  /** A block handed out by the pool, with the digest its old contents had. */
  datatype Taken = Taken(pool: Pool, block: BlockId, evicted: Option<Hash>)

  /** Position of the first `x` in `s`, or |s|. */
  function FirstIndex(s: seq<BlockId>, x: BlockId): (pos: nat)
    ensures pos <= |s|
    ensures pos < |s| ==> s[pos] == x
    ensures forall i :: 0 <= i < pos ==> s[i] != x
  {
    if s == [] || s[0] == x then 0 else 1 + FirstIndex(s[1..], x)
  }

  function Remove(s: seq<BlockId>, x: BlockId): seq<BlockId> {
    var pos := FirstIndex(s, x);
    if pos < |s| then s[..pos] + s[pos + 1..] else s
  }

  function NewPool(numBlocks: nat, blockSize: nat): Pool {
    Pool(seq(numBlocks, i => EMPTY_BLOCK), seq(numBlocks, i => i), blockSize)
  }

  /** Hands out the oldest free block, emptied and referenced once. */
  function Take(p: Pool): (r: Option<Taken>)
    requires p.WellFormed()
  {
    if p.freeList == [] then None
    else
      var b := p.freeList[0];
      Some(Taken(p.(blocks := p.blocks[b := Block(1, 0, None)], freeList := p.freeList[1..]),
                 b, p.blocks[b].hash))
  }

  /** One more reference to `b`; a free block leaves the free list with its contents intact. */
  function Referenced(p: Pool, b: BlockId): Option<Pool> {
    if !p.Has(b) then None
    else
      var was := p.blocks[b];
      Some(p.(blocks := p.blocks[b := was.(refCount := was.refCount + 1)],
              freeList := if was.refCount == 0 then Remove(p.freeList, b) else p.freeList))
  }

  /** One reference to `b` fewer; the last one sends it to the back of the free list. */
  function Released(p: Pool, b: BlockId): Option<Pool> {
    if !p.Has(b) || p.blocks[b].refCount == 0 then None
    else
      var was := p.blocks[b];
      Some(p.(blocks := p.blocks[b := was.(refCount := was.refCount - 1)],
              freeList := if was.refCount == 1 then p.freeList + [b] else p.freeList))
  }

  function WithContents(p: Pool, b: BlockId, numTokens: nat, hash: Option<Hash>): Option<Pool> {
    if numTokens > p.blockSize || !p.Has(b) then None
    else Some(p.(blocks := p.blocks[b := p.blocks[b].(numTokens := numTokens, hash := hash)]))
  }

  /** Position of the oldest free block still holding contents, or |freeList|. */
  function OldestCached(p: Pool, from: nat): (pos: nat)
    requires p.WellFormed() && from <= |p.freeList|
    ensures from <= pos <= |p.freeList|
    ensures pos < |p.freeList| ==> p.blocks[p.freeList[pos]].hash.Some?
    ensures forall i :: from <= i < pos ==> p.blocks[p.freeList[i]].hash.None?
    decreases |p.freeList| - from
  {
    if from == |p.freeList| || p.blocks[p.freeList[from]].hash.Some? then from
    else OldestCached(p, from + 1)
  }

  datatype Evicted = Evicted(pool: Pool, block: BlockId, hash: Hash)

  /** Strips the longest-free block that is still published of its digest. */
  function EvictOldest(p: Pool): Option<Evicted>
    requires p.WellFormed()
  {
    var pos := OldestCached(p, 0);
    if pos == |p.freeList| then None
    else
      var b := p.freeList[pos];
      Some(Evicted(p.(blocks := p.blocks[b := p.blocks[b].(hash := None, numTokens := 0)]),
                   b, p.blocks[b].hash.value))
  }

  /** The free blocks still holding contents. */
  function Evictable(p: Pool, upTo: nat): nat
    requires p.WellFormed() && upTo <= |p.freeList|
  {
    if upTo == 0 then 0
    else Evictable(p, upTo - 1) + if p.blocks[p.freeList[upTo - 1]].hash.Some? then 1 else 0
  }

  class BlockPool {
    var blocks: seq<Block>
    var freeList: seq<BlockId>
    const blockSize: nat

    ghost predicate Valid()
      reads this
    {
      State().WellFormed()
    }

    function State(): Pool
      reads this
    {
      Pool(blocks, freeList, blockSize)
    }

    constructor (numBlocks: nat, blockSize: nat)
      requires blockSize > 0
      ensures Valid() && State() == NewPool(numBlocks, blockSize)
    {
      this.blocks := seq(numBlocks, i => EMPTY_BLOCK);
      this.freeList := seq(numBlocks, i => i);
      this.blockSize := blockSize;
    }

    method Allocate() returns (r: Result<(BlockId, Option<Hash>)>)
      requires Valid()
      modifies this
      ensures Valid()
      ensures match Take(old(State()))
              case None => r == Err(CacheExhausted(1, 0)) && State() == old(State())
              case Some(t) => r == Ok((t.block, t.evicted)) && State() == t.pool
    {
      if |freeList| == 0 {
        return Err(CacheExhausted(1, 0));
      }
      var id := freeList[0];
      freeList := freeList[1..];
      var evicted := blocks[id].hash;
      blocks := blocks[id := EMPTY_BLOCK];
      blocks := blocks[id := blocks[id].(refCount := 1)];
      r := Ok((id, evicted));
    }

    method PositionInFreeList(id: BlockId) returns (pos: nat)
      ensures pos == FirstIndex(freeList, id)
    {
      pos := 0;
      while pos < |freeList| && freeList[pos] != id
        invariant pos <= |freeList|
        invariant FirstIndex(freeList, id) == pos + FirstIndex(freeList[pos..], id)
      {
        assert freeList[pos..][1..] == freeList[pos + 1..];
        pos := pos + 1;
      }
    }

    method AddRef(id: BlockId) returns (ok: bool)
      requires Valid()
      modifies this
      ensures Valid()
      ensures match Referenced(old(State()), id)
              case None => !ok && State() == old(State())
              case Some(p) => ok && State() == p
    {
      hide FirstIndex;
      if id >= |blocks| {
        return false;
      }
      if blocks[id].refCount == 0 {
        var pos := PositionInFreeList(id);
        if pos < |freeList| {
          freeList := freeList[..pos] + freeList[pos + 1..];
        }
      }
      blocks := blocks[id := blocks[id].(refCount := blocks[id].refCount + 1)];
      ok := true;
    }

    /** Err on an unknown block or a double release; otherwise whether the block became free. */
    method Release(id: BlockId) returns (r: Result<bool>)
      requires Valid()
      modifies this
      ensures Valid()
      ensures match Released(old(State()), id)
              case None => r == Err(Internal) && State() == old(State())
              case Some(p) => r == Ok(p.blocks[id].refCount == 0) && State() == p
    {
      if id >= |blocks| || blocks[id].refCount == 0 {
        return Err(Internal);
      }
      blocks := blocks[id := blocks[id].(refCount := blocks[id].refCount - 1)];
      if blocks[id].refCount == 0 {
        freeList := freeList + [id];
        r := Ok(true);
      } else {
        r := Ok(false);
      }
    }

    method SetContents(id: BlockId, numTokens: nat, hash: Option<Hash>) returns (ok: bool)
      requires Valid()
      modifies this
      ensures Valid()
      ensures match WithContents(old(State()), id, numTokens, hash)
              case None => !ok && State() == old(State())
              case Some(p) => ok && State() == p
    {
      if numTokens > blockSize || id >= |blocks| {
        return false;
      }
      blocks := blocks[id := blocks[id].(numTokens := numTokens, hash := hash)];
      ok := true;
    }

    method EvictOldestCached() returns (r: Option<(BlockId, Hash)>)
      requires Valid()
      modifies this
      ensures Valid()
      ensures match EvictOldest(old(State()))
              case None => r == None && State() == old(State())
              case Some(e) => r == Some((e.block, e.hash)) && State() == e.pool
    {
      var pos := 0;
      while pos < |freeList| && blocks[freeList[pos]].hash.None?
        invariant pos <= |freeList|
        invariant OldestCached(State(), 0) == OldestCached(State(), pos)
      {
        pos := pos + 1;
      }
      if pos == |freeList| {
        return None;
      }
      var id := freeList[pos];
      var hash := blocks[id].hash.value;
      blocks := blocks[id := blocks[id].(hash := None, numTokens := 0)];
      r := Some((id, hash));
    }

    method NumEvictable() returns (n: nat)
      requires Valid()
      ensures n == Evictable(State(), |freeList|)
    {
      n := 0;
      for i := 0 to |freeList|
        invariant n == Evictable(State(), i)
      {
        if blocks[freeList[i]].hash.Some? {
          n := n + 1;
        }
      }
    }
  }
}
