// The arena of cached keys and values: one flat array, indexed as
// [layer][block][key or value][slot][head][dim].
module KvStores {
  import opened Prelude
  import opened Arithmetic
  import opened Tensors

  datatype Dims = Dims(layers: nat, blocks: nat, blockSize: nat, kvHeads: nat, headDim: nat)

  /** Which vector: the key or value of one head at one slot of a block, for a layer. */
  datatype Key = Key(layer: nat, block: BlockId, slot: nat, head: nat, isValue: bool)

  predicate InRange(d: Dims, k: Key) {
    k.layer < d.layers && k.block < d.blocks && k.slot < d.blockSize && k.head < d.kvHeads
  }

  function ArenaLength(d: Dims): nat {
    d.layers * d.blocks * 2 * d.blockSize * d.kvHeads * d.headDim
  }

  function BlockStride(d: Dims): nat {
    d.blockSize * d.kvHeads * d.headDim
  }

  function RegionOffset(d: Dims, layer: nat, block: BlockId, isValue: bool): nat {
    var perBlock := 2 * BlockStride(d);
    var perLayer := d.blocks * perBlock;
    layer * perLayer + block * perBlock + (if isValue then 1 else 0) * BlockStride(d)
  }

  function SlotOffset(d: Dims, k: Key): nat {
    RegionOffset(d, k.layer, k.block, k.isValue) + (k.slot * d.kvHeads + k.head) * d.headDim
  }

  // ----- Mixed radix -----

  lemma DigitBelow(high: nat, digit: nat, radix: nat, bound: nat)
    requires high < bound && digit < radix
    ensures high * radix + digit < bound * radix
  {
    RowFits(high, bound, radix);
  }

  lemma DigitsDiffer(high: nat, digit: nat, high': nat, digit': nat, radix: nat)
    requires digit < radix && digit' < radix
    ensures high * radix + digit == high' * radix + digit' ==> high == high' && digit == digit'
  {
    RowsApart(high, high', radix);
  }

  /** The rank of a vector in the arena: its coordinates as digits, the head last. */
  ghost function Rank(d: Dims, k: Key): nat {
    SlotRank(d, k) * d.kvHeads + k.head
  }

  /** The digits above the head, then above the slot, then above the key-or-value bit. */
  ghost function SlotRank(d: Dims, k: Key): nat {
    RegionRank(d, k) * d.blockSize + k.slot
  }

  ghost function RegionRank(d: Dims, k: Key): nat {
    BlockRank(d, k) * 2 + if k.isValue then 1 else 0
  }

  ghost function BlockRank(d: Dims, k: Key): nat {
    k.layer * d.blocks + k.block
  }

  lemma HeadDigit(d: Dims, k: Key, l: Key)
    requires InRange(d, k) && InRange(d, l) && Rank(d, k) == Rank(d, l)
    ensures SlotRank(d, k) == SlotRank(d, l) && k.head == l.head
  {
    hide SlotRank;
    DigitsDiffer(SlotRank(d, k), k.head, SlotRank(d, l), l.head, d.kvHeads);
  }

  lemma SlotDigit(d: Dims, k: Key, l: Key)
    requires InRange(d, k) && InRange(d, l) && SlotRank(d, k) == SlotRank(d, l)
    ensures RegionRank(d, k) == RegionRank(d, l) && k.slot == l.slot
  {
    hide RegionRank;
    DigitsDiffer(RegionRank(d, k), k.slot, RegionRank(d, l), l.slot, d.blockSize);
  }

  lemma RegionDigit(d: Dims, k: Key, l: Key)
    requires RegionRank(d, k) == RegionRank(d, l)
    ensures BlockRank(d, k) == BlockRank(d, l) && k.isValue == l.isValue
  {
    hide BlockRank;
  }

  lemma BlockDigit(d: Dims, k: Key, l: Key)
    requires InRange(d, k) && InRange(d, l) && BlockRank(d, k) == BlockRank(d, l)
    ensures k.layer == l.layer && k.block == l.block
  {
    DigitsDiffer(k.layer, k.block, l.layer, l.block, d.blocks);
  }

  /** Equal ranks mean equal coordinates. */
  lemma RankIsInjective(d: Dims, k: Key, l: Key)
    requires InRange(d, k) && InRange(d, l)
    ensures Rank(d, k) == Rank(d, l) ==> k == l
  {
    hide Rank, SlotRank, RegionRank, BlockRank;
    if Rank(d, k) == Rank(d, l) {
      HeadDigit(d, k, l);
      SlotDigit(d, k, l);
      RegionDigit(d, k, l);
      BlockDigit(d, k, l);
    }
  }

  lemma RankBelow(d: Dims, k: Key)
    requires InRange(d, k)
    ensures Rank(d, k) < d.layers * d.blocks * 2 * d.blockSize * d.kvHeads
  {
    var v := if k.isValue then 1 else 0;
    var a := k.layer * d.blocks + k.block;
    DigitBelow(k.layer, k.block, d.blocks, d.layers);
    DigitBelow(a, v, 2, d.layers * d.blocks);
    DigitBelow(a * 2 + v, k.slot, d.blockSize, d.layers * d.blocks * 2);
    DigitBelow((a * 2 + v) * d.blockSize + k.slot, k.head, d.kvHeads, d.layers * d.blocks * 2 * d.blockSize);
  }

  lemma Distribute(a: nat, b: nat, c: nat)
    ensures (a + b) * c == a * c + b * c
  {
  }

  lemma Associate(a: nat, b: nat, c: nat)
    ensures (a * b) * c == a * (b * c)
  {
  }

  /** The layer, block and key-or-value digits, each region being `s` wide. */
  lemma RegionDigits(layer: nat, blocks: nat, block: nat, v: nat, s: nat)
    ensures layer * (blocks * (2 * s)) + block * (2 * s) + v * s == ((layer * blocks + block) * 2 + v) * s
  {
    var a := layer * blocks + block;
    Associate(layer, blocks, 2 * s);
    Distribute(layer * blocks, block, 2 * s);
    Associate(a, 2, s);
    Distribute(a * 2, v, s);
  }

  /** The slot and head digits, each vector being `w` wide. */
  lemma SlotDigits(region: nat, size: nat, slot: nat, heads: nat, head: nat, w: nat)
    ensures region * (size * heads * w) + (slot * heads + head) * w == ((region * size + slot) * heads + head) * w
  {
    var t := slot * heads + head;
    Associate(region, size * heads, w);
    Associate(region, size, heads);
    Distribute(region * size * heads, t, w);
    Distribute(region * size, slot, heads);
    assert (region * size + slot) * heads + head == region * size * heads + t;
  }

  /** The offset computed region by region is the rank times the vector length. */
  lemma OffsetIsRank(d: Dims, k: Key)
    ensures SlotOffset(d, k) == Rank(d, k) * d.headDim
  {
    RegionDigits(k.layer, d.blocks, k.block, if k.isValue then 1 else 0, BlockStride(d));
    assert RegionOffset(d, k.layer, k.block, k.isValue) == RegionRank(d, k) * BlockStride(d);
    hide RegionOffset, RegionRank;
    SlotDigits(RegionRank(d, k), d.blockSize, k.slot, d.kvHeads, k.head, d.headDim);
  }

  /** Every vector lies inside the arena. */
  lemma VectorFits(d: Dims, k: Key)
    requires InRange(d, k)
    ensures SlotOffset(d, k) + d.headDim <= ArenaLength(d)
  {
    OffsetIsRank(d, k);
    RankBelow(d, k);
    RowFits(Rank(d, k), d.layers * d.blocks * 2 * d.blockSize * d.kvHeads, d.headDim);
  }

  /** Different vectors own disjoint ranges of the arena. */
  lemma VectorsAreDisjoint(d: Dims, k: Key, l: Key)
    requires InRange(d, k) && InRange(d, l) && k != l
    ensures SlotOffset(d, k) + d.headDim <= SlotOffset(d, l) || SlotOffset(d, l) + d.headDim <= SlotOffset(d, k)
  {
    OffsetIsRank(d, k);
    OffsetIsRank(d, l);
    RankIsInjective(d, k, l);
    RowsApart(Rank(d, k), Rank(d, l), d.headDim);
  }

  // ----- The arena as a map -----

  predicate IsArena(d: Dims, arena: seq<Float>) {
    |arena| == ArenaLength(d)
  }

  function Load(d: Dims, arena: seq<Float>, k: Key): (v: Row)
    requires IsArena(d, arena) && InRange(d, k)
    ensures |v| == d.headDim
  {
    VectorFits(d, k);
    arena[SlotOffset(d, k)..SlotOffset(d, k) + d.headDim]
  }

  function Stored(d: Dims, arena: seq<Float>, k: Key, v: Row): (r: seq<Float>)
    requires IsArena(d, arena) && InRange(d, k) && |v| == d.headDim
    ensures IsArena(d, r)
  {
    VectorFits(d, k);
    arena[..SlotOffset(d, k)] + v + arena[SlotOffset(d, k) + d.headDim..]
  }

  /** A write changes the vector it names and no other. */
  lemma LoadAfterStore(d: Dims, arena: seq<Float>, k: Key, v: Row, l: Key)
    requires IsArena(d, arena) && InRange(d, k) && InRange(d, l) && |v| == d.headDim
    ensures Load(d, Stored(d, arena, k, v), l) == if l == k then v else Load(d, arena, l)
  {
    hide SlotOffset, ArenaLength;
    VectorFits(d, k);
    VectorFits(d, l);
    if k != l {
      VectorsAreDisjoint(d, k, l);
    }
  }

  datatype Write = Write(key: Key, vector: Row)

  /** A write out of range, or of the wrong length, is refused. */
  predicate Accepted(d: Dims, w: Write) {
    InRange(d, w.key) && |w.vector| == d.headDim
  }

  function StoredAll(d: Dims, arena: seq<Float>, writes: seq<Write>): (r: seq<Float>)
    requires IsArena(d, arena)
    ensures IsArena(d, r)
  {
    if writes == [] then arena
    else
      var before, w := StoredAll(d, arena, writes[..|writes| - 1]), writes[|writes| - 1];
      if Accepted(d, w) then Stored(d, before, w.key, w.vector) else before
  }

  /** The last accepted write to a key. */
  ghost function LastWrite(d: Dims, writes: seq<Write>, k: Key): Option<Row> {
    if writes == [] then None
    else
      var w := writes[|writes| - 1];
      if Accepted(d, w) && w.key == k then Some(w.vector) else LastWrite(d, writes[..|writes| - 1], k)
  }

  /** The arena is a map: after any series of writes a read gives the last vector written there. */
  lemma {:induction false} ReadsLastWrite(d: Dims, arena: seq<Float>, writes: seq<Write>, k: Key)
    requires IsArena(d, arena) && InRange(d, k)
    ensures Load(d, StoredAll(d, arena, writes), k)
            == match LastWrite(d, writes, k) case Some(v) => v case None => Load(d, arena, k)
  {
    hide Load, Stored;
    if writes != [] {
      var front, w := writes[..|writes| - 1], writes[|writes| - 1];
      ReadsLastWrite(d, arena, front, k);
      if Accepted(d, w) {
        LoadAfterStore(d, StoredAll(d, arena, front), w.key, w.vector, k);
      }
    }
  }

  class KvStore {
    const dims: Dims
    const data: array<Float>

    predicate Valid() {
      data.Length == ArenaLength(dims)
    }

    function Arena(): (r: seq<Float>)
      requires Valid()
      reads data
      ensures IsArena(dims, r)
    {
      data[..]
    }

    constructor (dims: Dims, zero: Float)
      ensures Valid() && this.dims == dims && fresh(data)
      ensures forall i :: 0 <= i < data.Length ==> data[i] == zero
    {
      this.dims := dims;
      data := new Float[ArenaLength(dims)](_ => zero);
    }

    /** Writes one vector, or refuses it and changes nothing. */
    method Write(key: Key, vector: Row) returns (ok: bool)
      requires Valid()
      modifies data
      ensures ok <==> InRange(dims, key) && |vector| == dims.headDim
      ensures Arena() == if ok then Stored(dims, old(Arena()), key, vector) else old(Arena())
    {
      hide SlotOffset, ArenaLength;
      if !InRange(dims, key) || |vector| != dims.headDim {
        return false;
      }
      VectorFits(dims, key);
      var off := SlotOffset(dims, key);
      for j := 0 to dims.headDim
        invariant forall k :: 0 <= k < data.Length ==>
                    data[k] == if off <= k < off + j then vector[k - off] else old(data[k])
      {
        data[off + j] := vector[j];
      }
      assert data[..] == Stored(dims, old(data[..]), key, vector);
      ok := true;
    }

    method Read(key: Key) returns (r: Option<Row>)
      requires Valid()
      ensures r == if InRange(dims, key) then Some(Load(dims, Arena(), key)) else None
    {
      if !InRange(dims, key) {
        return None;
      }
      VectorFits(dims, key);
      r := Some(data[SlotOffset(dims, key)..SlotOffset(dims, key) + dims.headDim]);
    }
  }
}
