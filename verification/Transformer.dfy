// The forward pass of a decoder-only transformer over a ragged batch, as functions.
module Transformer {
  import opened Prelude
  import opened Tensors
  import opened KvStores
  import opened Attention

  datatype LayerWeights = LayerWeights(
    inputNorm: Row,
    qProj: Weight, kProj: Weight, vProj: Weight, oProj: Weight,
    qBias: Option<Row>, kBias: Option<Row>, vBias: Option<Row>,
    postAttnNorm: Row,
    gateProj: Weight, upProj: Weight, downProj: Weight)

  /** Weights, the rotary tables by position, and the arithmetic; `head` is the embedding when tied. */
  datatype Model = Model(
    a: Arith,
    heads: nat,
    embed: Weight,
    layers: seq<LayerWeights>,
    finalNorm: Row,
    head: Weight,
    cos: seq<Row>,
    sin: seq<Row>)
  {
    function Width(): nat {
      embed.cols
    }
  }

  predicate Shape(w: Weight, rows: nat, cols: nat) {
    |w.rows| == rows && w.cols == cols && forall i :: 0 <= i < rows ==> |w.rows[i]| == cols
  }

  predicate BiasFits(bias: Option<Row>, w: Weight) {
    bias.Some? ==> |bias.value| == |w.rows|
  }

  /** The shapes the loader checks, for an arena with dimensions `d`. */
  predicate LayerShaped(m: Model, d: Dims, w: LayerWeights) {
    var (width, q, kv) := (m.Width(), m.heads * d.headDim, d.kvHeads * d.headDim);
    && |w.inputNorm| == |w.postAttnNorm| == width
    && Shape(w.qProj, q, width) && Shape(w.kProj, kv, width) && Shape(w.vProj, kv, width) && Shape(w.oProj, width, q)
    && BiasFits(w.qBias, w.qProj) && BiasFits(w.kBias, w.kProj) && BiasFits(w.vBias, w.vProj)
    && Shape(w.gateProj, |w.gateProj.rows|, width) && Shape(w.upProj, |w.gateProj.rows|, width)
    && Shape(w.downProj, width, |w.gateProj.rows|)
  }

  predicate WellShaped(m: Model, d: Dims) {
    && d.layers == |m.layers| > 0 && d.blockSize > 0
    && m.heads > 0 && d.kvHeads > 0 && m.heads % d.kvHeads == 0
    && Shape(m.embed, |m.embed.rows|, m.Width()) && Shape(m.head, |m.head.rows|, m.Width())
    && |m.finalNorm| == m.Width()
    && |m.cos| == |m.sin|
    && (forall p :: 0 <= p < |m.cos| ==> |m.cos[p]| == |m.sin[p]| == d.headDim / 2)
    && (forall l :: 0 <= l < d.layers ==> LayerShaped(m, d, m.layers[l]))
  }

  // ----- One row through one layer -----

  function Normed(m: Model, d: Dims, l: nat, hidden: Row): (r: Row)
    requires WellShaped(m, d) && l < d.layers && |hidden| == m.Width()
    ensures |r| == m.Width()
  {
    assert LayerShaped(m, d, m.layers[l]);
    RmsNormRow(m.a, hidden, m.layers[l].inputNorm)
  }

  function QueryRow(m: Model, d: Dims, l: nat, hidden: Row, position: nat): (q: Row)
    requires WellShaped(m, d) && l < d.layers && |hidden| == m.Width() && position < |m.cos|
    ensures |q| == m.heads * d.headDim
  {
    assert LayerShaped(m, d, m.layers[l]);
    var w := m.layers[l];
    RopeHeads(m.a, LinearRow(m.a, Normed(m, d, l, hidden), w.qProj, w.qBias), d.headDim, m.heads, m.cos[position], m.sin[position])
  }

  function KeyRow(m: Model, d: Dims, l: nat, hidden: Row, position: nat): (k: Row)
    requires WellShaped(m, d) && l < d.layers && |hidden| == m.Width() && position < |m.cos|
    ensures |k| == d.kvHeads * d.headDim
  {
    assert LayerShaped(m, d, m.layers[l]);
    var w := m.layers[l];
    RopeHeads(m.a, LinearRow(m.a, Normed(m, d, l, hidden), w.kProj, w.kBias), d.headDim, d.kvHeads, m.cos[position], m.sin[position])
  }

  function ValueRow(m: Model, d: Dims, l: nat, hidden: Row): (v: Row)
    requires WellShaped(m, d) && l < d.layers && |hidden| == m.Width()
    ensures |v| == d.kvHeads * d.headDim
  {
    assert LayerShaped(m, d, m.layers[l]);
    LinearRow(m.a, Normed(m, d, l, hidden), m.layers[l].vProj, m.layers[l].vBias)
  }

  /** What the layer makes of a row once its attention output is known. */
  function NextRow(m: Model, d: Dims, l: nat, hidden: Row, attended: Row): (r: Row)
    requires WellShaped(m, d) && l < d.layers && |hidden| == m.Width() && |attended| == m.heads * d.headDim
    ensures |r| == m.Width()
  {
    assert LayerShaped(m, d, m.layers[l]);
    var w := m.layers[l];
    var x := SumRow(m.a, hidden, LinearRow(m.a, attended, w.oProj, None));
    var n := RmsNormRow(m.a, x, w.postAttnNorm);
    var gated := SwiGluRow(m.a, LinearRow(m.a, n, w.gateProj, None), LinearRow(m.a, n, w.upProj, None));
    SumRow(m.a, x, LinearRow(m.a, gated, w.downProj, None))
  }

  function LogitsRow(m: Model, d: Dims, hidden: Row): Row
    requires WellShaped(m, d) && |hidden| == m.Width()
  {
    LinearRow(m.a, RmsNormRow(m.a, hidden, m.finalNorm), m.head, None)
  }

  // ----- A batch of rows -----

  /** One token of the batch, its position, and the block table of its sequence. */
  datatype Item = Item(token: TokenId, position: nat, table: seq<BlockId>)

  predicate Reaches(d: Dims, table: seq<BlockId>, p: nat)
    requires d.blockSize > 0
  {
    Locate(table, p, d.blockSize).Some? && Locate(table, p, d.blockSize).value.0 < d.blocks
  }

  predicate ItemReady(m: Model, d: Dims, item: Item)
    requires d.blockSize > 0
  {
    && item.token < |m.embed.rows|
    && item.position < |m.cos|
    && forall p: nat :: p <= item.position ==> Reaches(d, item.table, p)
  }

  predicate BatchReady(m: Model, d: Dims, items: seq<Item>)
    requires d.blockSize > 0
  {
    forall r :: 0 <= r < |items| ==> ItemReady(m, d, items[r])
  }

  function HeadWrites(d: Dims, layer: nat, block: BlockId, slot: nat, key: Row, value: Row, n: nat): seq<Write>
    requires n <= d.kvHeads && |key| == |value| == d.kvHeads * d.headDim
  {
    if n == 0 then []
    else
      HeadWrites(d, layer, block, slot, key, value, n - 1)
      + [Write(Key(layer, block, slot, n - 1, false), HeadSlice(key, n - 1, d.kvHeads, d.headDim)),
         Write(Key(layer, block, slot, n - 1, true), HeadSlice(value, n - 1, d.kvHeads, d.headDim))]
  }

  predicate RowsOf(m: Model, rows: seq<Row>, n: nat) {
    |rows| == n && forall r :: 0 <= r < n ==> |rows[r]| == m.Width()
  }

  /** The cache writes of the first n rows at a layer. */
  function LayerWrites(m: Model, d: Dims, l: nat, rows: seq<Row>, items: seq<Item>, n: nat): seq<Write>
    requires WellShaped(m, d) && l < d.layers && n <= |items| && RowsOf(m, rows, |items|) && BatchReady(m, d, items)
  {
    if n == 0 then []
    else
      var item := items[n - 1];
      assert ItemReady(m, d, item) && Reaches(d, item.table, item.position);
      var (block, slot) := Locate(item.table, item.position, d.blockSize).value;
      LayerWrites(m, d, l, rows, items, n - 1)
      + HeadWrites(d, l, block, slot, KeyRow(m, d, l, rows[n - 1], item.position), ValueRow(m, d, l, rows[n - 1]), d.kvHeads)
  }

  lemma ReadyIsMapped(m: Model, d: Dims, l: nat, item: Item)
    requires d.blockSize > 0 && l < d.layers && ItemReady(m, d, item)
    ensures AllMapped(d, item.table, item.position + 1, l)
  {
    forall p: nat | p < item.position + 1 ensures Mapped(d, item.table, p, l) {
      assert Reaches(d, item.table, p);
    }
  }

  function AttendedRow(m: Model, d: Dims, l: nat, arena: seq<Float>, hidden: Row, item: Item): (o: Row)
    requires WellShaped(m, d) && l < d.layers && |hidden| == m.Width() && IsArena(d, arena) && ItemReady(m, d, item)
    ensures |o| == m.heads * d.headDim
  {
    ReadyIsMapped(m, d, l, item);
    var len := item.position + 1;
    AttendHeads(m.a, QueryRow(m, d, l, hidden, item.position), m.heads, m.heads, d.headDim,
                Gathered(d, arena, item.table, len, l, false), Gathered(d, arena, item.table, len, l, true), len)
  }

  /** Hidden rows and arena between layers. */
  datatype Stage = Stage(rows: seq<Row>, arena: seq<Float>)

  predicate StageOk(m: Model, d: Dims, items: seq<Item>, s: Stage) {
    RowsOf(m, s.rows, |items|) && IsArena(d, s.arena)
  }

  /** All rows write their keys and values, and only then does any row attend. */
  function LayerStage(m: Model, d: Dims, l: nat, items: seq<Item>, s: Stage): (t: Stage)
    requires WellShaped(m, d) && l < d.layers && BatchReady(m, d, items) && StageOk(m, d, items, s)
    ensures StageOk(m, d, items, t)
  {
    var arena := StoredAll(d, s.arena, LayerWrites(m, d, l, s.rows, items, |items|));
    Stage(seq(|items|, r requires 0 <= r < |items| =>
                NextRow(m, d, l, s.rows[r], AttendedRow(m, d, l, arena, s.rows[r], items[r]))), arena)
  }

  function Embedded(m: Model, d: Dims, items: seq<Item>): (rows: seq<Row>)
    requires WellShaped(m, d) && BatchReady(m, d, items)
    ensures RowsOf(m, rows, |items|)
  {
    seq(|items|, r requires 0 <= r < |items| => assert ItemReady(m, d, items[r]); m.embed.rows[items[r].token])
  }

  /** The batch after its first l layers. */
  function StageAt(m: Model, d: Dims, items: seq<Item>, arena: seq<Float>, l: nat): (s: Stage)
    requires WellShaped(m, d) && l <= d.layers && BatchReady(m, d, items) && IsArena(d, arena)
    ensures StageOk(m, d, items, s)
  {
    if l == 0 then Stage(Embedded(m, d, items), arena)
    else LayerStage(m, d, l - 1, items, StageAt(m, d, items, arena, l - 1))
  }

  // ----- The batch as the engine lays it out -----

  datatype Batch = Batch(tokens: seq<TokenId>, positions: seq<nat>, ids: seq<SequenceId>, counts: seq<nat>,
                         contextLens: seq<nat>, tables: seq<seq<BlockId>>)

  function Total(counts: seq<nat>): nat {
    if counts == [] then 0 else Total(counts[..|counts| - 1]) + counts[|counts| - 1]
  }

  /** For each row, the sequence that contributed it. */
  function Owners(counts: seq<nat>): (o: seq<nat>)
    ensures |o| == Total(counts)
    ensures forall r :: 0 <= r < |o| ==> o[r] < |counts|
  {
    if counts == [] then []
    else Owners(counts[..|counts| - 1]) + seq(counts[|counts| - 1], _ => |counts| - 1)
  }

  /** The parallel arrays agree. */
  predicate Aligned(b: Batch) {
    && |b.counts| == |b.ids| && |b.contextLens| == |b.ids| && |b.tables| == |b.ids|
    && |b.positions| == |b.tokens|
    && Total(b.counts) == |b.tokens|
  }

  function Items(b: Batch): (items: seq<Item>)
    requires Aligned(b)
    ensures |items| == |b.tokens|
  {
    var owners := Owners(b.counts);
    seq(|b.tokens|, r requires 0 <= r < |b.tokens| => Item(b.tokens[r], b.positions[r], b.tables[owners[r]]))
  }

  /** The last row of sequence i. */
  function LastRow(counts: seq<nat>, i: nat): int
    requires i < |counts|
  {
    Total(counts[..i + 1]) - 1
  }

  lemma {:induction false} LastRowIsOwned(counts: seq<nat>, i: nat)
    requires i < |counts| && counts[i] > 0
    ensures 0 <= LastRow(counts, i) < Total(counts)
    ensures Owners(counts)[LastRow(counts, i)] == i
  {
    var n := |counts| - 1;
    if i < n {
      LastRowIsOwned(counts[..n], i);
      assert counts[..n][..i + 1] == counts[..i + 1];
    } else {
      assert counts[..i + 1] == counts;
    }
  }

  /** A non-empty batch runs when every sequence brings a token and every item can be read and placed. */
  predicate Runs(m: Model, d: Dims, b: Batch)
    requires d.blockSize > 0
  {
    Aligned(b) && (b.tokens == [] || (BatchReady(m, d, Items(b)) && forall i :: 0 <= i < |b.counts| ==> b.counts[i] > 0))
  }

  /** One row of logits for each sequence, from its last row. */
  function Logits(m: Model, d: Dims, b: Batch, arena: seq<Float>): (r: seq<Row>)
    requires WellShaped(m, d) && Runs(m, d, b) && IsArena(d, arena)
  {
    if b.tokens == [] then []
    else
      var s := StageAt(m, d, Items(b), arena, d.layers);
      seq(|b.counts|, i requires 0 <= i < |b.counts| =>
        LastRowIsOwned(b.counts, i); LogitsRow(m, d, s.rows[LastRow(b.counts, i)]))
  }

  function ArenaAfter(m: Model, d: Dims, b: Batch, arena: seq<Float>): (r: seq<Float>)
    requires WellShaped(m, d) && Runs(m, d, b) && IsArena(d, arena)
    ensures IsArena(d, r)
  {
    if b.tokens == [] then arena else StageAt(m, d, Items(b), arena, d.layers).arena
  }
}
