// The model object: immutable weights, and the arena of cached keys and values it writes.
module TransformerModels {
  import opened Prelude
  import opened Tensors
  import opened KvStores
  import opened Attention
  import opened Transformer

  /** Every row of the matrix, in order. */
  function RowSeq(x: Matrix): (rows: seq<Row>)
    requires x.Valid()
    reads x.data
    ensures |rows| == x.rows
  {
    seq(x.rows, i requires 0 <= i < x.rows && x.Valid() reads x.data => x.Row(i))
  }

  class TransformerModel {
    const m: Model
    const kv: KvStore

    ghost predicate Valid() {
      kv.Valid() && WellShaped(m, kv.dims)
    }

    constructor (m: Model, dims: Dims)
      requires WellShaped(m, dims)
      ensures Valid() && this.m == m && kv.dims == dims && fresh(kv) && fresh(kv.data)
    {
      this.m := m;
      kv := new KvStore(dims, m.a.zero);
    }

    /** Looks up the embedding of each token; a token outside the vocabulary fails. */
    method Embed(tokens: seq<TokenId>) returns (r: Option<Matrix>)
      requires Valid()
      ensures r.Some? <==> forall i :: 0 <= i < |tokens| ==> tokens[i] < |m.embed.rows|
      ensures r.Some? ==>
                var out := r.value;
                && out.Valid() && fresh(out) && fresh(out.data) && out.rows == |tokens| && out.cols == m.Width()
                && forall i :: 0 <= i < |tokens| ==> out.Row(i) == m.embed.rows[tokens[i]]
    {
      hide Matrix.Row, LayerShaped;
      var out := new Matrix.Zeros(|tokens|, m.Width(), m.a.zero);
      for i := 0 to |tokens|
        invariant forall k :: 0 <= k < i ==> tokens[k] < |m.embed.rows| && out.Row(k) == m.embed.rows[tokens[k]]
      {
        if tokens[i] >= |m.embed.rows| {
          return None;
        }
        CopyRow(out, i, m.embed.rows[tokens[i]]);
      }
      r := Some(out);
    }

    method CopyRow(out: Matrix, i: nat, row: Row)
      requires out.Valid() && i < out.rows && |row| == out.cols
      modifies out.data
      ensures out.Row(i) == row
      ensures forall k :: 0 <= k < out.rows && k != i ==> out.Row(k) == old(out.Row(k))
    {
      hide Matrix.Row;
      for j := 0 to |row|
        invariant forall k :: 0 <= k < out.rows && k != i ==> out.Row(k) == old(out.Row(k))
        invariant forall k :: 0 <= k < j ==> out.Row(i)[k] == row[k]
      {
        out.Set(i, j, row[j]);
      }
    }

    /** Rotates the query and key of each row for its position; a position beyond the table fails. */
    method Rotate(q: Matrix, k: Matrix, positions: seq<nat>) returns (ok: bool)
      requires Valid() && q.Valid() && k.Valid() && q.data != k.data && |positions| == q.rows == k.rows
      requires q.cols == m.heads * kv.dims.headDim && k.cols == kv.dims.kvHeads * kv.dims.headDim
      modifies q.data, k.data
      ensures ok <==> forall i :: 0 <= i < |positions| ==> positions[i] < |m.cos|
      ensures ok ==> forall i :: 0 <= i < |positions| ==>
                RotatedRow(old(q.Row(i)), q.Row(i), m.heads, positions[i])
                && RotatedRow(old(k.Row(i)), k.Row(i), kv.dims.kvHeads, positions[i])
    {
      hide Matrix.Row, LayerShaped, RopeHeads;
      for i := 0 to |positions|
        invariant forall j :: 0 <= j < i ==>
                    && RotatedRow(old(q.Row(j)), q.Row(j), m.heads, positions[j])
                    && RotatedRow(old(k.Row(j)), k.Row(j), kv.dims.kvHeads, positions[j])
        invariant forall j :: i <= j < |positions| ==> q.Row(j) == old(q.Row(j)) && k.Row(j) == old(k.Row(j))
      {
        if positions[i] >= |m.cos| {
          return false;
        }
        var cos, sin := m.cos[positions[i]], m.sin[positions[i]];
        var _ := RopeRow(m.a, q, i, m.heads, kv.dims.headDim, cos, sin);
        var _ := RopeRow(m.a, k, i, kv.dims.kvHeads, kv.dims.headDim, cos, sin);
      }
      ok := true;
    }

    ghost predicate RotatedRow(was: Row, now: Row, heads: nat, position: nat)
      requires Valid() && heads * kv.dims.headDim <= |was|
    {
      position < |m.cos| && now == RopeHeads(m.a, was, kv.dims.headDim, heads, m.cos[position], m.sin[position])
    }

    /** Queries, keys and values of the batch, rotated for their positions. */
    method Project(l: nat, hidden: Matrix, positions: seq<nat>) returns (r: Option<(Matrix, Matrix, Matrix)>)
      requires Valid() && l < kv.dims.layers
      requires hidden.Valid() && hidden.cols == m.Width() && |positions| == hidden.rows
      ensures r.Some? <==> forall i :: 0 <= i < |positions| ==> positions[i] < |m.cos|
      ensures r.Some? ==> Projected(l, hidden, positions, r.value.0, r.value.1, r.value.2)
      ensures r.Some? ==> fresh(r.value.0.data) && fresh(r.value.1.data) && fresh(r.value.2.data)
    {
      hide Matrix.Row, LayerShaped, LinearRow, RmsNormRow, RopeHeads, WellShaped;
      ShapesOf(l);
      var w := m.layers[l];
      var normed := new Matrix.Clone(hidden);
      var _ := RmsNorm(m.a, normed, w.inputNorm);
      var q := Linear(m.a, normed, w.qProj, w.qBias);
      var k := Linear(m.a, normed, w.kProj, w.kBias);
      var v := Linear(m.a, normed, w.vProj, w.vBias);
      var ok := Rotate(q.value, k.value, positions);
      if !ok {
        return None;
      }
      r := Some((q.value, k.value, v.value));
    }

    lemma ShapesOf(l: nat)
      requires Valid() && l < kv.dims.layers
      ensures var w, d := m.layers[l], kv.dims;
              && |m.layers| == d.layers
              && |w.inputNorm| == |w.postAttnNorm| == m.Width()
              && w.qProj.Valid() && w.qProj.cols == m.Width() && |w.qProj.rows| == m.heads * d.headDim
              && w.kProj.Valid() && w.kProj.cols == m.Width() && |w.kProj.rows| == d.kvHeads * d.headDim
              && w.vProj.Valid() && w.vProj.cols == m.Width() && |w.vProj.rows| == d.kvHeads * d.headDim
              && w.oProj.Valid() && w.oProj.cols == m.heads * d.headDim && |w.oProj.rows| == m.Width()
              && w.gateProj.Valid() && w.gateProj.cols == m.Width()
              && w.upProj.Valid() && w.upProj.cols == m.Width() && |w.upProj.rows| == |w.gateProj.rows|
              && w.downProj.Valid() && w.downProj.cols == |w.gateProj.rows| && |w.downProj.rows| == m.Width()
              && BiasFits(w.qBias, w.qProj) && BiasFits(w.kBias, w.kProj) && BiasFits(w.vBias, w.vProj)
    {
      assert LayerShaped(m, kv.dims, m.layers[l]);
    }

    ghost predicate Projected(l: nat, hidden: Matrix, positions: seq<nat>, q: Matrix, k: Matrix, v: Matrix)
      requires Valid() && l < kv.dims.layers && hidden.Valid() && hidden.cols == m.Width()
      reads hidden.data, q.data, k.data, v.data
    {
      var d := kv.dims;
      && |positions| == hidden.rows == q.rows == k.rows == v.rows
      && q.Valid() && k.Valid() && v.Valid()
      && q.cols == m.heads * d.headDim && k.cols == v.cols == d.kvHeads * d.headDim
      && forall i :: 0 <= i < hidden.rows ==>
           && positions[i] < |m.cos|
           && q.Row(i) == QueryRow(m, d, l, hidden.Row(i), positions[i])
           && k.Row(i) == KeyRow(m, d, l, hidden.Row(i), positions[i])
           && v.Row(i) == ValueRow(m, d, l, hidden.Row(i))
    }
  
    // ----- Cache writes -----

    method WriteRow(l: nat, block: BlockId, slot: nat, key: Row, value: Row) returns (ok: bool)
      requires Valid() && |key| == |value| == kv.dims.kvHeads * kv.dims.headDim
      modifies kv.data
      ensures l < kv.dims.layers && block < kv.dims.blocks && slot < kv.dims.blockSize ==>
                ok && kv.Arena() == StoredAll(kv.dims, old(kv.Arena()),
                                              HeadWrites(kv.dims, l, block, slot, key, value, kv.dims.kvHeads))
    {
      hide Stored, ArenaLength, WellShaped, HeadSlice;
      var d := kv.dims;
      for h := 0 to d.kvHeads
        invariant l < d.layers && block < d.blocks && slot < d.blockSize ==>
                    kv.Arena() == StoredAll(d, old(kv.Arena()), HeadWrites(d, l, block, slot, key, value, h))
      {
        ghost var before := HeadWrites(d, l, block, slot, key, value, h);
        ghost var own := Write(Key(l, block, slot, h, false), HeadSlice(key, h, d.kvHeads, d.headDim));
        ghost var both := before + [own];
        assert both[..|before|] == before;
        assert HeadWrites(d, l, block, slot, key, value, h + 1)[..|both|] == both;
        ok := kv.Write(Key(l, block, slot, h, false), HeadSlice(key, h, d.kvHeads, d.headDim));
        if !ok {
          return;
        }
        ok := kv.Write(Key(l, block, slot, h, true), HeadSlice(value, h, d.kvHeads, d.headDim));
        if !ok {
          return;
        }
      }
      ok := true;
    }

    ghost predicate Placed(items: seq<Item>, slots: seq<(BlockId, nat)>)
      requires Valid()
    {
      |slots| == |items| && forall r :: 0 <= r < |items| ==>
        Locate(items[r].table, items[r].position, kv.dims.blockSize) == Some(slots[r])
    }

    ghost predicate CacheRows(l: nat, k: Matrix, v: Matrix, rows: seq<Row>, items: seq<Item>)
      requires Valid() && l < kv.dims.layers && k.Valid() && v.Valid() && k.rows == v.rows == |items| && RowsOf(m, rows, |items|)
      reads k.data, v.data
    {
      forall r :: 0 <= r < |items| ==>
        && items[r].position < |m.cos|
        && k.Row(r) == KeyRow(m, kv.dims, l, rows[r], items[r].position)
        && v.Row(r) == ValueRow(m, kv.dims, l, rows[r])
    }

    /** Writes every row's keys and values before anything attends. */
    method WriteRows(l: nat, k: Matrix, v: Matrix, slots: seq<(BlockId, nat)>, ghost rows: seq<Row>, ghost items: seq<Item>)
      returns (ok: bool)
      requires Valid() && l < kv.dims.layers && k.Valid() && v.Valid() && k.data != kv.data && v.data != kv.data
      requires |slots| == k.rows == v.rows && k.cols == v.cols == kv.dims.kvHeads * kv.dims.headDim
      requires Placed(items, slots) && RowsOf(m, rows, |items|)
      requires kv.dims.blockSize > 0 && CacheRows(l, k, v, rows, items)
      modifies kv.data
      ensures BatchReady(m, kv.dims, items) ==>
                ok && kv.Arena() == StoredAll(kv.dims, old(kv.Arena()), LayerWrites(m, kv.dims, l, rows, items, |items|))
    {
      hide Matrix.Row, ArenaLength, Stored, KeyRow, ValueRow, HeadWrites, WellShaped;
      var d := kv.dims;
      for r := 0 to |slots|
        invariant BatchReady(m, d, items) ==>
                    kv.Arena() == StoredAll(d, old(kv.Arena()), LayerWrites(m, d, l, rows, items, r))
      {
        ghost var before := kv.Arena();
        ok := WriteRow(l, slots[r].0, slots[r].1, k.Row(r), v.Row(r));
        if BatchReady(m, d, items) {
          RowReaches(items, slots, r);
          StoredAllConcat(d, old(kv.Arena()), LayerWrites(m, d, l, rows, items, r),
                          HeadWrites(d, l, slots[r].0, slots[r].1, k.Row(r), v.Row(r), d.kvHeads));
        }
        if !ok {
          return;
        }
      }
      ok := true;
    }

    // ----- Attention and feed-forward -----

    /** Everything an item needs of a layer: a rotary entry, and a block for every position up to its own. */
    ghost predicate Reachable(items: seq<Item>)
      requires Valid()
    {
      forall r, p: nat :: 0 <= r < |items| && p <= items[r].position ==> Reaches(kv.dims, items[r].table, p)
    }

    /** Each row attends to the positions its sequence holds so far. */
    method AttendRows(l: nat, q: Matrix, items: seq<Item>) returns (r: Option<Matrix>)
      requires Valid() && l < kv.dims.layers && kv.dims.blockSize > 0
      requires q.Valid() && q.rows == |items| && q.cols == m.heads * kv.dims.headDim
      ensures r.Some? <==> Reachable(items)
      ensures r.Some? ==> r.value.Valid() && r.value.rows == |items| && r.value.cols == q.cols && fresh(r.value.data)
      ensures r.Some? ==> forall i :: 0 <= i < |items| ==>
                AttendedBy(l, q.Row(i), items[i], r.value.Row(i))
    {
      hide Matrix.Row, ArenaLength, PagedRow, Reaches;
      var out := new Matrix.Zeros(|items|, m.heads * kv.dims.headDim, m.a.zero);
      for i := 0 to |items|
        invariant forall j, p: nat :: 0 <= j < i && p <= items[j].position ==> Reaches(kv.dims, items[j].table, p)
        invariant forall j :: 0 <= j < i ==> AttendedBy(l, q.Row(j), items[j], out.Row(j))
      {
        ReachesIsMapped(l, items[i]);
        var ok := PagedAttention(m.a, kv, q.Row(i), m.heads, items[i].table, l, items[i].position, out, i);
        if !ok {
          return None;
        }
      }
      r := Some(out);
    }

    lemma ReachesIsMapped(l: nat, item: Item)
      requires Valid() && l < kv.dims.layers
      ensures AllMapped(kv.dims, item.table, item.position + 1, l)
              <==> forall p: nat :: p <= item.position ==> Reaches(kv.dims, item.table, p)
    {
      if AllMapped(kv.dims, item.table, item.position + 1, l) {
        forall p: nat | p <= item.position ensures Reaches(kv.dims, item.table, p) {
          assert Mapped(kv.dims, item.table, p, l);
        }
      }
      if forall p: nat :: p <= item.position ==> Reaches(kv.dims, item.table, p) {
        forall p: nat | p < item.position + 1 ensures Mapped(kv.dims, item.table, p, l) {
          assert Reaches(kv.dims, item.table, p);
        }
      }
    }

    ghost predicate AttendedBy(l: nat, query: Row, item: Item, out: Row)
      requires Valid() && l < kv.dims.layers && |query| == m.heads * kv.dims.headDim
      reads kv.data
    {
      && AllMapped(kv.dims, item.table, item.position + 1, l)
      && out == PagedRow(m.a, kv.dims, kv.Arena(), query, m.heads, item.table, l, item.position + 1)
    }

    /** The rest of the layer: output projection and feed-forward, each with its residual. */
    method FinishLayer(l: nat, hidden: Matrix, attended: Matrix)
      requires Valid() && l < kv.dims.layers
      requires hidden.Valid() && hidden.cols == m.Width() && attended.Valid() && attended.rows == hidden.rows
      requires attended.cols == m.heads * kv.dims.headDim && attended.data != hidden.data
      modifies hidden.data
      ensures forall i :: 0 <= i < hidden.rows ==>
                hidden.Row(i) == NextRow(m, kv.dims, l, old(hidden.Row(i)), attended.Row(i))
    {
      hide Matrix.Row, LayerShaped, LinearRow, RmsNormRow, SumRow, SwiGluRow, WellShaped;
      ShapesOf(l);
      var w := m.layers[l];
      var projected := Linear(m.a, attended, w.oProj, None);
      AddInPlace(m.a, hidden, projected.value);
      var normed := new Matrix.Clone(hidden);
      var _ := RmsNorm(m.a, normed, w.postAttnNorm);
      var gate := Linear(m.a, normed, w.gateProj, None);
      var up := Linear(m.a, normed, w.upProj, None);
      var _ := SwiGlu(m.a, gate.value, up.value);
      var down := Linear(m.a, gate.value, w.downProj, None);
      AddInPlace(m.a, hidden, down.value);
    }

    // ----- The layer -----

    method LayerForward(l: nat, hidden: Matrix, positions: seq<nat>, slots: seq<(BlockId, nat)>, items: seq<Item>) returns (ok: bool)
      requires Valid() && l < kv.dims.layers && kv.dims.blockSize > 0
      requires hidden.Valid() && hidden.cols == m.Width() && hidden.rows == |items| && hidden.data != kv.data
      requires Placed(items, slots) && |positions| == |items|
      requires forall r :: 0 <= r < |items| ==> positions[r] == items[r].position && items[r].token < |m.embed.rows|
      modifies hidden.data, kv.data
      ensures ok <==> BatchReady(m, kv.dims, items)
      ensures ok ==> Stage(RowSeq(hidden), kv.Arena())
                     == LayerStage(m, kv.dims, l, items, Stage(old(RowSeq(hidden)), old(kv.Arena())))
    {
      hide Matrix.Row, ArenaLength, WellShaped, Reaches, QueryRow, KeyRow, ValueRow, NextRow, LayerWrites, StoredAll, AttendHeads, Gathered;
      ghost var rows := RowSeq(hidden);
      var qkv := Project(l, hidden, positions);
      if qkv.None? {
        return false;
      }
      ok := WriteRows(l, qkv.value.1, qkv.value.2, slots, rows, items);
      if !ok {
        return;
      }
      var attended := AttendRows(l, qkv.value.0, items);
      if attended.None? {
        return false;
      }
      FinishLayer(l, hidden, attended.value);
      ok := true;
    }

    // ----- The forward pass -----

    method MapRows(counts: seq<nat>) returns (owners: seq<nat>)
      ensures owners == Owners(counts)
    {
      owners := [];
      for i := 0 to |counts|
        invariant owners == Owners(counts[..i])
      {
        ghost var before := owners;
        for k := 0 to counts[i]
          invariant owners == before + seq(k, _ => i)
        {
          owners := owners + [i];
        }
        assert counts[..i + 1][..i] == counts[..i];
      }
      assert counts[..|counts|] == counts;
    }

    /** Where each row's entry goes; a position without a block fails. */
    method ResolveSlots(items: seq<Item>) returns (slots: Option<seq<(BlockId, nat)>>)
      requires Valid() && kv.dims.blockSize > 0
      ensures slots.Some? ==> Placed(items, slots.value)
      ensures BatchReady(m, kv.dims, items) ==> slots.Some?
    {
      hide WellShaped;
      var s: seq<(BlockId, nat)> := [];
      for r := 0 to |items|
        invariant |s| == r
        invariant forall j :: 0 <= j < r ==> Locate(items[j].table, items[j].position, kv.dims.blockSize) == Some(s[j])
      {
        var at := Locate(items[r].table, items[r].position, kv.dims.blockSize);
        if at.None? {
          assert !Reaches(kv.dims, items[r].table, items[r].position);
          assert !ItemReady(m, kv.dims, items[r]);
          return None;
        }
        s := s + [at.value];
      }
      slots := Some(s);
    }

    method RunLayers(hidden: Matrix, positions: seq<nat>, slots: seq<(BlockId, nat)>, items: seq<Item>) returns (ok: bool)
      requires Valid() && kv.dims.blockSize > 0 && kv.dims.layers > 0
      requires hidden.Valid() && hidden.cols == m.Width() && hidden.rows == |items| && hidden.data != kv.data
      requires Placed(items, slots) && |positions| == |items|
      requires forall r :: 0 <= r < |items| ==> positions[r] == items[r].position && items[r].token < |m.embed.rows|
      requires forall r :: 0 <= r < |items| ==> hidden.Row(r) == m.embed.rows[items[r].token]
      modifies hidden.data, kv.data
      ensures ok <==> BatchReady(m, kv.dims, items)
      ensures ok ==> Stage(RowSeq(hidden), kv.Arena()) == StageAt(m, kv.dims, items, old(kv.Arena()), kv.dims.layers)
    {
      hide Matrix.Row, ArenaLength, WellShaped, LayerStage, ItemReady;
      if BatchReady(m, kv.dims, items) {
        assert RowSeq(hidden) == Embedded(m, kv.dims, items);
      }
      for l := 0 to kv.dims.layers
        invariant l > 0 ==> BatchReady(m, kv.dims, items)
        invariant BatchReady(m, kv.dims, items) ==>
                    Stage(RowSeq(hidden), kv.Arena()) == StageAt(m, kv.dims, items, old(kv.Arena()), l)
      {
        ok := LayerForward(l, hidden, positions, slots, items);
        if !ok {
          return;
        }
      }
      ok := true;
    }

    /** Where each sequence's final row is; a sequence without tokens fails. */
    method FindLastRows(counts: seq<nat>) returns (r: Option<seq<nat>>)
      ensures r.Some? <==> forall i :: 0 <= i < |counts| ==> counts[i] > 0
      ensures r.Some? ==> |r.value| == |counts| && forall i :: 0 <= i < |counts| ==>
                r.value[i] == LastRow(counts, i) < Total(counts)
    {
      hide Owners;
      var lastRows: seq<nat>, cursor := [], 0;
      for i := 0 to |counts|
        invariant cursor == Total(counts[..i]) && |lastRows| == i
        invariant forall j :: 0 <= j < i ==> counts[j] > 0 && lastRows[j] == LastRow(counts, j) < Total(counts)
      {
        assert counts[..i + 1][..i] == counts[..i];
        if counts[i] == 0 {
          return None;
        }
        cursor := cursor + counts[i];
        lastRows := lastRows + [cursor - 1];
        LastRowIsOwned(counts, i);
      }
      r := Some(lastRows);
    }

    method LogitsOf(hidden: Matrix, lastRows: seq<nat>) returns (logits: seq<Row>)
      requires Valid() && hidden.Valid() && hidden.cols == m.Width()
      requires forall i :: 0 <= i < |lastRows| ==> lastRows[i] < hidden.rows
      ensures |logits| == |lastRows| && forall i :: 0 <= i < |lastRows| ==>
                logits[i] == LinearRow(m.a, hidden.Row(lastRows[i]), m.head, None)
    {
      hide Matrix.Row, LinearRow, LayerShaped;
      var tail := new Matrix.Zeros(|lastRows|, m.Width(), m.a.zero);
      for i := 0 to |lastRows|
        invariant forall j :: 0 <= j < i ==> tail.Row(j) == hidden.Row(lastRows[j])
      {
        CopyRow(tail, i, hidden.Row(lastRows[i]));
      }
      var out := Linear(m.a, tail, m.head, None);
      logits := RowSeq(out.value);
    }

    /** Projects each sequence's final row to the vocabulary; the other rows are dropped. */
    method ComputeLogits(hidden: Matrix, counts: seq<nat>, ghost rows: seq<Row>) returns (r: Option<seq<Row>>)
      requires Valid() && hidden.Valid() && hidden.cols == m.Width() && hidden.rows == Total(counts) && RowSeq(hidden) == rows
      modifies hidden.data
      ensures r.Some? <==> forall i :: 0 <= i < |counts| ==> counts[i] > 0
      ensures r.Some? ==> |r.value| == |counts| && forall i :: 0 <= i < |counts| ==>
                0 <= LastRow(counts, i) < |rows| && r.value[i] == LogitsRow(m, kv.dims, rows[LastRow(counts, i)])
    {
      hide Matrix.Row, LinearRow, RmsNormRow, LayerShaped, LastRow, Total;
      var _ := RmsNorm(m.a, hidden, m.finalNorm);
      var lastRows := FindLastRows(counts);
      if lastRows.None? {
        return None;
      }
      var logits := LogitsOf(hidden, lastRows.value);
      r := Some(logits);
    }

    /** Runs the model over a ragged batch, writing its keys and values into the cache. */
    method Forward(b: Batch) returns (r: Option<(seq<SequenceId>, seq<Row>)>)
      requires Valid()
      modifies kv.data
      ensures r.Some? <==> Runs(m, kv.dims, b)
      ensures r.Some? ==> r.value == (if b.tokens == [] then [] else b.ids, Logits(m, kv.dims, b, old(kv.Arena())))
      ensures r.Some? ==> kv.Arena() == ArenaAfter(m, kv.dims, b, old(kv.Arena()))
    {
      hide Matrix.Row, ArenaLength, LogitsRow, StageAt, LayerShaped, ItemReady;
      if !Aligned(b) {
        return None;
      }
      if b.tokens == [] {
        return Some(([], []));
      }
      var owners := MapRows(b.counts);
      var items := seq(|b.tokens|, i requires 0 <= i < |b.tokens| => Item(b.tokens[i], b.positions[i], b.tables[owners[i]]));
      assert items == Items(b);
      var slots := ResolveSlots(items);
      if slots.None? {
        return None;
      }
      var hidden := Embed(b.tokens);
      if hidden.None? {
        TokensOfReady(b);
        return None;
      }
      var ok := RunLayers(hidden.value, b.positions, slots.value, items);
      if !ok {
        return None;
      }
      ghost var stage := Stage(RowSeq(hidden.value), kv.Arena());
      var logits := ComputeLogits(hidden.value, b.counts, stage.rows);
      if logits.None? {
        return None;
      }
      assert stage == StageAt(m, kv.dims, Items(b), old(kv.Arena()), kv.dims.layers);
      assert logits.value == Logits(m, kv.dims, b, old(kv.Arena()));
      r := Some((b.ids, logits.value));
    }

    lemma TokensOfReady(b: Batch)
      requires Valid() && Aligned(b) && kv.dims.blockSize > 0
      ensures BatchReady(m, kv.dims, Items(b)) ==> forall i :: 0 <= i < |b.tokens| ==> b.tokens[i] < |m.embed.rows|
    {
      if BatchReady(m, kv.dims, Items(b)) {
        forall i | 0 <= i < |b.tokens| ensures b.tokens[i] < |m.embed.rows| {
          assert ItemReady(m, kv.dims, Items(b)[i]);
        }
      }
    }

    lemma RowReaches(items: seq<Item>, slots: seq<(BlockId, nat)>, r: nat)
      requires Valid() && Placed(items, slots) && r < |items| && ItemReady(m, kv.dims, items[r])
      ensures slots[r].0 < kv.dims.blocks && slots[r].1 < kv.dims.blockSize
    {
      assert Reaches(kv.dims, items[r].table, items[r].position);
    }
  }

  lemma {:induction false} StoredAllConcat(d: Dims, arena: seq<Float>, a: seq<Write>, b: seq<Write>)
    requires IsArena(d, arena)
    ensures StoredAll(d, arena, a + b) == StoredAll(d, StoredAll(d, arena, a), b)
  {
    hide Stored, ArenaLength;
    if b == [] {
      assert a + b == a;
    } else {
      StoredAllConcat(d, arena, a, b[..|b| - 1]);
      assert (a + b)[..|a + b| - 1] == a + b[..|b| - 1];
    }
  }
}
