// Paged attention: one query row against keys and values scattered over blocks.
module Attention {
  import opened Prelude
  import opened Arithmetic
  import opened Tensors
  import opened KvStores

  /** The physical block and slot of a logical position. */
  function Locate(table: seq<BlockId>, position: nat, blockSize: nat): Option<(BlockId, nat)>
    requires blockSize > 0
  {
    if position / blockSize < |table| then Some((table[position / blockSize], position % blockSize)) else None
  }

  // ----- Attention over contiguous keys and values -----

  function Scores(a: Arith, q: Row, keys: seq<Row>): (s: Row)
    requires forall p :: 0 <= p < |keys| ==> |keys[p]| == |q|
    ensures |s| == |keys|
  {
    seq(|keys|, p requires 0 <= p < |keys| => a.mul(Dot(a, q, keys[p], |q|), a.scoreScale(|q|)))
  }

  function AddScaled(a: Arith, o: Row, w: Float, v: Row): (r: Row)
    requires |v| == |o|
    ensures |r| == |o|
  {
    seq(|o|, j requires 0 <= j < |o| => a.add(o[j], a.mul(w, v[j])))
  }

  /** The first n values summed by weight, weights of zero left out. */
  function Mixed(a: Arith, weights: Row, values: seq<Row>, headDim: nat, n: nat): (o: Row)
    requires n <= |weights| == |values|
    requires forall p :: 0 <= p < |values| ==> |values[p]| == headDim
    ensures |o| == headDim
  {
    if n == 0 then seq(headDim, _ => a.zero)
    else
      var before := Mixed(a, weights, values, headDim, n - 1);
      if a.isZero(weights[n - 1]) then before else AddScaled(a, before, weights[n - 1], values[n - 1])
  }

  predicate Uniform(rows: seq<Row>, n: nat, width: nat) {
    |rows| == n && forall p :: 0 <= p < n ==> |rows[p]| == width
  }

  function AttendHead(a: Arith, q: Row, keys: seq<Row>, values: seq<Row>): (o: Row)
    requires Uniform(keys, |keys|, |q|) && Uniform(values, |keys|, |q|)
    ensures |o| == |q|
  {
    Mixed(a, Softmax(a, Scores(a, q, keys)), values, |q|, |keys|)
  }

  /** Keys or values by kv head, then by position. */
  type HeadRows = seq<seq<Row>>

  predicate Rectangular(x: HeadRows, kvHeads: nat, n: nat, headDim: nat) {
    |x| == kvHeads && forall h :: 0 <= h < kvHeads ==> Uniform(x[h], n, headDim)
  }

  /** Query head `qh` shares its kv head with the others of its group. */
  function KvHeadOf(qh: nat, heads: nat, kvHeads: nat): (h: nat)
    requires qh < heads && kvHeads > 0 && heads % kvHeads == 0
    ensures h < kvHeads
  {
    GroupIsPositive(heads, kvHeads);
    var group := heads / kvHeads;
    assert qh / group < kvHeads by {
      DivisionEquation(qh, group);
      if qh / group >= kvHeads {
        MulMonotone(kvHeads, qh / group, group);
      }
    }
    qh / group
  }

  lemma GroupIsPositive(heads: nat, kvHeads: nat)
    requires heads > 0 && kvHeads > 0 && heads % kvHeads == 0
    ensures heads / kvHeads > 0 && heads == kvHeads * (heads / kvHeads)
  {
    DivisionEquation(heads, kvHeads);
  }

  function HeadSlice(row: Row, h: nat, heads: nat, headDim: nat): (v: Row)
    requires h < heads && heads * headDim <= |row|
    ensures |v| == headDim
  {
    RowFits(h, heads, headDim);
    row[h * headDim..(h + 1) * headDim]
  }

  /** The output of the first n query heads. */
  function AttendHeads(a: Arith, query: Row, n: nat, heads: nat, headDim: nat, keys: HeadRows, values: HeadRows, len: nat): (o: Row)
    requires n <= heads && |query| == heads * headDim
    requires |keys| > 0 && heads % |keys| == 0
    requires Rectangular(keys, |keys|, len, headDim) && Rectangular(values, |keys|, len, headDim)
    ensures |o| == n * headDim
  {
    if n == 0 then []
    else
      RowFits(n - 1, n, headDim);
      var h := KvHeadOf(n - 1, heads, |keys|);
      AttendHeads(a, query, n - 1, heads, headDim, keys, values, len)
      + AttendHead(a, HeadSlice(query, n - 1, heads, headDim), keys[h], values[h])
  }

  // ----- Reading keys and values through the block table -----

  /** Position p of a sequence can be read at this layer. */
  predicate Mapped(d: Dims, table: seq<BlockId>, p: nat, layer: nat)
    requires d.blockSize > 0
  {
    layer < d.layers && Locate(table, p, d.blockSize).Some? && Locate(table, p, d.blockSize).value.0 < d.blocks
  }

  function KeyAt(d: Dims, table: seq<BlockId>, p: nat, layer: nat, head: nat, isValue: bool): (k: Key)
    requires d.blockSize > 0 && Mapped(d, table, p, layer) && head < d.kvHeads
    ensures InRange(d, k)
  {
    var (block, slot) := Locate(table, p, d.blockSize).value;
    Key(layer, block, slot, head, isValue)
  }

  predicate AllMapped(d: Dims, table: seq<BlockId>, len: nat, layer: nat)
    requires d.blockSize > 0
  {
    forall p: nat :: p < len ==> Mapped(d, table, p, layer)
  }

  function GatheredHead(d: Dims, arena: seq<Float>, table: seq<BlockId>, len: nat, layer: nat, head: nat, isValue: bool): (r: seq<Row>)
    requires d.blockSize > 0 && IsArena(d, arena) && head < d.kvHeads && AllMapped(d, table, len, layer)
    ensures Uniform(r, len, d.headDim)
  {
    seq(len, p requires 0 <= p < len => Load(d, arena, KeyAt(d, table, p, layer, head, isValue)))
  }

  function Gathered(d: Dims, arena: seq<Float>, table: seq<BlockId>, len: nat, layer: nat, isValue: bool): (r: HeadRows)
    requires d.blockSize > 0 && IsArena(d, arena) && AllMapped(d, table, len, layer)
    ensures Rectangular(r, d.kvHeads, len, d.headDim)
  {
    seq(d.kvHeads, h requires 0 <= h < d.kvHeads => GatheredHead(d, arena, table, len, layer, h, isValue))
  }

  method ReadAt(store: KvStore, table: seq<BlockId>, p: nat, layer: nat, head: nat, isValue: bool) returns (r: Option<Row>)
    requires store.Valid() && store.dims.blockSize > 0 && head < store.dims.kvHeads
    ensures r == if Mapped(store.dims, table, p, layer)
                 then Some(Load(store.dims, store.Arena(), KeyAt(store.dims, table, p, layer, head, isValue)))
                 else None
  {
    hide Load, ArenaLength;
    var at := Locate(table, p, store.dims.blockSize);
    if at.None? {
      return None;
    }
    r := store.Read(Key(layer, at.value.0, at.value.1, head, isValue));
  }

  method ComputeScores(a: Arith, store: KvStore, q: Row, table: seq<BlockId>, layer: nat, head: nat, len: nat)
    returns (scores: Option<array<Float>>)
    requires store.Valid() && store.dims.blockSize > 0 && head < store.dims.kvHeads && |q| == store.dims.headDim
    ensures scores.Some? <==> AllMapped(store.dims, table, len, layer)
    ensures scores.Some? ==> fresh(scores.value)
    ensures scores.Some? ==>
              scores.value[..] == Scores(a, q, GatheredHead(store.dims, store.Arena(), table, len, layer, head, false))
  {
    hide Load, Mapped, KeyAt, Dot, ArenaLength;
    var s := new Float[len](_ => a.zero);
    for p := 0 to len
      invariant AllMapped(store.dims, table, p, layer)
      invariant forall i :: 0 <= i < p ==>
                  s[i] == a.mul(Dot(a, q, Load(store.dims, store.Arena(), KeyAt(store.dims, table, i, layer, head, false)), |q|),
                                a.scoreScale(|q|))
    {
      var k := ReadAt(store, table, p, layer, head, false);
      if k.None? {
        return None;
      }
      var dot := DotProduct(a, q, k.value);
      s[p] := a.mul(dot, a.scoreScale(|q|));
    }
    scores := Some(s);
  }

  method DotProduct(a: Arith, x: Row, y: Row) returns (dot: Float)
    requires |x| == |y|
    ensures dot == Dot(a, x, y, |x|)
  {
    dot := a.zero;
    for j := 0 to |x|
      invariant dot == Dot(a, x, y, j)
    {
      dot := a.add(dot, a.mul(x[j], y[j]));
    }
  }

  /** `row` with `part` in place of what it had from `at` on. */
  function Patched(row: Row, at: nat, part: Row): (r: Row)
    requires at + |part| <= |row|
    ensures |r| == |row|
  {
    row[..at] + part + row[at + |part|..]
  }

  method Accumulate(a: Arith, out: Matrix, row: nat, at: nat, w: Float, v: Row)
    requires out.Valid() && row < out.rows && at + |v| <= out.cols
    modifies out.data
    ensures forall k :: 0 <= k < out.rows && k != row ==> out.Row(k) == old(out.Row(k))
    ensures var was := old(out.Row(row));
            out.Row(row) == Patched(was, at, AddScaled(a, was[at..at + |v|], w, v))
  {
    hide Matrix.Row;
    ghost var was := out.Row(row);
    ghost var sum := AddScaled(a, was[at..at + |v|], w, v);
    for j := 0 to |v|
      invariant forall k :: 0 <= k < out.rows && k != row ==> out.Row(k) == old(out.Row(k))
      invariant forall k :: 0 <= k < out.cols ==>
                  out.Row(row)[k] == if at <= k < at + j then sum[k - at] else was[k]
    {
      out.Set(row, at + j, a.add(out.Row(row)[at + j], a.mul(w, v[j])));
    }
  }

  method Clear(out: Matrix, row: nat, at: nat, len: nat, zero: Float)
    requires out.Valid() && row < out.rows && at + len <= out.cols
    modifies out.data
    ensures forall k :: 0 <= k < out.rows && k != row ==> out.Row(k) == old(out.Row(k))
    ensures out.Row(row) == Patched(old(out.Row(row)), at, seq(len, _ => zero))
  {
    hide Matrix.Row;
    ghost var was := out.Row(row);
    for j := 0 to len
      invariant forall k :: 0 <= k < out.rows && k != row ==> out.Row(k) == old(out.Row(k))
      invariant forall k :: 0 <= k < out.cols ==> out.Row(row)[k] == if at <= k < at + j then zero else was[k]
    {
      out.Set(row, at + j, zero);
    }
  }

  /** One head of the output row: the values mixed by the weights. */
  method MixValues(a: Arith, store: KvStore, weights: array<Float>, table: seq<BlockId>, layer: nat, head: nat,
                   out: Matrix, row: nat, at: nat)
    requires store.Valid() && store.dims.blockSize > 0 && head < store.dims.kvHeads
    requires AllMapped(store.dims, table, weights.Length, layer)
    requires out.Valid() && row < out.rows && at + store.dims.headDim <= out.cols
    requires out.data != store.data && out.data != weights
    modifies out.data
    ensures forall k :: 0 <= k < out.rows && k != row ==> out.Row(k) == old(out.Row(k))
    ensures out.Row(row) == Patched(old(out.Row(row)), at,
              Mixed(a, weights[..], GatheredHead(store.dims, store.Arena(), table, weights.Length, layer, head, true),
                    store.dims.headDim, weights.Length))
  {
    hide Matrix.Row, Load, Mapped, KeyAt, ArenaLength, AddScaled;
    ghost var was, d := out.Row(row), store.dims.headDim;
    ghost var values := GatheredHead(store.dims, store.Arena(), table, weights.Length, layer, head, true);
    Clear(out, row, at, store.dims.headDim, a.zero);
    for p := 0 to weights.Length
      invariant forall k :: 0 <= k < out.rows && k != row ==> out.Row(k) == old(out.Row(k))
      invariant out.Row(row) == Patched(was, at, Mixed(a, weights[..], values, d, p))
    {
      var w := weights[p];
      if a.isZero(w) {
        continue;
      }
      var v := ReadAt(store, table, p, layer, head, true);
      assert v == Some(values[p]);
      PatchedSlice(was, at, Mixed(a, weights[..], values, d, p));
      Accumulate(a, out, row, at, w, v.value);
      PatchedTwice(was, at, Mixed(a, weights[..], values, d, p), Mixed(a, weights[..], values, d, p + 1));
    }
  }

  lemma PatchedSlice(row: Row, at: nat, part: Row)
    requires at + |part| <= |row|
    ensures Patched(row, at, part)[at..at + |part|] == part
  {
  }

  lemma PatchedTwice(row: Row, at: nat, part: Row, next: Row)
    requires at + |part| <= |row| && |next| == |part|
    ensures Patched(Patched(row, at, part), at, next) == Patched(row, at, next)
  {
  }

  lemma PatchedNext(row: Row, front: Row, part: Row)
    requires |front| + |part| <= |row|
    ensures Patched(Patched(row, 0, front), |front|, part) == Patched(row, 0, front + part)
  {
  }

  /** Attention of one query row over the positions up to its own, read through the block table. */
  ghost function PagedRow(a: Arith, d: Dims, arena: seq<Float>, query: Row, heads: nat, table: seq<BlockId>, layer: nat, len: nat): (o: Row)
    requires d.blockSize > 0 && IsArena(d, arena) && AllMapped(d, table, len, layer)
    requires |query| == heads * d.headDim && d.kvHeads > 0 && heads % d.kvHeads == 0
    ensures |o| == heads * d.headDim
  {
    AttendHeads(a, query, heads, heads, d.headDim, Gathered(d, arena, table, len, layer, false),
                Gathered(d, arena, table, len, layer, true), len)
  }

  /** Attends to positions 0 to `position`; future positions are never visited. */
  method PagedAttention(a: Arith, store: KvStore, query: Row, heads: nat, table: seq<BlockId>, layer: nat, position: nat,
                        out: Matrix, row: nat)
    returns (ok: bool)
    requires store.Valid() && store.dims.blockSize > 0
    requires out.Valid() && row < out.rows && out.data != store.data
    modifies out.data
    ensures ok <==> && |query| == heads * store.dims.headDim == out.cols
                    && store.dims.kvHeads > 0 && heads % store.dims.kvHeads == 0
                    && (heads > 0 ==> AllMapped(store.dims, table, position + 1, layer))
    ensures forall k :: 0 <= k < out.rows && k != row ==> out.Row(k) == old(out.Row(k))
    ensures ok && AllMapped(store.dims, table, position + 1, layer) ==>
              out.Row(row) == PagedRow(a, store.dims, store.Arena(), query, heads, table, layer, position + 1)
  {
    hide Matrix.Row, Load, AllMapped, ArenaLength, HeadsDone, PagedRow;
    var d, len := store.dims, position + 1;
    if |query| != heads * d.headDim || out.cols != |query| || d.kvHeads == 0 || heads % d.kvHeads != 0 {
      return false;
    }
    ghost var was := out.Row(row);
    for qh := 0 to heads
      invariant qh > 0 ==> AllMapped(d, table, len, layer)
      invariant forall k :: 0 <= k < out.rows && k != row ==> out.Row(k) == old(out.Row(k))
      invariant qh == 0 ==> out.Row(row) == was
      invariant qh > 0 ==>
                  HeadsDone(a, d, store.Arena(), query, heads, table, layer, len, was, qh) == out.Row(row)
    {
      ok := AttendOneHead(a, store, query, heads, table, layer, len, out, row, qh, was);
      if !ok {
        return;
      }
    }
    if heads > 0 {
      AllHeadsDone(a, d, store.Arena(), query, heads, table, layer, len, was);
    }
    ok := true;
  }

  /** The output row with its first n heads computed. */
  ghost function HeadsDone(a: Arith, d: Dims, arena: seq<Float>, query: Row, heads: nat, table: seq<BlockId>, layer: nat, len: nat,
                           was: Row, n: nat): (o: Row)
    requires d.blockSize > 0 && IsArena(d, arena) && AllMapped(d, table, len, layer) && n <= heads
    requires |query| == heads * d.headDim == |was| && d.kvHeads > 0 && heads % d.kvHeads == 0
  {
    MulMonotone(n, heads, d.headDim);
    Patched(was, 0, AttendHeads(a, query, n, heads, d.headDim, Gathered(d, arena, table, len, layer, false),
                                Gathered(d, arena, table, len, layer, true), len))
  }

  lemma AllHeadsDone(a: Arith, d: Dims, arena: seq<Float>, query: Row, heads: nat, table: seq<BlockId>, layer: nat, len: nat, was: Row)
    requires d.blockSize > 0 && IsArena(d, arena) && AllMapped(d, table, len, layer)
    requires |query| == heads * d.headDim == |was| && d.kvHeads > 0 && heads % d.kvHeads == 0
    ensures HeadsDone(a, d, arena, query, heads, table, layer, len, was, heads)
            == PagedRow(a, d, arena, query, heads, table, layer, len)
  {
  }

  method AttendOneHead(a: Arith, store: KvStore, query: Row, heads: nat, table: seq<BlockId>, layer: nat, len: nat,
                       out: Matrix, row: nat, qh: nat, ghost was: Row)
    returns (ok: bool)
    requires store.Valid() && store.dims.blockSize > 0 && qh < heads
    requires out.Valid() && row < out.rows && out.data != store.data
    requires |query| == heads * store.dims.headDim == out.cols == |was| && store.dims.kvHeads > 0 && heads % store.dims.kvHeads == 0
    requires qh == 0 ==> out.Row(row) == was
    requires qh > 0 ==> AllMapped(store.dims, table, len, layer)
    requires qh > 0 ==> HeadsDone(a, store.dims, store.Arena(), query, heads, table, layer, len, was, qh) == out.Row(row)
    modifies out.data
    ensures ok <==> AllMapped(store.dims, table, len, layer)
    ensures forall k :: 0 <= k < out.rows && k != row ==> out.Row(k) == old(out.Row(k))
    ensures ok ==> HeadsDone(a, store.dims, store.Arena(), query, heads, table, layer, len, was, qh + 1) == out.Row(row)
  {
    hide Matrix.Row, Load, Mapped, KeyAt, ArenaLength, Scores, Mixed, GatheredHead, Softmax;
    var d := store.dims;
    var head := KvHeadOf(qh, heads, d.kvHeads);
    var q := HeadSlice(query, qh, heads, d.headDim);
    var scores := ComputeScores(a, store, q, table, layer, head, len);
    if scores.None? {
      return false;
    }
    SoftmaxInPlace(a, scores.value);
    RowFits(qh, heads, d.headDim);
    ghost var keys, values := Gathered(d, store.Arena(), table, len, layer, false), Gathered(d, store.Arena(), table, len, layer, true);
    ghost var front := AttendHeads(a, query, qh, heads, d.headDim, keys, values, len);
    assert Patched(was, 0, []) == was;
    assert out.Row(row) == Patched(was, 0, front);
    MixValues(a, store, scores.value, table, layer, head, out, row, qh * d.headDim);
    PatchedNext(was, front, AttendHead(a, q, keys[head], values[head]));
    ok := true;
  }
}
