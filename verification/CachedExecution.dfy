// Cached execution equals recomputation, over every run of forward passes.
//
// A lane is a token history with the block table that backs it: a live sequence, or a
// published prefix kept for reuse. Lanes may share a slot only where their histories agree.
module CachedExecution {
  import opened Prelude
  import opened Tensors
  import opened KvStores
  import opened Attention
  import opened Transformer

  // ----- Recomputation from scratch -----

  predicate TokensOk(m: Model, tokens: seq<TokenId>) {
    |tokens| <= |m.cos| && forall p :: 0 <= p < |tokens| ==> tokens[p] < |m.embed.rows|
  }

  /** Rows of keys or values, split by head. */
  ghost function Split(d: Dims, rows: seq<Row>): (x: HeadRows)
    requires Uniform(rows, |rows|, d.kvHeads * d.headDim)
    ensures Rectangular(x, d.kvHeads, |rows|, d.headDim)
  {
    seq(d.kvHeads, h requires 0 <= h < d.kvHeads =>
      seq(|rows|, p requires 0 <= p < |rows| => HeadSlice(rows[p], h, d.kvHeads, d.headDim)))
  }

  /** One layer for one row, over contiguous keys and values up to its own. */
  ghost function LayerStep(m: Model, d: Dims, l: nat, hidden: Row, p: nat, keys: seq<Row>, values: seq<Row>): (r: Row)
    requires WellShaped(m, d) && l < d.layers && |hidden| == m.Width() && p < |m.cos|
    requires Uniform(keys, p + 1, d.kvHeads * d.headDim) && Uniform(values, p + 1, d.kvHeads * d.headDim)
    ensures |r| == m.Width()
  {
    NextRow(m, d, l, hidden,
            AttendHeads(m.a, QueryRow(m, d, l, hidden, p), m.heads, m.heads, d.headDim, Split(d, keys), Split(d, values), p + 1))
  }

  /** The hidden state of position p before layer l, from the tokens alone. */
  ghost function Hidden(m: Model, d: Dims, tokens: seq<TokenId>, l: nat, p: nat): (r: Row)
    requires WellShaped(m, d) && TokensOk(m, tokens) && l <= d.layers && p < |tokens|
    ensures |r| == m.Width()
    decreases l, 0
  {
    if l == 0 then m.embed.rows[tokens[p]]
    else
      LayerStep(m, d, l - 1, Hidden(m, d, tokens, l - 1, p), p,
                Keys(m, d, tokens, l - 1, p + 1), Values(m, d, tokens, l - 1, p + 1))
  }

  ghost function Keys(m: Model, d: Dims, tokens: seq<TokenId>, l: nat, n: nat): (k: seq<Row>)
    requires WellShaped(m, d) && TokensOk(m, tokens) && l < d.layers && n <= |tokens|
    ensures Uniform(k, n, d.kvHeads * d.headDim)
    decreases l, 1
  {
    seq(n, i requires 0 <= i < n => KeyRow(m, d, l, Hidden(m, d, tokens, l, i), i))
  }

  ghost function Values(m: Model, d: Dims, tokens: seq<TokenId>, l: nat, n: nat): (v: seq<Row>)
    requires WellShaped(m, d) && TokensOk(m, tokens) && l < d.layers && n <= |tokens|
    ensures Uniform(v, n, d.kvHeads * d.headDim)
    decreases l, 1
  {
    seq(n, i requires 0 <= i < n => ValueRow(m, d, l, Hidden(m, d, tokens, l, i)))
  }

  /** The logits after a whole history, recomputed. */
  ghost function Recomputed(m: Model, d: Dims, tokens: seq<TokenId>): Row
    requires WellShaped(m, d) && TokensOk(m, tokens) && tokens != []
  {
    LogitsRow(m, d, Hidden(m, d, tokens, d.layers, |tokens| - 1))
  }

  ghost predicate SameHidden(m: Model, d: Dims, x: seq<TokenId>, y: seq<TokenId>, l: nat, n: nat)
    requires WellShaped(m, d) && TokensOk(m, x) && TokensOk(m, y) && l <= d.layers && n <= |x| && n <= |y|
  {
    forall p :: 0 <= p < n ==> Hidden(m, d, x, l, p) == Hidden(m, d, y, l, p)
  }

  lemma SameRowsCached(m: Model, d: Dims, x: seq<TokenId>, y: seq<TokenId>, l: nat, n: nat)
    requires WellShaped(m, d) && TokensOk(m, x) && TokensOk(m, y) && l < d.layers && n <= |x| && n <= |y|
    requires SameHidden(m, d, x, y, l, n)
    ensures Keys(m, d, x, l, n) == Keys(m, d, y, l, n) && Values(m, d, x, l, n) == Values(m, d, y, l, n)
  {
    hide WellShaped, KeyRow, ValueRow, Hidden, TokensOk;
    assert forall i :: 0 <= i < n ==> Hidden(m, d, x, l, i) == Hidden(m, d, y, l, i);
  }

  /** Causality: later tokens do not matter. */
  lemma {:induction false} PrefixDecides(m: Model, d: Dims, x: seq<TokenId>, y: seq<TokenId>, l: nat, n: nat)
    requires WellShaped(m, d) && TokensOk(m, x) && TokensOk(m, y) && l <= d.layers
    requires n <= |x| && n <= |y| && x[..n] == y[..n]
    ensures SameHidden(m, d, x, y, l, n)
    decreases l
  {
    hide WellShaped, Keys, Values, LayerStep;
    if l > 0 {
      PrefixDecides(m, d, x, y, l - 1, n);
    }
    forall p | 0 <= p < n ensures Hidden(m, d, x, l, p) == Hidden(m, d, y, l, p) {
      if l == 0 {
        assert x[p] == x[..n][p] == y[..n][p] == y[p];
      } else {
        assert SameHidden(m, d, x, y, l - 1, p + 1);
        SameRowsCached(m, d, x, y, l - 1, p + 1);
      }
    }
  }

  /** What the cache should hold for one head at one position. */
  ghost function CachedVector(m: Model, d: Dims, tokens: seq<TokenId>, p: nat, l: nat, h: nat, isValue: bool): (v: Row)
    requires WellShaped(m, d) && TokensOk(m, tokens) && l < d.layers && p < |tokens| && h < d.kvHeads
    ensures |v| == d.headDim
  {
    var hidden := Hidden(m, d, tokens, l, p);
    HeadSlice(if isValue then ValueRow(m, d, l, hidden) else KeyRow(m, d, l, hidden, p), h, d.kvHeads, d.headDim)
  }

  // ----- Lanes -----

  datatype Lane = Lane(tokens: seq<TokenId>, table: seq<BlockId>)

  predicate LaneOk(m: Model, d: Dims, lane: Lane)
    requires d.blockSize > 0
  {
    TokensOk(m, lane.tokens) && forall p: nat :: p < |lane.tokens| ==> Reaches(d, lane.table, p)
  }

  /** A slot serves two lanes only at the same position of the same history. */
  ghost predicate Apart(d: Dims, x: Lane, y: Lane)
    requires d.blockSize > 0
  {
    forall p: nat, q: nat :: p < |x.tokens| && q < |y.tokens| && Locate(x.table, p, d.blockSize) == Locate(y.table, q, d.blockSize)
      ==> p == q && x.tokens[..p + 1] == y.tokens[..p + 1]
  }

  ghost predicate AllApart(d: Dims, lanes: seq<Lane>)
    requires d.blockSize > 0
  {
    forall i, j :: 0 <= i < |lanes| && 0 <= j < |lanes| ==> Apart(d, lanes[i], lanes[j])
  }

  ghost predicate HoldsAt(m: Model, d: Dims, arena: seq<Float>, lane: Lane, p: nat, l: nat)
    requires WellShaped(m, d) && IsArena(d, arena) && LaneOk(m, d, lane) && p < |lane.tokens| && l < d.layers
  {
    assert Reaches(d, lane.table, p);
    forall h: nat, isValue :: h < d.kvHeads ==>
      Load(d, arena, KeyAt(d, lane.table, p, l, h, isValue)) == CachedVector(m, d, lane.tokens, p, l, h, isValue)
  }

  /** An arena, the lanes it serves, and how much of each is cached. */
  datatype World = World(arena: seq<Float>, lanes: seq<Lane>, cached: seq<nat>)

  ghost predicate LanesOk(m: Model, d: Dims, lanes: seq<Lane>)
    requires d.blockSize > 0
  {
    forall i :: 0 <= i < |lanes| ==> LaneOk(m, d, lanes[i])
  }

  ghost predicate WorldOk(m: Model, d: Dims, w: World)
    requires WellShaped(m, d)
  {
    && IsArena(d, w.arena) && |w.cached| == |w.lanes|
    && LanesOk(m, d, w.lanes)
    && (forall i :: 0 <= i < |w.lanes| ==> w.cached[i] <= |w.lanes[i].tokens|)
    && AllApart(d, w.lanes)
  }

  ghost predicate Faithful(m: Model, d: Dims, w: World)
    requires WellShaped(m, d)
  {
    && WorldOk(m, d, w)
    && forall i, p: nat, l: nat :: 0 <= i < |w.lanes| && p < w.cached[i] && l < d.layers ==>
         HoldsAt(m, d, w.arena, w.lanes[i], p, l)
  }

  // ----- Agreeing writes -----

  /** Writes to `k` that all carry `v` leave `v` there, provided one happens or `v` was there. */
  lemma {:induction false} AgreeingWrites(d: Dims, arena: seq<Float>, writes: seq<Write>, k: Key, v: Row)
    requires IsArena(d, arena) && InRange(d, k)
    requires forall w :: w in writes && w.key == k ==> w.vector == v
    requires Load(d, arena, k) == v || exists w :: w in writes && w.key == k && Accepted(d, w)
    ensures Load(d, StoredAll(d, arena, writes), k) == v
  {
    hide Load, Stored, InRange;
    if writes != [] {
      var front, w := writes[..|writes| - 1], writes[|writes| - 1];
      if Accepted(d, w) {
        LoadAfterStore(d, StoredAll(d, arena, front), w.key, w.vector, k);
      }
      if !(Accepted(d, w) && w.key == k) {
        AgreeingWrites(d, arena, front, k, v);
      }
    }
  }

  // ----- The writes of a layer -----

  /** Which lane each item belongs to. */
  ghost predicate Feeds(lanes: seq<Lane>, items: seq<Item>, who: seq<nat>) {
    && |who| == |items|
    && forall r :: 0 <= r < |items| ==>
         && who[r] < |lanes|
         && items[r].table == lanes[who[r]].table
         && items[r].position < |lanes[who[r]].tokens|
         && items[r].token == lanes[who[r]].tokens[items[r].position]
  }

  ghost predicate Fed(who: seq<nat>, i: nat) {
    exists r :: 0 <= r < |who| && who[r] == i
  }

  ghost predicate Brings(items: seq<Item>, who: seq<nat>, i: nat, p: nat)
    requires |who| == |items|
  {
    exists r :: 0 <= r < |who| && who[r] == i && items[r].position == p
  }

  /** A lane in the batch brings every position that is not cached yet. */
  ghost predicate Covers(w: World, items: seq<Item>, who: seq<nat>)
    requires |who| == |items| && |w.cached| == |w.lanes|
  {
    forall i, p: nat :: 0 <= i < |w.lanes| && Fed(who, i) && w.cached[i] <= p < |w.lanes[i].tokens| ==> Brings(items, who, i, p)
  }

  lemma FedIsReady(m: Model, d: Dims, lanes: seq<Lane>, items: seq<Item>, who: seq<nat>)
    requires d.blockSize > 0 && Feeds(lanes, items, who)
    requires LanesOk(m, d, lanes)
    ensures BatchReady(m, d, items)
  {
    forall r | 0 <= r < |items| ensures ItemReady(m, d, items[r]) {
      assert LaneOk(m, d, lanes[who[r]]);
    }
  }

  /** Row r holds the recomputed hidden state of its position. */
  ghost predicate RowsFaithful(m: Model, d: Dims, lanes: seq<Lane>, items: seq<Item>, who: seq<nat>, rows: seq<Row>, l: nat)
    requires WellShaped(m, d) && l <= d.layers && Feeds(lanes, items, who) && |rows| == |items|
    requires LanesOk(m, d, lanes)
  {
    forall r :: 0 <= r < |items| ==>
      assert LaneOk(m, d, lanes[who[r]]);
      rows[r] == Hidden(m, d, lanes[who[r]].tokens, l, items[r].position)
  }

  /** The write that row r makes for one head. */
  ghost function WriteOf(m: Model, d: Dims, lane: Lane, p: nat, l: nat, h: nat, isValue: bool): (w: Write)
    requires WellShaped(m, d) && LaneOk(m, d, lane) && p < |lane.tokens| && l < d.layers && h < d.kvHeads
    ensures Accepted(d, w)
  {
    assert Reaches(d, lane.table, p);
    Write(KeyAt(d, lane.table, p, l, h, isValue), CachedVector(m, d, lane.tokens, p, l, h, isValue))
  }

  ghost predicate IsWriteOf(m: Model, d: Dims, lane: Lane, p: nat, l: nat, w: Write)
    requires WellShaped(m, d) && LaneOk(m, d, lane) && p < |lane.tokens| && l < d.layers
  {
    exists h: nat, isValue :: h < d.kvHeads && w == WriteOf(m, d, lane, p, l, h, isValue)
  }

  lemma {:induction false} HeadWritesAre(m: Model, d: Dims, lane: Lane, p: nat, l: nat, n: nat)
    requires WellShaped(m, d) && LaneOk(m, d, lane) && p < |lane.tokens| && l < d.layers && n <= d.kvHeads
    requires d.blockSize > 0 && TokensOk(m, lane.tokens) && Locate(lane.table, p, d.blockSize).Some?
    ensures var hidden, at := Hidden(m, d, lane.tokens, l, p), Locate(lane.table, p, d.blockSize).value;
            var ws := HeadWrites(d, l, at.0, at.1, KeyRow(m, d, l, hidden, p), ValueRow(m, d, l, hidden), n);
            && (forall w :: w in ws ==> IsWriteOf(m, d, lane, p, l, w))
            && (forall h: nat, isValue :: h < n ==> WriteOf(m, d, lane, p, l, h, isValue) in ws)
  {
    hide WellShaped, LaneOk, Hidden, KeyRow, ValueRow, HeadSlice;
    if n > 0 {
      HeadWritesAre(m, d, lane, p, l, n - 1);
      var hidden, at := Hidden(m, d, lane.tokens, l, p), Locate(lane.table, p, d.blockSize).value;
      var front := HeadWrites(d, l, at.0, at.1, KeyRow(m, d, l, hidden, p), ValueRow(m, d, l, hidden), n - 1);
      var all := HeadWrites(d, l, at.0, at.1, KeyRow(m, d, l, hidden, p), ValueRow(m, d, l, hidden), n);
      assert all == front + [WriteOf(m, d, lane, p, l, n - 1, false), WriteOf(m, d, lane, p, l, n - 1, true)];
    }
  }

  ghost predicate WrittenByRow(m: Model, d: Dims, lanes: seq<Lane>, items: seq<Item>, who: seq<nat>, l: nat, n: nat, w: Write)
    requires WellShaped(m, d) && l < d.layers && Feeds(lanes, items, who) && n <= |items| && LanesOk(m, d, lanes)
  {
    exists r :: 0 <= r < n && LaneOk(m, d, lanes[who[r]]) && IsWriteOf(m, d, lanes[who[r]], items[r].position, l, w)
  }

  /** The writes of a layer are those of its rows, no more and no fewer. */
  lemma {:induction false} LayerWritesAre(m: Model, d: Dims, lanes: seq<Lane>, items: seq<Item>, who: seq<nat>, rows: seq<Row>, l: nat, n: nat)
    requires d.blockSize > 0 && WellShaped(m, d) && l < d.layers && Feeds(lanes, items, who) && LanesOk(m, d, lanes)
    requires RowsOf(m, rows, |items|) && BatchReady(m, d, items) && n <= |items|
    requires RowsFaithful(m, d, lanes, items, who, rows, l)
    ensures var ws := LayerWrites(m, d, l, rows, items, n);
            && (forall w :: w in ws ==> WrittenByRow(m, d, lanes, items, who, l, n, w))
            && (forall r, h: nat, isValue :: 0 <= r < n && h < d.kvHeads ==>
                  LaneOk(m, d, lanes[who[r]]) && WriteOf(m, d, lanes[who[r]], items[r].position, l, h, isValue) in ws)
  {
    hide WellShaped, Hidden, KeyRow, ValueRow, IsWriteOf, WriteOf, HeadWrites, LaneOk, ItemReady, Reaches, WrittenByRow,
      LayerWrites, RowsFaithful;
    if n == 0 {
      NothingWritten(m, d, l, rows, items);
    } else {
      LayerWritesAre(m, d, lanes, items, who, rows, l, n - 1);
      var front, all := LayerWrites(m, d, l, rows, items, n - 1), LayerWrites(m, d, l, rows, items, n);
      RowWritesAre(m, d, lanes, items, who, rows, l, n - 1);
      forall w | w in all ensures WrittenByRow(m, d, lanes, items, who, l, n, w) {
        if w in front {
          EarlierRow(m, d, lanes, items, who, l, n - 1, w);
        } else {
          assert w in all[|front|..];
        }
      }
    }
  }

  lemma NothingWritten(m: Model, d: Dims, l: nat, rows: seq<Row>, items: seq<Item>)
    requires WellShaped(m, d) && l < d.layers && RowsOf(m, rows, |items|) && BatchReady(m, d, items)
    ensures LayerWrites(m, d, l, rows, items, 0) == []
  {
  }

  lemma EarlierRow(m: Model, d: Dims, lanes: seq<Lane>, items: seq<Item>, who: seq<nat>, l: nat, n: nat, w: Write)
    requires d.blockSize > 0 && WellShaped(m, d) && l < d.layers && Feeds(lanes, items, who) && n < |items| && LanesOk(m, d, lanes)
    requires WrittenByRow(m, d, lanes, items, who, l, n, w)
    ensures WrittenByRow(m, d, lanes, items, who, l, n + 1, w)
  {
    hide WellShaped, IsWriteOf, LaneOk;
    var r :| 0 <= r < n && LaneOk(m, d, lanes[who[r]]) && IsWriteOf(m, d, lanes[who[r]], items[r].position, l, w);
    assert r < n + 1;
  }

  /** The writes that row n adds. */
  lemma RowWritesAre(m: Model, d: Dims, lanes: seq<Lane>, items: seq<Item>, who: seq<nat>, rows: seq<Row>, l: nat, n: nat)
    requires d.blockSize > 0 && WellShaped(m, d) && l < d.layers && Feeds(lanes, items, who) && LanesOk(m, d, lanes)
    requires RowsOf(m, rows, |items|) && BatchReady(m, d, items) && n < |items|
    requires RowsFaithful(m, d, lanes, items, who, rows, l)
    ensures var front, all := LayerWrites(m, d, l, rows, items, n), LayerWrites(m, d, l, rows, items, n + 1);
            && |front| <= |all| && all[..|front|] == front
            && (forall w :: w in all[|front|..] ==> WrittenByRow(m, d, lanes, items, who, l, n + 1, w))
            && LaneOk(m, d, lanes[who[n]])
            && (forall h: nat, isValue :: h < d.kvHeads ==>
                  WriteOf(m, d, lanes[who[n]], items[n].position, l, h, isValue) in all)
  {
    hide WellShaped, Hidden, KeyRow, ValueRow, IsWriteOf, WriteOf, HeadWrites;
    var item, lane := items[n], lanes[who[n]];
    assert LaneOk(m, d, lane) && ItemReady(m, d, item) && Reaches(d, item.table, item.position);
    HeadWritesAre(m, d, lane, item.position, l, d.kvHeads);
    var front, all := LayerWrites(m, d, l, rows, items, n), LayerWrites(m, d, l, rows, items, n + 1);
    var hidden, at := Hidden(m, d, lane.tokens, l, item.position), Locate(lane.table, item.position, d.blockSize).value;
    var own := HeadWrites(d, l, at.0, at.1, KeyRow(m, d, l, hidden, item.position), ValueRow(m, d, l, hidden), d.kvHeads);
    assert all == front + own;
    assert all[|front|..] == own;
    forall w | w in own ensures WrittenByRow(m, d, lanes, items, who, l, n + 1, w) {
      assert LaneOk(m, d, lanes[who[n]]) && IsWriteOf(m, d, lanes[who[n]], items[n].position, l, w);
    }
  }

  /** Lanes that meet in a slot cache the same vectors there. */
  lemma SlotAgrees(m: Model, d: Dims, x: Lane, p: nat, y: Lane, q: nat, l: nat, h: nat, isValue: bool, w: Write)
    requires WellShaped(m, d) && LaneOk(m, d, x) && LaneOk(m, d, y) && Apart(d, x, y) && l < d.layers && h < d.kvHeads
    requires p < |x.tokens| && q < |y.tokens| && IsWriteOf(m, d, y, q, l, w)
    ensures w.key == WriteOf(m, d, x, p, l, h, isValue).key ==> w == WriteOf(m, d, x, p, l, h, isValue)
  {
    hide WellShaped, Hidden, KeyRow, ValueRow, Keys, Values;
    assert Reaches(d, x.table, p) && Reaches(d, y.table, q);
    if w.key == WriteOf(m, d, x, p, l, h, isValue).key {
      assert Locate(x.table, p, d.blockSize) == Locate(y.table, q, d.blockSize);
      PrefixDecides(m, d, x.tokens, y.tokens, l, p + 1);
      assert Hidden(m, d, x.tokens, l, p) == Hidden(m, d, y.tokens, l, p);
    }
  }

  /** After the writes of a layer, what is cached there is right for every lane. */
  lemma WritesKeepFaith(m: Model, d: Dims, w: World, items: seq<Item>, who: seq<nat>, rows: seq<Row>, l: nat, i: nat, p: nat)
    requires d.blockSize > 0 && WellShaped(m, d) && WorldOk(m, d, w) && l < d.layers && Feeds(w.lanes, items, who)
    requires RowsOf(m, rows, |items|) && BatchReady(m, d, items) && RowsFaithful(m, d, w.lanes, items, who, rows, l)
    requires i < |w.lanes| && p < |w.lanes[i].tokens|
    requires HoldsAt(m, d, w.arena, w.lanes[i], p, l) || Brings(items, who, i, p)
    ensures HoldsAt(m, d, StoredAll(d, w.arena, LayerWrites(m, d, l, rows, items, |items|)), w.lanes[i], p, l)
  {
    hide WellShaped, Hidden, KeyRow, ValueRow, IsWriteOf, LayerWrites, Load, StoredAll, CachedVector;
    var ws, lane := LayerWrites(m, d, l, rows, items, |items|), w.lanes[i];
    LayerWritesAre(m, d, w.lanes, items, who, rows, l, |items|);
    assert Reaches(d, lane.table, p);
    forall h: nat, isValue | h < d.kvHeads
      ensures Load(d, StoredAll(d, w.arena, ws), KeyAt(d, lane.table, p, l, h, isValue))
              == CachedVector(m, d, lane.tokens, p, l, h, isValue)
    {
      var own := WriteOf(m, d, lane, p, l, h, isValue);
      forall x | x in ws && x.key == own.key ensures x.vector == own.vector {
        assert WrittenByRow(m, d, w.lanes, items, who, l, |items|, x);
        var r :| 0 <= r < |items| && LaneOk(m, d, w.lanes[who[r]]) && IsWriteOf(m, d, w.lanes[who[r]], items[r].position, l, x);
        SlotAgrees(m, d, lane, p, w.lanes[who[r]], items[r].position, l, h, isValue, x);
      }
      if Brings(items, who, i, p) {
        var r :| 0 <= r < |who| && who[r] == i && items[r].position == p;
        assert WriteOf(m, d, w.lanes[who[r]], items[r].position, l, h, isValue) in ws;
      }
      AgreeingWrites(d, w.arena, ws, own.key, own.vector);
    }
  }

  lemma OtherLayersKept(m: Model, d: Dims, w: World, items: seq<Item>, who: seq<nat>, rows: seq<Row>, l: nat, i: nat, p: nat, k: nat)
    requires d.blockSize > 0 && WellShaped(m, d) && WorldOk(m, d, w) && l < d.layers && k < d.layers && k != l && Feeds(w.lanes, items, who)
    requires RowsOf(m, rows, |items|) && BatchReady(m, d, items) && RowsFaithful(m, d, w.lanes, items, who, rows, l)
    requires i < |w.lanes| && p < |w.lanes[i].tokens| && HoldsAt(m, d, w.arena, w.lanes[i], p, k)
    ensures HoldsAt(m, d, StoredAll(d, w.arena, LayerWrites(m, d, l, rows, items, |items|)), w.lanes[i], p, k)
  {
    hide WellShaped, Hidden, KeyRow, ValueRow, LayerWrites, Load, StoredAll, CachedVector;
    var ws, lane := LayerWrites(m, d, l, rows, items, |items|), w.lanes[i];
    LayerWritesAre(m, d, w.lanes, items, who, rows, l, |items|);
    assert Reaches(d, lane.table, p);
    forall h: nat, isValue | h < d.kvHeads
      ensures Load(d, StoredAll(d, w.arena, ws), KeyAt(d, lane.table, p, k, h, isValue))
              == CachedVector(m, d, lane.tokens, p, k, h, isValue)
    {
      var key := KeyAt(d, lane.table, p, k, h, isValue);
      forall x | x in ws ensures x.key != key {
        assert WrittenByRow(m, d, w.lanes, items, who, l, |items|, x);
        var r :| 0 <= r < |items| && LaneOk(m, d, w.lanes[who[r]]) && IsWriteOf(m, d, w.lanes[who[r]], items[r].position, l, x);
      }
      AgreeingWrites(d, w.arena, ws, key, Load(d, w.arena, key));
    }
  }

  // ----- A layer over the batch -----

  /** Where the cache is right up to a position, gathering it gives the contiguous rows. */
  lemma GatheredIsSplit(m: Model, d: Dims, arena: seq<Float>, lane: Lane, l: nat, len: nat)
    requires d.blockSize > 0 && WellShaped(m, d) && IsArena(d, arena) && LaneOk(m, d, lane) && l < d.layers && len <= |lane.tokens|
    requires forall p: nat :: p < len ==> HoldsAt(m, d, arena, lane, p, l)
    ensures AllMapped(d, lane.table, len, l)
    ensures Gathered(d, arena, lane.table, len, l, false) == Split(d, Keys(m, d, lane.tokens, l, len))
    ensures Gathered(d, arena, lane.table, len, l, true) == Split(d, Values(m, d, lane.tokens, l, len))
  {
    hide WellShaped, Hidden, KeyRow, ValueRow, Load, HeadSlice;
    forall p: nat | p < len ensures Mapped(d, lane.table, p, l) {
      assert Reaches(d, lane.table, p);
    }
    var keys, values := Keys(m, d, lane.tokens, l, len), Values(m, d, lane.tokens, l, len);
    forall h | 0 <= h < d.kvHeads
      ensures GatheredHead(d, arena, lane.table, len, l, h, false) == Split(d, keys)[h]
      ensures GatheredHead(d, arena, lane.table, len, l, h, true) == Split(d, values)[h]
    {
      forall p | 0 <= p < len
        ensures GatheredHead(d, arena, lane.table, len, l, h, false)[p] == Split(d, keys)[h][p]
        ensures GatheredHead(d, arena, lane.table, len, l, h, true)[p] == Split(d, values)[h][p]
      {
        assert HoldsAt(m, d, arena, lane, p, l);
        assert Load(d, arena, KeyAt(d, lane.table, p, l, h, false)) == CachedVector(m, d, lane.tokens, p, l, h, false);
        assert Load(d, arena, KeyAt(d, lane.table, p, l, h, true)) == CachedVector(m, d, lane.tokens, p, l, h, true);
      }
    }
  }

  /** Position p of lane i is cached at layer k before layer l runs: since earlier, or by this batch. */
  ghost predicate Settled(w: World, items: seq<Item>, who: seq<nat>, i: int, p: nat, k: nat, l: nat)
    requires |who| == |items| && |w.cached| == |w.lanes|
  {
    0 <= i < |w.lanes| && p < |w.lanes[i].tokens| && (p < w.cached[i] || (k < l && Brings(items, who, i, p)))
  }

  ghost predicate StageFaithful(m: Model, d: Dims, w: World, items: seq<Item>, who: seq<nat>, s: Stage, l: nat)
    requires WellShaped(m, d) && WorldOk(m, d, w) && Feeds(w.lanes, items, who) && l <= d.layers && StageOk(m, d, items, s)
  {
    && RowsFaithful(m, d, w.lanes, items, who, s.rows, l)
    && forall i, p: nat, k: nat :: Settled(w, items, who, i, p, k, l) && k < d.layers ==>
         HoldsAt(m, d, s.arena, w.lanes[i], p, k)
  }

  /** A row's position and all before it are cached or in the batch. */
  lemma RowIsCovered(w: World, items: seq<Item>, who: seq<nat>, r: nat, p: nat)
    requires |w.cached| == |w.lanes| && Feeds(w.lanes, items, who) && Covers(w, items, who)
    requires r < |items| && p <= items[r].position
    ensures p < w.cached[who[r]] || Brings(items, who, who[r], p)
  {
    assert Fed(who, who[r]);
  }

  lemma {:induction false} StagesFaithful(m: Model, d: Dims, w: World, items: seq<Item>, who: seq<nat>, l: nat)
    requires d.blockSize > 0 && WellShaped(m, d) && Faithful(m, d, w) && Feeds(w.lanes, items, who) && Covers(w, items, who)
    requires l <= d.layers && BatchReady(m, d, items)
    ensures StageFaithful(m, d, w, items, who, StageAt(m, d, items, w.arena, l), l)
  {
    hide WellShaped, Hidden, LayerStage, HoldsAt, Brings;
    if l == 0 {
      EmbeddedFaithful(m, d, w.lanes, items, who);
    } else {
      StagesFaithful(m, d, w, items, who, l - 1);
      LayerFaithful(m, d, w, items, who, StageAt(m, d, items, w.arena, l - 1), l - 1);
    }
  }

  lemma EmbeddedFaithful(m: Model, d: Dims, lanes: seq<Lane>, items: seq<Item>, who: seq<nat>)
    requires WellShaped(m, d) && Feeds(lanes, items, who) && LanesOk(m, d, lanes) && BatchReady(m, d, items)
    ensures RowsFaithful(m, d, lanes, items, who, Embedded(m, d, items), 0)
  {
    forall r | 0 <= r < |items|
      ensures LaneOk(m, d, lanes[who[r]])
              && Embedded(m, d, items)[r] == Hidden(m, d, lanes[who[r]].tokens, 0, items[r].position)
    {
      assert LaneOk(m, d, lanes[who[r]]);
    }
  }

  lemma LayerFaithful(m: Model, d: Dims, w: World, items: seq<Item>, who: seq<nat>, s: Stage, l: nat)
    requires d.blockSize > 0 && WellShaped(m, d) && Faithful(m, d, w) && Feeds(w.lanes, items, who) && Covers(w, items, who)
    requires l < d.layers && BatchReady(m, d, items) && StageOk(m, d, items, s) && StageFaithful(m, d, w, items, who, s, l)
    ensures StageFaithful(m, d, w, items, who, LayerStage(m, d, l, items, s), l + 1)
  {
    hide WellShaped, Hidden, HoldsAt, Brings, LayerWrites, Covers, AttendedRow, NextRow, RowsFaithful;
    var t, now := LayerStage(m, d, l, items, s), w.(arena := s.arena);
    forall i, p: nat, k: nat | Settled(w, items, who, i, p, k, l + 1) && k < d.layers
      ensures HoldsAt(m, d, t.arena, w.lanes[i], p, k)
    {
      assert k != l ==> Settled(w, items, who, i, p, k, l);
      assert p < w.cached[i] ==> Settled(w, items, who, i, p, k, l);
      if k == l {
        WritesKeepFaith(m, d, now, items, who, s.rows, l, i, p);
      } else {
        OtherLayersKept(m, d, now, items, who, s.rows, l, i, p, k);
      }
    }
    LayerRowsFaithful(m, d, w, items, who, s, l);
  }

  lemma LayerRowsFaithful(m: Model, d: Dims, w: World, items: seq<Item>, who: seq<nat>, s: Stage, l: nat)
    requires d.blockSize > 0 && WellShaped(m, d) && WorldOk(m, d, w) && Feeds(w.lanes, items, who) && Covers(w, items, who)
    requires l < d.layers && BatchReady(m, d, items) && StageOk(m, d, items, s)
    requires RowsFaithful(m, d, w.lanes, items, who, s.rows, l)
    requires forall i, p: nat :: Settled(w, items, who, i, p, l, l + 1) ==>
               HoldsAt(m, d, LayerStage(m, d, l, items, s).arena, w.lanes[i], p, l)
    ensures RowsFaithful(m, d, w.lanes, items, who, LayerStage(m, d, l, items, s).rows, l + 1)
  {
    hide WellShaped, HoldsAt, Brings, Covers, LayerWrites, NextRow, Gathered, Split, Keys, Values, QueryRow, AttendHeads, AllApart;
    var t := LayerStage(m, d, l, items, s);
    forall r | 0 <= r < |items|
      ensures LaneOk(m, d, w.lanes[who[r]])
              && t.rows[r] == Hidden(m, d, w.lanes[who[r]].tokens, l + 1, items[r].position)
    {
      var lane, item := w.lanes[who[r]], items[r];
      assert LaneOk(m, d, lane) && ItemReady(m, d, item);
      forall p: nat | p < item.position + 1 ensures HoldsAt(m, d, t.arena, lane, p, l) {
        RowIsCovered(w, items, who, r, p);
        assert Settled(w, items, who, who[r], p, l, l + 1);
      }
      GatheredIsSplit(m, d, t.arena, lane, l, item.position + 1);
    }
  }

  // ----- One forward pass -----

  function Who(b: Batch, lane: seq<nat>): (who: seq<nat>)
    requires Aligned(b) && |lane| == |b.ids|
    ensures |who| == |b.tokens|
  {
    seq(|b.tokens|, r requires 0 <= r < |b.tokens| => lane[Owners(b.counts)[r]])
  }

  /** A batch that continues lanes: every sequence brings at least one token, the last of its lane's history last. */
  ghost predicate Continues(w: World, b: Batch, lane: seq<nat>)
    requires |w.cached| == |w.lanes|
  {
    && Aligned(b) && b.tokens != [] && |lane| == |b.ids|
    && (forall i :: 0 <= i < |b.counts| ==> b.counts[i] > 0)
    && Feeds(w.lanes, Items(b), Who(b, lane))
    && Covers(w, Items(b), Who(b, lane))
    && (forall i :: 0 <= i < |lane| ==> lane[i] < |w.lanes| && EndsLane(w, b, lane, i))
  }

  ghost predicate EndsLane(w: World, b: Batch, lane: seq<nat>, i: nat)
    requires Aligned(b) && i < |lane| == |b.ids| && lane[i] < |w.lanes|
  {
    0 <= LastRow(b.counts, i) < |b.positions| && b.positions[LastRow(b.counts, i)] == |w.lanes[lane[i]].tokens| - 1
  }

  ghost function CachedAfter(w: World, who: seq<nat>): (c: seq<nat>)
    requires |w.cached| == |w.lanes|
    ensures |c| == |w.lanes|
  {
    seq(|w.lanes|, i requires 0 <= i < |w.lanes| => if Fed(who, i) then |w.lanes[i].tokens| else w.cached[i])
  }

  ghost function AfterForward(m: Model, d: Dims, w: World, b: Batch, lane: seq<nat>): World
    requires WellShaped(m, d) && WorldOk(m, d, w) && Runs(m, d, b) && |lane| == |b.ids|
  {
    World(ArenaAfter(m, d, b, w.arena), w.lanes, CachedAfter(w, Who(b, lane)))
  }

  lemma ContinuesRuns(m: Model, d: Dims, w: World, b: Batch, lane: seq<nat>)
    requires WellShaped(m, d) && WorldOk(m, d, w) && Continues(w, b, lane)
    ensures Runs(m, d, b)
  {
    FedIsReady(m, d, w.lanes, Items(b), Who(b, lane));
  }

  /** The cache serves every lane as before, and those in the batch up to their last token. */
  lemma ForwardKeepsFaith(m: Model, d: Dims, w: World, b: Batch, lane: seq<nat>)
    requires d.blockSize > 0 && WellShaped(m, d) && Faithful(m, d, w) && Continues(w, b, lane) && Runs(m, d, b)
    ensures Faithful(m, d, AfterForward(m, d, w, b, lane))
  {
    hide WellShaped, HoldsAt, Brings, StageAt, RowsFaithful, Runs, ArenaAfter;
    var items, who, after := Items(b), Who(b, lane), AfterForward(m, d, w, b, lane);
    assert BatchReady(m, d, items) && ArenaAfter(m, d, b, w.arena) == StageAt(m, d, items, w.arena, d.layers).arena by {
      RunsReady(m, d, b, w.arena);
    }
    StagesFaithful(m, d, w, items, who, d.layers);
    forall i, p: nat, l: nat | 0 <= i < |w.lanes| && p < after.cached[i] && l < d.layers
      ensures HoldsAt(m, d, after.arena, w.lanes[i], p, l)
    {
      assert Settled(w, items, who, i, p, l, d.layers);
    }
  }

  lemma RunsReady(m: Model, d: Dims, b: Batch, arena: seq<Float>)
    requires WellShaped(m, d) && Runs(m, d, b) && b.tokens != [] && IsArena(d, arena)
    ensures BatchReady(m, d, Items(b))
    ensures ArenaAfter(m, d, b, arena) == StageAt(m, d, Items(b), arena, d.layers).arena
  {
  }

  lemma LogitsOfLastRow(m: Model, d: Dims, b: Batch, arena: seq<Float>, i: nat)
    requires WellShaped(m, d) && Runs(m, d, b) && b.tokens != [] && IsArena(d, arena) && i < |b.ids|
    ensures BatchReady(m, d, Items(b)) && 0 <= LastRow(b.counts, i) < |b.tokens|
    ensures |Logits(m, d, b, arena)| == |b.ids|
    ensures Logits(m, d, b, arena)[i] == LogitsRow(m, d, StageAt(m, d, Items(b), arena, d.layers).rows[LastRow(b.counts, i)])
  {
    hide WellShaped, StageAt, LogitsRow, BatchReady;
    LastRowIsOwned(b.counts, i);
  }

  lemma LastRowOfLane(w: World, b: Batch, lane: seq<nat>, i: nat)
    requires |w.cached| == |w.lanes| && Continues(w, b, lane) && i < |b.ids|
    ensures var r := LastRow(b.counts, i);
            && 0 <= r < |b.tokens| && Who(b, lane)[r] == lane[i] < |w.lanes|
            && Items(b)[r].position == |w.lanes[lane[i]].tokens| - 1
  {
    LastRowIsOwned(b.counts, i);
    assert EndsLane(w, b, lane, i);
  }

  /** The logits of each sequence are those of its whole history, recomputed from its tokens alone. */
  lemma ForwardRecomputes(m: Model, d: Dims, w: World, b: Batch, lane: seq<nat>, i: nat)
    requires d.blockSize > 0 && WellShaped(m, d) && Faithful(m, d, w) && Continues(w, b, lane) && Runs(m, d, b) && i < |b.ids|
    ensures lane[i] < |w.lanes| && LaneOk(m, d, w.lanes[lane[i]]) && w.lanes[lane[i]].tokens != []
    ensures |Logits(m, d, b, w.arena)| == |b.ids|
    ensures Logits(m, d, b, w.arena)[i] == Recomputed(m, d, w.lanes[lane[i]].tokens)
  {
    hide WellShaped, HoldsAt, StageAt, LogitsRow, Covers, Logits, LastRow, Items, Who, Hidden, BatchReady;
    var items, who, r := Items(b), Who(b, lane), LastRow(b.counts, i);
    LogitsOfLastRow(m, d, b, w.arena, i);
    LastRowOfLane(w, b, lane, i);
    StagesFaithful(m, d, w, items, who, d.layers);
    assert LaneOk(m, d, w.lanes[who[r]]);
  }

  // ----- Runs -----

  datatype Move =
    | Forward(b: Batch, lane: seq<nat>)
    | Extend(i: nat, tokens: seq<TokenId>, blocks: seq<BlockId>)
    | Admit(newcomer: Lane, source: nat, shared: nat)
    | Forget(i: nat)

  /** A new lane may claim a cached prefix that an old one holds in the very same slots. */
  ghost predicate Adopts(d: Dims, w: World, lane: Lane, source: nat, shared: nat)
    requires d.blockSize > 0 && |w.cached| == |w.lanes|
  {
    shared == 0 ||
    (&& source < |w.lanes| && shared <= w.cached[source] <= |w.lanes[source].tokens| && shared <= |lane.tokens|
     && lane.tokens[..shared] == w.lanes[source].tokens[..shared]
     && forall p: nat :: p < shared ==> Locate(lane.table, p, d.blockSize) == Locate(w.lanes[source].table, p, d.blockSize))
  }

  ghost predicate Allowed(m: Model, d: Dims, w: World, move: Move)
    requires WellShaped(m, d) && WorldOk(m, d, w)
  {
    match move
    case Forward(b, lane) => Continues(w, b, lane)
    case Extend(i, tokens, blocks) =>
      i < |w.lanes| && LanesOk(m, d, Extended(w, i, tokens, blocks).lanes) && AllApart(d, Extended(w, i, tokens, blocks).lanes)
    case Admit(lane, source, shared) =>
      LanesOk(m, d, w.lanes + [lane]) && AllApart(d, w.lanes + [lane]) && Adopts(d, w, lane, source, shared)
    case Forget(i) => i < |w.lanes|
  }

  function Extended(w: World, i: nat, tokens: seq<TokenId>, blocks: seq<BlockId>): World
    requires i < |w.lanes|
  {
    w.(lanes := w.lanes[i := Lane(w.lanes[i].tokens + tokens, w.lanes[i].table + blocks)])
  }

  ghost function Moved(m: Model, d: Dims, w: World, move: Move): World
    requires WellShaped(m, d) && WorldOk(m, d, w)
  {
    if !Allowed(m, d, w, move) then w
    else
      match move
      case Forward(b, lane) =>
        ContinuesRuns(m, d, w, b, lane);
        AfterForward(m, d, w, b, lane)
      case Extend(i, tokens, blocks) => Extended(w, i, tokens, blocks)
      case Admit(lane, source, shared) => World(w.arena, w.lanes + [lane], w.cached + [shared])
      case Forget(i) => World(w.arena, w.lanes[..i] + w.lanes[i + 1..], w.cached[..i] + w.cached[i + 1..])
  }

  /** What one lane has cached serves another with the same slot and history there. */
  lemma HoldsTransfers(m: Model, d: Dims, arena: seq<Float>, x: Lane, y: Lane, p: nat, l: nat)
    requires d.blockSize > 0 && WellShaped(m, d) && IsArena(d, arena) && LaneOk(m, d, x) && LaneOk(m, d, y) && l < d.layers
    requires p < |x.tokens| && p < |y.tokens| && x.tokens[..p + 1] == y.tokens[..p + 1]
    requires Locate(x.table, p, d.blockSize) == Locate(y.table, p, d.blockSize)
    requires HoldsAt(m, d, arena, x, p, l)
    ensures HoldsAt(m, d, arena, y, p, l)
  {
    hide WellShaped, Hidden, KeyRow, ValueRow, Load;
    assert Reaches(d, x.table, p) && Reaches(d, y.table, p);
    PrefixDecides(m, d, x.tokens, y.tokens, l, p + 1);
    assert Hidden(m, d, x.tokens, l, p) == Hidden(m, d, y.tokens, l, p);
    forall h: nat, isValue | h < d.kvHeads
      ensures Load(d, arena, KeyAt(d, y.table, p, l, h, isValue)) == CachedVector(m, d, y.tokens, p, l, h, isValue)
    {
      assert Load(d, arena, KeyAt(d, x.table, p, l, h, isValue)) == CachedVector(m, d, x.tokens, p, l, h, isValue);
    }
  }

  lemma ExtendKeepsFaith(m: Model, d: Dims, w: World, i: nat, tokens: seq<TokenId>, blocks: seq<BlockId>)
    requires d.blockSize > 0 && WellShaped(m, d) && Faithful(m, d, w) && Allowed(m, d, w, Extend(i, tokens, blocks))
    ensures Faithful(m, d, Extended(w, i, tokens, blocks))
  {
    hide WellShaped, HoldsAt;
    var after := Extended(w, i, tokens, blocks);
    forall k, p: nat, l: nat | 0 <= k < |w.lanes| && p < w.cached[k] && l < d.layers
      ensures HoldsAt(m, d, w.arena, after.lanes[k], p, l)
    {
      if k == i {
        assert LaneOk(m, d, after.lanes[k]) && LaneOk(m, d, w.lanes[k]);
        assert Reaches(d, w.lanes[k].table, p);
        assert after.lanes[k].tokens[..p + 1] == w.lanes[k].tokens[..p + 1];
        HoldsTransfers(m, d, w.arena, w.lanes[k], after.lanes[k], p, l);
      }
    }
  }

  lemma AdmitKeepsFaith(m: Model, d: Dims, w: World, lane: Lane, source: nat, shared: nat)
    requires d.blockSize > 0 && WellShaped(m, d) && Faithful(m, d, w) && Allowed(m, d, w, Admit(lane, source, shared))
    ensures Faithful(m, d, World(w.arena, w.lanes + [lane], w.cached + [shared]))
  {
    hide WellShaped, HoldsAt, AllApart, LaneOk;
    var after := World(w.arena, w.lanes + [lane], w.cached + [shared]);
    assert LaneOk(m, d, after.lanes[|w.lanes|]);
    forall k, p: nat, l: nat | 0 <= k < |after.lanes| && p < after.cached[k] && l < d.layers
      ensures LaneOk(m, d, after.lanes[k]) && HoldsAt(m, d, w.arena, after.lanes[k], p, l)
    {
      if k == |w.lanes| {
        assert lane.tokens[..p + 1] == lane.tokens[..shared][..p + 1];
        assert w.lanes[source].tokens[..p + 1] == w.lanes[source].tokens[..shared][..p + 1];
        HoldsTransfers(m, d, w.arena, w.lanes[source], lane, p, l);
      } else {
        assert after.lanes[k] == w.lanes[k];
      }
    }
  }

  lemma ForgetKeepsFaith(m: Model, d: Dims, w: World, i: nat)
    requires WellShaped(m, d) && Faithful(m, d, w) && i < |w.lanes|
    ensures Faithful(m, d, World(w.arena, w.lanes[..i] + w.lanes[i + 1..], w.cached[..i] + w.cached[i + 1..]))
  {
    hide WellShaped, HoldsAt, Apart, LaneOk;
    var after := World(w.arena, w.lanes[..i] + w.lanes[i + 1..], w.cached[..i] + w.cached[i + 1..]);
    assert forall k :: 0 <= k < |after.lanes| ==>
        after.lanes[k] == w.lanes[if k < i then k else k + 1] && after.cached[k] == w.cached[if k < i then k else k + 1];
  }

  lemma MoveKeepsFaith(m: Model, d: Dims, w: World, move: Move)
    requires d.blockSize > 0 && WellShaped(m, d) && Faithful(m, d, w)
    ensures Faithful(m, d, Moved(m, d, w, move))
  {
    hide WellShaped, Faithful, Continues, AfterForward, Extended;
    FaithfulIsOk(m, d, w);
    if Allowed(m, d, w, move) {
      match move
      case Forward(b, lane) =>
        ContinuesRuns(m, d, w, b, lane);
        ForwardKeepsFaith(m, d, w, b, lane);
      case Extend(i, tokens, blocks) => ExtendKeepsFaith(m, d, w, i, tokens, blocks);
      case Admit(lane, source, shared) => AdmitKeepsFaith(m, d, w, lane, source, shared);
      case Forget(i) => ForgetKeepsFaith(m, d, w, i);
    }
  }

  lemma FaithfulIsOk(m: Model, d: Dims, w: World)
    requires WellShaped(m, d) && Faithful(m, d, w)
    ensures WorldOk(m, d, w)
  {
  }

  ghost function RunWorld(m: Model, d: Dims, w: World, moves: seq<Move>): (r: World)
    requires WellShaped(m, d) && Faithful(m, d, w)
    ensures Faithful(m, d, r)
    decreases |moves|
  {
    if moves == [] then w
    else
      MoveKeepsFaith(m, d, w, moves[0]);
      RunWorld(m, d, Moved(m, d, w, moves[0]), moves[1..])
  }

  lemma EmptyWorld(m: Model, d: Dims, arena: seq<Float>)
    requires WellShaped(m, d) && IsArena(d, arena)
    ensures Faithful(m, d, World(arena, [], []))
  {
  }

  /** The world after a run over an arena that serves nobody yet, whatever it contains. */
  ghost function Reached(m: Model, d: Dims, arena: seq<Float>, moves: seq<Move>): (w: World)
    requires WellShaped(m, d) && IsArena(d, arena)
    ensures Faithful(m, d, w)
  {
    EmptyWorld(m, d, arena);
    RunWorld(m, d, World(arena, [], []), moves)
  }

  /**
   * After any run of forward passes over any batches, with lanes that come, grow by any
   * chunks, share cached prefixes and go: each sequence of the next batch gets the logits
   * that recomputing its whole history would give.
   */
  lemma CachedExecutionIsRecomputation(m: Model, d: Dims, arena: seq<Float>, moves: seq<Move>, b: Batch, lane: seq<nat>, i: nat)
    requires WellShaped(m, d) && IsArena(d, arena)
    requires Continues(Reached(m, d, arena, moves), b, lane) && i < |b.ids|
    ensures var w := Reached(m, d, arena, moves);
            && Runs(m, d, b)
            && lane[i] < |w.lanes| && TokensOk(m, w.lanes[lane[i]].tokens) && w.lanes[lane[i]].tokens != []
            && |Logits(m, d, b, w.arena)| == |b.ids|
            && Logits(m, d, b, w.arena)[i] == Recomputed(m, d, w.lanes[lane[i]].tokens)
  {
    hide Reached, Continues, Logits, Recomputed;
    var w := Reached(m, d, arena, moves);
    ContinuesRuns(m, d, w, b, lane);
    ForwardRecomputes(m, d, w, b, lane, i);
  }
}
