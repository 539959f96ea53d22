// Dense tensor operations, with the arithmetic of f32 left open.
//
// Every operation acts on each row of its input by itself, in a fixed order of scalar
// operations; that is all the forward pass needs. Weights never change and are values;
// activations are matrices updated in place.
module Tensors {
  import opened Prelude
  import opened Arithmetic

  /** The bit pattern of an f32. */
  newtype Float = x: int | 0 <= x < 0x1_0000_0000

  type Row = seq<Float>

  /** Scalar arithmetic; any functions at all. `rmsScale` is the reciprocal root mean square of a row. */
  datatype Arith = Arith(
    zero: Float,
    negInfinity: Float,
    add: (Float, Float) -> Float,
    sub: (Float, Float) -> Float,
    mul: (Float, Float) -> Float,
    div: (Float, Float) -> Float,
    max: (Float, Float) -> Float,
    exp: Float -> Float,
    silu: Float -> Float,
    rmsScale: Row -> Float,
    uniform: nat -> Float,
    scoreScale: nat -> Float,
    isZero: Float -> bool,
    isFinite: Float -> bool,
    isPositive: Float -> bool)

  /** A weight matrix, one row for each output feature. */
  datatype Weight = Weight(rows: seq<Row>, cols: nat)
  {
    ghost predicate Valid() {
      forall i :: 0 <= i < |rows| ==> |rows[i]| == cols
    }
  }

  class Matrix {
    const rows: nat
    const cols: nat
    const data: array<Float>

    predicate Valid() {
      data.Length == rows * cols
    }

    function Row(i: nat): (r: Row)
      requires Valid() && i < rows
      reads data
      ensures |r| == cols
    {
      RowFits(i, rows, cols);
      data[i * cols..(i + 1) * cols]
    }

    constructor Zeros(rows: nat, cols: nat, zero: Float)
      ensures Valid() && this.rows == rows && this.cols == cols && fresh(data)
      ensures forall i :: 0 <= i < rows ==> Row(i) == seq(cols, _ => zero)
    {
      this.rows := rows;
      this.cols := cols;
      data := new Float[rows * cols](_ => zero);
      new;
      forall i | 0 <= i < rows ensures Row(i) == seq(cols, _ => zero) {
        RowFits(i, rows, cols);
      }
    }

    /** A matrix of its own with the rows of `other`. */
    constructor Clone(other: Matrix)
      requires other.Valid()
      ensures Valid() && rows == other.rows && cols == other.cols && fresh(data)
      ensures forall i :: 0 <= i < rows ==> Row(i) == other.Row(i)
    {
      rows := other.rows;
      cols := other.cols;
      data := new Float[other.data.Length](k requires 0 <= k < other.data.Length reads other.data => other.data[k]);
      new;
      assert data[..] == other.data[..];
      forall i | 0 <= i < rows ensures Row(i) == other.Row(i) {
        RowFits(i, rows, cols);
        assert Row(i) == data[..][i * cols..(i + 1) * cols];
        assert other.Row(i) == other.data[..][i * cols..(i + 1) * cols];
      }
    }

    /** Element (i, j) lives in row i only, whatever the shape. */
    method Set(i: nat, j: nat, v: Float)
      requires Valid() && i < rows && j < cols
      modifies data
      ensures Row(i) == old(Row(i))[j := v]
      ensures forall k :: 0 <= k < rows && k != i ==> Row(k) == old(Row(k))
    {
      ghost var before := data[..];
      RowFits(i, rows, cols);
      data[i * cols + j] := v;
      forall k | 0 <= k < rows ensures Row(k) == if k == i then old(Row(i))[j := v] else old(Row(k)) {
        RowFits(k, rows, cols);
        RowsApart(i, k, cols);
        SliceOfUpdate(before, k * cols, cols, i * cols + j, v);
        assert data[..] == before[i * cols + j := v];
        assert Row(k) == data[..][k * cols..k * cols + cols];
      }
    }
  }

  lemma SliceOfUpdate(s: seq<Float>, start: nat, len: nat, at: nat, v: Float)
    requires start + len <= |s| && at < |s|
    ensures s[at := v][start..start + len]
            == if start <= at < start + len then s[start..start + len][at - start := v] else s[start..start + len]
  {
  }

  // ----- linear -----

  /** The first n products, summed from the left. */
  function Dot(a: Arith, x: Row, w: Row, n: nat): Float
    requires n <= |x| && n <= |w|
  {
    if n == 0 then a.zero else a.add(Dot(a, x, w, n - 1), a.mul(x[n - 1], w[n - 1]))
  }

  function LinearRow(a: Arith, x: Row, w: Weight, bias: Option<Row>): (y: Row)
    requires w.Valid() && |x| == w.cols && (bias.Some? ==> |bias.value| == |w.rows|)
    ensures |y| == |w.rows|
  {
    seq(|w.rows|, j requires 0 <= j < |w.rows| =>
      a.add(Dot(a, x, w.rows[j], w.cols), if bias.Some? then bias.value[j] else a.zero))
  }

  method Linear(a: Arith, x: Matrix, w: Weight, bias: Option<Row>) returns (r: Option<Matrix>)
    requires x.Valid() && w.Valid()
    ensures r.Some? <==> x.cols == w.cols && (bias.Some? ==> |bias.value| == |w.rows|)
    ensures r.Some? ==>
              var out := r.value;
              && out.Valid() && out.rows == x.rows && out.cols == |w.rows| && fresh(out) && fresh(out.data)
              && forall i :: 0 <= i < x.rows ==> out.Row(i) == LinearRow(a, x.Row(i), w, bias)
  {
    if x.cols != w.cols || (bias.Some? && |bias.value| != |w.rows|) {
      return None;
    }
    var out := new Matrix.Zeros(x.rows, |w.rows|, a.zero);
    for i := 0 to x.rows
      invariant forall k :: 0 <= k < i ==> out.Row(k) == LinearRow(a, x.Row(k), w, bias)
    {
      var xr := x.Row(i);
      for j := 0 to |w.rows|
        invariant forall k :: 0 <= k < i ==> out.Row(k) == LinearRow(a, x.Row(k), w, bias)
        invariant forall k :: 0 <= k < j ==> out.Row(i)[k] == LinearRow(a, xr, w, bias)[k]
      {
        var wr := w.rows[j];
        var acc := a.zero;
        for k := 0 to w.cols
          invariant acc == Dot(a, xr, wr, k)
        {
          acc := a.add(acc, a.mul(xr[k], wr[k]));
        }
        out.Set(i, j, a.add(acc, if bias.Some? then bias.value[j] else a.zero));
      }
    }
    r := Some(out);
  }

  // ----- rms_norm and swiglu -----

  function RmsNormRow(a: Arith, x: Row, w: Row): (y: Row)
    requires |w| == |x|
    ensures |y| == |x|
  {
    seq(|x|, j requires 0 <= j < |x| => a.mul(a.mul(x[j], a.rmsScale(x)), w[j]))
  }

  method RmsNorm(a: Arith, x: Matrix, w: Row) returns (ok: bool)
    requires x.Valid()
    modifies x.data
    ensures ok <==> |w| == x.cols
    ensures ok ==> forall i :: 0 <= i < x.rows ==> x.Row(i) == RmsNormRow(a, old(x.Row(i)), w)
    ensures !ok ==> forall i :: 0 <= i < x.rows ==> x.Row(i) == old(x.Row(i))
  {
    if |w| != x.cols {
      return false;
    }
    for i := 0 to x.rows
      invariant forall k :: 0 <= k < i ==> x.Row(k) == RmsNormRow(a, old(x.Row(k)), w)
      invariant forall k :: i <= k < x.rows ==> x.Row(k) == old(x.Row(k))
    {
      var was := x.Row(i);
      var scale := a.rmsScale(was);
      for j := 0 to x.cols
        invariant forall k :: 0 <= k < i ==> x.Row(k) == RmsNormRow(a, old(x.Row(k)), w)
        invariant forall k :: i < k < x.rows ==> x.Row(k) == old(x.Row(k))
        invariant forall k :: 0 <= k < x.cols ==> x.Row(i)[k] == if k < j then RmsNormRow(a, was, w)[k] else was[k]
      {
        x.Set(i, j, a.mul(a.mul(x.Row(i)[j], scale), w[j]));
      }
    }
    ok := true;
  }

  function SwiGluRow(a: Arith, gate: Row, up: Row): (y: Row)
    requires |up| == |gate|
    ensures |y| == |gate|
  {
    seq(|gate|, j requires 0 <= j < |gate| => a.mul(a.silu(gate[j]), up[j]))
  }

  method SwiGlu(a: Arith, gate: Matrix, up: Matrix) returns (ok: bool)
    requires gate.Valid() && up.Valid() && gate.data != up.data
    modifies gate.data
    ensures ok <==> gate.rows == up.rows && gate.cols == up.cols
    ensures ok ==> forall i :: 0 <= i < gate.rows ==> gate.Row(i) == SwiGluRow(a, old(gate.Row(i)), up.Row(i))
    ensures !ok ==> forall i :: 0 <= i < gate.rows ==> gate.Row(i) == old(gate.Row(i))
  {
    if gate.rows != up.rows || gate.cols != up.cols {
      return false;
    }
    for i := 0 to gate.rows
      invariant forall k :: 0 <= k < i ==> gate.Row(k) == SwiGluRow(a, old(gate.Row(k)), up.Row(k))
      invariant forall k :: i <= k < gate.rows ==> gate.Row(k) == old(gate.Row(k))
    {
      var was := gate.Row(i);
      for j := 0 to gate.cols
        invariant forall k :: 0 <= k < i ==> gate.Row(k) == SwiGluRow(a, old(gate.Row(k)), up.Row(k))
        invariant forall k :: i < k < gate.rows ==> gate.Row(k) == old(gate.Row(k))
        invariant forall k :: 0 <= k < gate.cols ==>
                    gate.Row(i)[k] == if k < j then SwiGluRow(a, was, up.Row(i))[k] else was[k]
      {
        gate.Set(i, j, a.mul(a.silu(gate.Row(i)[j]), up.Row(i)[j]));
      }
    }
    ok := true;
  }

  /** Residual connection: `x` gains `y`, element by element. */
  function SumRow(a: Arith, x: Row, y: Row): (z: Row)
    requires |y| == |x|
    ensures |z| == |x|
  {
    seq(|x|, j requires 0 <= j < |x| => a.add(x[j], y[j]))
  }

  method AddInPlace(a: Arith, x: Matrix, y: Matrix)
    requires x.Valid() && y.Valid() && x.rows == y.rows && x.cols == y.cols && x.data != y.data
    modifies x.data
    ensures forall i :: 0 <= i < x.rows ==> x.Row(i) == SumRow(a, old(x.Row(i)), y.Row(i))
  {
    for i := 0 to x.rows
      invariant forall k :: 0 <= k < i ==> x.Row(k) == SumRow(a, old(x.Row(k)), y.Row(k))
      invariant forall k :: i <= k < x.rows ==> x.Row(k) == old(x.Row(k))
    {
      var was := x.Row(i);
      for j := 0 to x.cols
        invariant forall k :: 0 <= k < i ==> x.Row(k) == SumRow(a, old(x.Row(k)), y.Row(k))
        invariant forall k :: i < k < x.rows ==> x.Row(k) == old(x.Row(k))
        invariant forall k :: 0 <= k < x.cols ==>
                    x.Row(i)[k] == if k < j then SumRow(a, was, y.Row(i))[k] else was[k]
      {
        x.Set(i, j, a.add(x.Row(i)[j], y.Row(i)[j]));
      }
    }
  }

  // ----- softmax -----

  function MaxOf(a: Arith, x: Row, n: nat): Float
    requires n <= |x|
  {
    if n == 0 then a.negInfinity else a.max(MaxOf(a, x, n - 1), x[n - 1])
  }

  function Shifted(a: Arith, x: Row): (y: Row)
    ensures |y| == |x|
  {
    seq(|x|, i requires 0 <= i < |x| => a.exp(a.sub(x[i], MaxOf(a, x, |x|))))
  }

  function Sum(a: Arith, x: Row, n: nat): Float
    requires n <= |x|
  {
    if n == 0 then a.zero else a.add(Sum(a, x, n - 1), x[n - 1])
  }

  function Softmax(a: Arith, x: Row): (y: Row)
    ensures |y| == |x|
  {
    if !a.isFinite(MaxOf(a, x, |x|)) then seq(|x|, _ => a.uniform(|x|))
    else
      var e := Shifted(a, x);
      var sum := Sum(a, e, |e|);
      if a.isPositive(sum) then seq(|e|, i requires 0 <= i < |e| => a.div(e[i], sum)) else e
  }

  method SoftmaxInPlace(a: Arith, x: array<Float>)
    modifies x
    ensures x[..] == Softmax(a, old(x[..]))
  {
    var max := a.negInfinity;
    for i := 0 to x.Length
      invariant max == MaxOf(a, x[..], i)
    {
      max := a.max(max, x[i]);
    }
    if !a.isFinite(max) {
      var uniform := a.uniform(x.Length);
      for i := 0 to x.Length
        invariant forall k :: 0 <= k < i ==> x[k] == uniform
      {
        x[i] := uniform;
      }
      return;
    }
    ghost var e := Shifted(a, x[..]);
    var sum := a.zero;
    for i := 0 to x.Length
      invariant forall k :: 0 <= k < i ==> x[k] == e[k]
      invariant forall k :: i <= k < x.Length ==> x[k] == old(x[k])
      invariant sum == Sum(a, e, i)
    {
      x[i] := a.exp(a.sub(x[i], max));
      sum := a.add(sum, x[i]);
    }
    if a.isPositive(sum) {
      for i := 0 to x.Length
        invariant forall k :: 0 <= k < i ==> x[k] == a.div(e[k], sum)
        invariant forall k :: i <= k < x.Length ==> x[k] == e[k]
      {
        x[i] := a.div(x[i], sum);
      }
    }
  }

  // ----- Rotary position embedding -----

  /** The row once the first n pairs of the head at `at` are rotated. */
  function Turned(a: Arith, row: Row, at: nat, headDim: nat, cos: Row, sin: Row, n: nat): (r: Row)
    requires at + headDim <= |row| && n <= headDim / 2 == |cos| == |sin|
    ensures |r| == |row|
    ensures forall k :: at + n <= k < at + headDim / 2 || at + headDim / 2 + n <= k < |row| || 0 <= k < at ==> r[k] == row[k]
  {
    if n == 0 then row
    else
      var r, i, half := Turned(a, row, at, headDim, cos, sin, n - 1), n - 1, headDim / 2;
      var x0, x1 := r[at + i], r[at + i + half];
      r[at + i := a.sub(a.mul(x0, cos[i]), a.mul(x1, sin[i]))]
      [at + i + half := a.add(a.mul(x0, sin[i]), a.mul(x1, cos[i]))]
  }

  /** Dimension i is paired with dimension i + half, and each pair turns by its own angle. */
  lemma {:induction false} TurnedPairs(a: Arith, row: Row, at: nat, headDim: nat, cos: Row, sin: Row, n: nat)
    requires at + headDim <= |row| && n <= headDim / 2 == |cos| == |sin|
    ensures forall i :: 0 <= i < n ==>
              var r, half := Turned(a, row, at, headDim, cos, sin, n), headDim / 2;
              && r[at + i] == a.sub(a.mul(row[at + i], cos[i]), a.mul(row[at + i + half], sin[i]))
              && r[at + i + half] == a.add(a.mul(row[at + i], sin[i]), a.mul(row[at + i + half], cos[i]))
  {
    if n > 0 {
      TurnedPairs(a, row, at, headDim, cos, sin, n - 1);
    }
  }

  /** The first n heads of a row rotated. */
  function RopeHeads(a: Arith, row: Row, headDim: nat, n: nat, cos: Row, sin: Row): (y: Row)
    requires n * headDim <= |row| && headDim / 2 == |cos| == |sin|
    ensures |y| == |row|
  {
    if n == 0 then row
    else
      RowFits(n - 1, n, headDim);
      Turned(a, RopeHeads(a, row, headDim, n - 1, cos, sin), (n - 1) * headDim, headDim, cos, sin, headDim / 2)
  }

  method ApplyRope(a: Arith, m: Matrix, row: nat, at: nat, headDim: nat, cos: Row, sin: Row) returns (ok: bool)
    requires m.Valid() && row < m.rows && at + headDim <= m.cols
    modifies m.data
    ensures ok <==> headDim / 2 == |cos| == |sin|
    ensures forall k :: 0 <= k < m.rows && k != row ==> m.Row(k) == old(m.Row(k))
    ensures m.Row(row) == if ok then Turned(a, old(m.Row(row)), at, headDim, cos, sin, headDim / 2) else old(m.Row(row))
  {
    hide Matrix.Row, Turned;
    var half := headDim / 2;
    if |cos| != half || |sin| != half {
      return false;
    }
    ghost var was := m.Row(row);
    assert m.Row(row) == Turned(a, was, at, headDim, cos, sin, 0) by {
      NoneTurned(a, was, at, headDim, cos, sin);
    }
    for i := 0 to half
      invariant forall k :: 0 <= k < m.rows && k != row ==> m.Row(k) == old(m.Row(k))
      invariant m.Row(row) == Turned(a, was, at, headDim, cos, sin, i)
    {
      PairTurns(a, was, at, headDim, cos, sin, i);
      TurnPair(a, m, row, at + i, at + i + half, cos[i], sin[i]);
    }
    ok := true;
  }

  lemma NoneTurned(a: Arith, row: Row, at: nat, headDim: nat, cos: Row, sin: Row)
    requires at + headDim <= |row| && headDim / 2 == |cos| == |sin|
    ensures Turned(a, row, at, headDim, cos, sin, 0) == row
  {
  }

  lemma PairTurns(a: Arith, row: Row, at: nat, headDim: nat, cos: Row, sin: Row, i: nat)
    requires at + headDim <= |row| && i < headDim / 2 == |cos| == |sin|
    ensures var r, lo, hi := Turned(a, row, at, headDim, cos, sin, i), at + i, at + i + headDim / 2;
            Turned(a, row, at, headDim, cos, sin, i + 1)
            == r[lo := a.sub(a.mul(r[lo], cos[i]), a.mul(r[hi], sin[i]))]
                [hi := a.add(a.mul(r[lo], sin[i]), a.mul(r[hi], cos[i]))]
  {
  }

  method TurnPair(a: Arith, m: Matrix, row: nat, lo: nat, hi: nat, cos: Float, sin: Float)
    requires m.Valid() && row < m.rows && lo < hi < m.cols
    modifies m.data
    ensures forall k :: 0 <= k < m.rows && k != row ==> m.Row(k) == old(m.Row(k))
    ensures var was := old(m.Row(row));
            m.Row(row) == was[lo := a.sub(a.mul(was[lo], cos), a.mul(was[hi], sin))]
                             [hi := a.add(a.mul(was[lo], sin), a.mul(was[hi], cos))]
  {
    var x0, x1 := m.Row(row)[lo], m.Row(row)[hi];
    m.Set(row, lo, a.sub(a.mul(x0, cos), a.mul(x1, sin)));
    m.Set(row, hi, a.add(a.mul(x0, sin), a.mul(x1, cos)));
  }

  /** Rotates every head of one row for its position. */
  method RopeRow(a: Arith, m: Matrix, row: nat, heads: nat, headDim: nat, cos: Row, sin: Row) returns (ok: bool)
    requires m.Valid() && row < m.rows && heads * headDim <= m.cols
    modifies m.data
    ensures headDim / 2 == |cos| == |sin| ==>
              ok && m.Row(row) == RopeHeads(a, old(m.Row(row)), headDim, heads, cos, sin)
    ensures forall k :: 0 <= k < m.rows && k != row ==> m.Row(k) == old(m.Row(k))
  {
    hide Turned;
    for h := 0 to heads
      invariant h * headDim <= m.cols
      invariant forall k :: 0 <= k < m.rows && k != row ==> m.Row(k) == old(m.Row(k))
      invariant headDim / 2 == |cos| == |sin| ==>
                  m.Row(row) == RopeHeads(a, old(m.Row(row)), headDim, h, cos, sin)
    {
      RowFits(h, heads, headDim);
      assert (h + 1) * headDim == h * headDim + headDim;
      ok := ApplyRope(a, m, row, h * headDim, headDim, cos, sin);
      if !ok {
        return;
      }
    }
    ok := true;
  }
}
