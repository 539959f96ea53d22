// Group-wise asymmetric quantization, over exact reals with the integer casts of the source.
module Quantization {
  import opened Prelude

  const GROUP_SIZE: nat := 128
  const I32_MIN: int := -0x8000_0000
  const I32_MAX: int := 0x7FFF_FFFF

  datatype QuantBits = Int8 | Int4
  {
    function MaxValue(): (m: int)
      ensures m >= 15
    {
      if Int8? then 255 else 15
    }
  }

  /** A weight; a checkpoint may hold infinities and NaN. */
  datatype Weight = Finite(v: real) | NonFinite

  /** The bit pattern of an f32 as an i32, and back. */
  datatype Codec = Codec(toBits: real -> int, fromBits: int -> real)

  datatype QuantizedTensor = QuantizedTensor(
    data: seq<nat>,
    scales: seq<real>,
    zeroPoints: seq<int>,
    numElements: nat,
    bits: QuantBits)

  // ----- Integer casts -----

  /** To the nearest integer, halves away from zero. */
  function Round(x: real): int {
    if x >= 0.0 then (x + 0.5).Floor else -((-x + 0.5).Floor)
  }

  function Saturate(n: int): int {
    if n < I32_MIN then I32_MIN else if n > I32_MAX then I32_MAX else n
  }

  /** Two's complement wrap-around. */
  function Wrap(n: int): int {
    (n - I32_MIN) % 0x1_0000_0000 + I32_MIN
  }

  function Clamp(n: int, m: int): int {
    if n < 0 then 0 else if n > m then m else n
  }

  // ----- Packing -----

  predicate InRange(values: seq<int>, bits: QuantBits) {
    forall i :: 0 <= i < |values| ==> 0 <= values[i] <= bits.MaxValue()
  }

  function Byte(v: int): (b: nat) {
    v % 256
  }

  function PackNibbles(values: seq<int>): seq<nat>
    decreases |values|
  {
    if |values| == 0 then []
    else if |values| == 1 then [Byte(values[0]) % 16]
    else [Byte(values[0]) % 16 + 16 * (Byte(values[1]) % 16)] + PackNibbles(values[2..])
  }

  function Packed(values: seq<int>, bits: QuantBits): seq<nat> {
    match bits
    case Int8 => seq(|values|, i requires 0 <= i < |values| => Byte(values[i]))
    case Int4 => PackNibbles(values)
  }

  function UnpackNibbles(data: seq<nat>, count: nat): seq<int>
    decreases |data|
  {
    if data == [] then []
    else if count <= 1 then [data[0] % 16]
    else if count == 2 then [data[0] % 16, data[0] / 16]
    else [data[0] % 16, data[0] / 16] + UnpackNibbles(data[1..], count - 2)
  }

  function Unpacked(data: seq<nat>, bits: QuantBits, count: nat): seq<int> {
    match bits
    case Int8 => seq(Min(|data|, count), i requires 0 <= i < Min(|data|, count) => data[i])
    case Int4 => UnpackNibbles(data, count)
  }

  lemma {:induction false} NibblesRoundTrip(values: seq<int>)
    requires InRange(values, Int4)
    ensures UnpackNibbles(PackNibbles(values), |values|) == values
    decreases |values|
  {
    hide Byte, UnpackNibbles, PackNibbles;
    if |values| == 0 {
      NothingPacks(values);
      NothingUnpacks([], 0);
    } else if |values| == 1 {
      LastPacks(values[0]);
      assert values == [values[0]];
    } else {
      NibblesRoundTrip(values[2..]);
      NibblesLength(values[2..]);
      PairPacks(values);
      PairUnpacks(values[0] + 16 * values[1], PackNibbles(values[2..]), |values|);
      NibblePair(values[0], values[1]);
      assert values == [values[0], values[1]] + values[2..];
    }
  }

  lemma LastPacks(v: int)
    requires 0 <= v < 16
    ensures UnpackNibbles(PackNibbles([v]), 1) == [v]
  {
  }

  lemma PairPacks(values: seq<int>)
    requires |values| >= 2 && 0 <= values[0] < 16 && 0 <= values[1] < 16
    ensures PackNibbles(values) == [values[0] + 16 * values[1]] + PackNibbles(values[2..])
  {
  }

  lemma NibblePair(lo: int, hi: int)
    requires 0 <= lo < 16 && 0 <= hi < 16
    ensures (lo + 16 * hi) % 16 == lo && (lo + 16 * hi) / 16 == hi
  {
  }

  lemma PairUnpacks(byte: nat, rest: seq<nat>, count: nat)
    requires count >= 2 && (count == 2 ==> rest == [])
    ensures UnpackNibbles([byte] + rest, count) == [byte % 16, byte / 16] + UnpackNibbles(rest, count - 2)
  {
    assert ([byte] + rest)[1..] == rest;
  }

  /** Unpacking undoes packing, in both widths and for any length, odd ones included. */
  lemma PackingRoundTrip(values: seq<int>, bits: QuantBits)
    requires InRange(values, bits)
    ensures Unpacked(Packed(values, bits), bits, |values|) == values
    ensures |Packed(values, bits)| == if bits == Int8 then |values| else (|values| + 1) / 2
  {
    match bits
    case Int8 =>
    case Int4 =>
      NibblesRoundTrip(values);
      NibblesLength(values);
  }

  lemma {:induction false} NibblesLength(values: seq<int>)
    ensures |PackNibbles(values)| == (|values| + 1) / 2
    decreases |values|
  {
    if |values| >= 2 {
      NibblesLength(values[2..]);
    }
  }

  method Pack(values: seq<int>, bits: QuantBits) returns (data: seq<nat>)
    ensures data == Packed(values, bits)
  {
    data := [];
    match bits {
      case Int8 =>
        for i := 0 to |values|
          invariant |data| == i && forall k :: 0 <= k < i ==> data[k] == Byte(values[k])
        {
          data := data + [Byte(values[i])];
        }
      case Int4 =>
        data := PackInt4(values);
    }
  }

  /** Two values to a byte, the low nibble first. */
  method PackInt4(values: seq<int>) returns (data: seq<nat>)
    ensures data == PackNibbles(values)
  {
    hide PackNibbles, Byte;
    data := [];
    var i := 0;
    assert values[0..] == values;
    while i < |values|
      invariant i <= |values|
      invariant data + PackNibbles(values[i..]) == PackNibbles(values)
    {
      NextPairPacks(values, i);
      var lo := Byte(values[i]) % 16;
      var hi := if i + 1 < |values| then Byte(values[i + 1]) % 16 else 0;
      data := data + [lo + 16 * hi];
      i := Min(i + 2, |values|);
    }
    NothingPacks(values[i..]);
  }

  lemma NextPairPacks(values: seq<int>, i: nat)
    requires i < |values|
    ensures PackNibbles(values[i..])
            == [Byte(values[i]) % 16 + 16 * (if i + 1 < |values| then Byte(values[i + 1]) % 16 else 0)]
               + PackNibbles(values[Min(i + 2, |values|)..])
  {
    if i + 1 < |values| {
      assert values[i..][2..] == values[i + 2..];
    }
  }

  lemma NothingPacks(values: seq<int>)
    requires values == []
    ensures PackNibbles(values) == []
  {
  }

  method Unpack(data: seq<nat>, bits: QuantBits, count: nat) returns (out: seq<int>)
    ensures out == Unpacked(data, bits, count)
  {
    out := [];
    match bits {
      case Int8 =>
        for i := 0 to Min(|data|, count)
          invariant |out| == i && forall k :: 0 <= k < i ==> out[k] == data[k]
        {
          out := out + [data[i]];
        }
      case Int4 =>
        out := UnpackInt4(data, count);
    }
  }

  method UnpackInt4(data: seq<nat>, count: nat) returns (out: seq<int>)
    ensures out == UnpackNibbles(data, count)
  {
    hide UnpackNibbles;
    out := [];
    var i := 0;
    assert data[0..] == data;
    while i < |data|
      invariant i <= |data| && (i > 0 ==> |out| < count)
      invariant |out| <= count && out + UnpackNibbles(data[i..], count - |out|) == UnpackNibbles(data, count)
    {
      NextByteUnpacks(data, i, count - |out|);
      out := out + [data[i] % 16];
      if |out| < count {
        out := out + [data[i] / 16];
      }
      if |out| >= count {
        return;
      }
      i := i + 1;
    }
    NothingUnpacks(data[i..], count - |out|);
  }

  lemma NothingUnpacks(data: seq<nat>, count: nat)
    requires data == []
    ensures UnpackNibbles(data, count) == []
  {
  }

  lemma NextByteUnpacks(data: seq<nat>, i: nat, count: nat)
    requires i < |data|
    ensures UnpackNibbles(data[i..], count)
            == if count <= 1 then [data[i] % 16]
               else if count == 2 then [data[i] % 16] + [data[i] / 16]
               else [data[i] % 16] + [data[i] / 16] + UnpackNibbles(data[i + 1..], count - 2)
  {
    assert data[i..][1..] == data[i + 1..];
  }

  // ----- One group -----

  /** Least of a start value and the first n values. */
  function Least(g: seq<real>, start: real, n: nat): (m: real)
    requires n <= |g|
    ensures m <= start && forall i :: 0 <= i < n ==> m <= g[i]
    ensures m == start || m in g[..n]
  {
    if n == 0 then start
    else
      var m := Least(g, start, n - 1);
      if g[n - 1] < m then g[n - 1] else m
  }

  function Greatest(g: seq<real>, start: real, n: nat): (m: real)
    requires n <= |g|
    ensures m >= start && forall i :: 0 <= i < n ==> m >= g[i]
    ensures m == start || m in g[..n]
  {
    if n == 0 then start
    else
      var m := Greatest(g, start, n - 1);
      if g[n - 1] > m then g[n - 1] else m
  }

  function Lowest(g: seq<real>): (m: real)
    requires g != []
    ensures m in g && forall i :: 0 <= i < |g| ==> m <= g[i]
  {
    Least(g, g[0], |g|)
  }

  function Highest(g: seq<real>): (m: real)
    requires g != []
    ensures m in g && forall i :: 0 <= i < |g| ==> m >= g[i]
  {
    Greatest(g, g[0], |g|)
  }

  predicate Constant(g: seq<real>)
    requires g != []
  {
    Highest(g) - Lowest(g) <= 0.0
  }

  function Scale(g: seq<real>, bits: QuantBits): (s: real)
    requires g != [] && !Constant(g)
    ensures s > 0.0
  {
    (Highest(g) - Lowest(g)) / (bits.MaxValue() as real)
  }

  function ZeroPoint(g: seq<real>, bits: QuantBits): int
    requires g != [] && !Constant(g)
  {
    Saturate(Round(-Lowest(g) / Scale(g, bits)))
  }

  function Level(v: real, scale: real, zero: int, bits: QuantBits): (q: int)
    requires scale > 0.0
    ensures 0 <= q <= bits.MaxValue()
  {
    Clamp(Wrap(Saturate(Round(v / scale)) + zero), bits.MaxValue())
  }

  function Value(q: int, scale: real, zero: int): real {
    Wrap(q - zero) as real * scale
  }

  /** The levels, scale and zero point of a group. */
  function GroupLevels(g: seq<real>, bits: QuantBits): (q: seq<int>)
    requires g != []
    ensures |q| == |g| && InRange(q, bits)
  {
    if Constant(g) then seq(|g|, _ => 0)
    else seq(|g|, i requires 0 <= i < |g| => Level(g[i], Scale(g, bits), ZeroPoint(g, bits), bits))
  }

  function GroupScale(g: seq<real>, bits: QuantBits): real
    requires g != []
  {
    if Constant(g) then 0.0 else Scale(g, bits)
  }

  function GroupZero(c: Codec, g: seq<real>, bits: QuantBits): int
    requires g != []
  {
    if Constant(g) then c.toBits(Lowest(g)) else ZeroPoint(g, bits)
  }

  function GroupValues(c: Codec, q: seq<int>, scale: real, zero: int): (v: seq<real>)
    ensures |v| == |q|
  {
    if scale == 0.0 then seq(|q|, _ => c.fromBits(zero))
    else seq(|q|, i requires 0 <= i < |q| => Value(q[i], scale, zero))
  }

  /** A group after the round trip. */
  function GroupBack(c: Codec, g: seq<real>, bits: QuantBits): (v: seq<real>)
    requires g != []
    ensures |v| == |g|
  {
    GroupValues(c, GroupLevels(g, bits), GroupScale(g, bits), GroupZero(c, g, bits))
  }

  // ----- Rounding -----

  lemma RoundIsNear(x: real)
    ensures x - 0.5 <= Round(x) as real <= x + 0.5
  {
  }

  lemma RoundIsOdd(x: real)
    ensures Round(-x) == -Round(x)
  {
  }

  lemma RoundIsMonotone(x: real, y: real)
    requires x <= y
    ensures Round(x) <= Round(y)
  {
  }

  /** Rounding commutes with whole steps but for one unit at a negative half. */
  lemma RoundShift(x: real, m: nat)
    ensures Round(x) + m <= Round(x + m as real) <= Round(x) + m + 1
  {
  }

  // ----- The error bound, in units of the scale -----

  ghost function Abs(x: real): real {
    if x < 0.0 then -x else x
  }

  /** The casts do not saturate beyond a half step: the condition for the error bound. */
  ghost predicate Representable(low: real, high: real) {
    low >= 0.5 + I32_MIN as real && high <= I32_MAX as real + 0.5
  }

  lemma {:induction false} WrapIsExact(n: int)
    requires I32_MIN <= n <= I32_MAX
    ensures Wrap(n) == n
  {
  }

  /** In units of the scale: values between x and x + m, with the zero point of x. */
  ghost function Recovered(v: real, x: real, m: int): int {
    var zero := Saturate(Round(-x));
    Wrap(Clamp(Wrap(Saturate(Round(v)) + zero), m) - zero)
  }

  /** The addition of the zero point never overflows. */
  lemma SumFits(v: real, x: real, m: int)
    requires 15 <= m <= 255 && x <= v <= x + m as real
    ensures I32_MIN <= Saturate(Round(v)) + Saturate(Round(-x)) <= I32_MAX
  {
    RoundIsOdd(x);
    RoundIsMonotone(x, v);
    RoundIsMonotone(v, x + m as real);
    RoundShift(x, m);
  }

  /** Within the representable range the round trip is within half a step, clamp or no clamp. */
  lemma RecoveredIsNear(v: real, x: real, m: int)
    requires 15 <= m <= 255 && x <= v <= x + m as real && Representable(x, x + m as real)
    ensures Abs(Recovered(v, x, m) as real - v) <= 0.5
  {
    RoundIsOdd(x);
    RoundIsMonotone(x, v);
    RoundIsMonotone(v, x + m as real);
    RoundShift(x, m);
    RoundIsNear(v);
    RoundIsNear(x);
    RoundIsNear(x + m as real);
    SumFits(v, x, m);
    var zero := Saturate(Round(-x));
    WrapIsExact(Saturate(Round(v)) + zero);
    var q := Clamp(Saturate(Round(v)) + zero, m);
    WrapIsExact(q - zero);
  }

  /** Beyond the range an end of the group is off by more than half a step. */
  lemma RecoveredIsFar(x: real, m: int)
    requires 15 <= m <= 255 && !Representable(x, x + m as real)
    ensures Abs(Recovered(x, x, m) as real - x) > 0.5 || Abs(Recovered(x + m as real, x, m) as real - (x + m as real)) > 0.5
  {
    RoundIsOdd(x);
    RoundShift(x, m);
    RoundIsNear(x);
    RoundIsNear(x + m as real);
    var y := x + m as real;
    SumFits(x, x, m);
    SumFits(y, x, m);
    WrapIsExact(Saturate(Round(x)) + Saturate(Round(-x)));
    WrapIsExact(Saturate(Round(y)) + Saturate(Round(-x)));
  }

  // ----- A group after the round trip -----

  lemma QuotientOfProduct(m: real, s: real)
    requires s > 0.0
    ensures (m * s) / s == m
  {
  }

  lemma QuotientOfSum(a: real, b: real, s: real)
    requires s > 0.0
    ensures (a + b) / s == a / s + b / s
    ensures -a / s == -(a / s)
  {
    QuotientOfProduct(a / s + b / s, s);
    assert (a / s) * s == a && (b / s) * s == b;
    assert (a / s + b / s) * s == (a / s) * s + (b / s) * s;
  }

  /** The ends of a group in units of its scale are a whole range apart. */
  lemma EndsInSteps(g: seq<real>, bits: QuantBits)
    requires g != [] && !Constant(g)
    ensures var s := Scale(g, bits);
            && -Lowest(g) / s == -(Lowest(g) / s)
            && Highest(g) / s == Lowest(g) / s + bits.MaxValue() as real
  {
    hide Lowest, Highest;
    var s, m := Scale(g, bits), bits.MaxValue() as real;
    assert m == 255.0 || m == 15.0;
    assert Highest(g) == Lowest(g) + m * s;
    QuotientOfSum(Lowest(g), m * s, s);
    QuotientOfProduct(m, s);
  }

  lemma DividedOrder(a: real, b: real, s: real)
    requires s > 0.0 && a <= b
    ensures a / s <= b / s
  {
  }

  lemma Scaled(x: real, y: real, s: real)
    requires s > 0.0
    ensures x * s <= y * s <==> x <= y
  {
    assert y * s - x * s == (y - x) * s;
  }

  lemma ScaledAbs(e: real, s: real)
    requires s > 0.0
    ensures Abs(e * s) <= s / 2.0 <==> Abs(e) <= 0.5
  {
    Scaled(e, 0.0, s);
    Scaled(0.0, e, s);
    Scaled(e, 0.5, s);
    Scaled(-e, 0.5, s);
    assert (-e) * s == -(e * s);
    assert 0.5 * s == s / 2.0;
  }

  lemma ScaledError(r: real, v: real, s: real)
    requires s > 0.0
    ensures Abs(r * s - v) <= s / 2.0 <==> Abs(r - v / s) <= 0.5
  {
    var u := v / s;
    assert u * s == v;
    assert (r - u) * s == r * s - u * s;
    ScaledAbs(r - u, s);
  }

  /** A value is within half a step after the round trip. */
  ghost predicate Near(back: real, v: real, scale: real) {
    Abs(back - v) <= scale / 2.0
  }

  lemma BackIsRecovered(c: Codec, g: seq<real>, bits: QuantBits, i: nat)
    requires g != [] && !Constant(g) && i < |g|
    ensures var s := Scale(g, bits);
            && GroupBack(c, g, bits)[i] == Recovered(g[i] / s, Lowest(g) / s, bits.MaxValue()) as real * s
            && (Near(GroupBack(c, g, bits)[i], g[i], s)
                <==> Abs(Recovered(g[i] / s, Lowest(g) / s, bits.MaxValue()) as real - g[i] / s) <= 0.5)
  {
    hide Lowest, Highest, Wrap, Clamp, Saturate, Round, Scale, Abs;
    EndsInSteps(g, bits);
    var s, m := Scale(g, bits), bits.MaxValue();
    var r := Recovered(g[i] / s, Lowest(g) / s, m);
    assert GroupLevels(g, bits)[i] == Level(g[i], s, ZeroPoint(g, bits), bits);
    assert GroupBack(c, g, bits)[i] == Value(GroupLevels(g, bits)[i], s, ZeroPoint(g, bits));
    assert ZeroPoint(g, bits) == Saturate(Round(-(Lowest(g) / s)));
    assert Wrap(GroupLevels(g, bits)[i] - ZeroPoint(g, bits)) == r;
    NearInSteps(GroupBack(c, g, bits)[i], r as real, g[i], s);
  }

  lemma NearInSteps(back: real, r: real, v: real, s: real)
    requires s > 0.0 && back == r * s
    ensures Near(back, v, s) <==> Abs(r - v / s) <= 0.5
  {
    ScaledError(r, v, s);
  }

  /** Every element of a group comes back within half a step exactly when the casts have room for its ends. */
  lemma GroupErrorBound(c: Codec, g: seq<real>, bits: QuantBits)
    requires g != [] && !Constant(g)
    ensures (forall i :: 0 <= i < |g| ==> Near(GroupBack(c, g, bits)[i], g[i], Scale(g, bits)))
            <==> Representable(Lowest(g) / Scale(g, bits), Highest(g) / Scale(g, bits))
  {
    hide GroupBack, Recovered, Near, Abs, Representable, Scale;
    var s, m := Scale(g, bits), bits.MaxValue();
    var x := Lowest(g) / s;
    EndsInSteps(g, bits);
    if Representable(x, x + m as real) {
      forall i | 0 <= i < |g| ensures Near(GroupBack(c, g, bits)[i], g[i], s) {
        BackIsRecovered(c, g, bits, i);
        DividedOrder(Lowest(g), g[i], s);
        DividedOrder(g[i], Highest(g), s);
        RecoveredIsNear(g[i] / s, x, m);
      }
    } else {
      RecoveredIsFar(x, m);
      var i :| 0 <= i < |g| && g[i] == Lowest(g);
      var j :| 0 <= j < |g| && g[j] == Highest(g);
      BackIsRecovered(c, g, bits, i);
      BackIsRecovered(c, g, bits, j);
    }
  }

  // ----- The subtraction on the way back -----

  /** In units of the scale: taking the zero point off again stays in 32 bits exactly when it was not cut off. */
  lemma DifferenceInSteps(v: real, x: real, m: int)
    requires 15 <= m <= 255 && x <= v <= x + m as real
    ensures var zero := Saturate(Round(-x));
            var q := Clamp(Wrap(Saturate(Round(v)) + zero), m);
            I32_MIN <= q - zero <= I32_MAX <==> x < I32_MAX as real + 0.5
  {
    RoundIsOdd(x);
    RoundIsMonotone(x, v);
    SumFits(v, x, m);
    WrapIsExact(Saturate(Round(v)) + Saturate(Round(-x)));
  }

  /**
   * The subtraction of the zero point in the reconstruction overflows for no element of a
   * group if its lowest value is below 2^31 - 1/2 steps, and else for every element. Where it
   * overflows, a build with overflow checks panics, and `Value` is that of one without.
   */
  lemma DifferenceFits(g: seq<real>, bits: QuantBits, i: nat)
    requires g != [] && !Constant(g) && i < |g|
    ensures I32_MIN <= GroupLevels(g, bits)[i] - ZeroPoint(g, bits) <= I32_MAX
            <==> Lowest(g) / Scale(g, bits) < I32_MAX as real + 0.5
  {
    hide Lowest, Highest, Wrap, Clamp, Saturate, Round, Scale;
    var s, m := Scale(g, bits), bits.MaxValue();
    EndsInSteps(g, bits);
    DividedOrder(Lowest(g), g[i], s);
    DividedOrder(g[i], Highest(g), s);
    DifferenceInSteps(g[i] / s, Lowest(g) / s, m);
    assert GroupLevels(g, bits)[i] == Level(g[i], s, ZeroPoint(g, bits), bits);
    assert ZeroPoint(g, bits) == Saturate(Round(-(Lowest(g) / s)));
  }

  lemma ConstantGroupIsExact(c: Codec, g: seq<real>, bits: QuantBits)
    requires g != [] && Constant(g) && c.fromBits(c.toBits(g[0])) == g[0]
    ensures GroupBack(c, g, bits) == g
  {
    forall i | 0 <= i < |g| ensures g[i] == Lowest(g) {
      assert Lowest(g) <= g[i] <= Highest(g);
    }
  }

  // ----- The tensor -----

  function First(values: seq<real>): seq<real> {
    values[..Min(GROUP_SIZE, |values|)]
  }

  function Rest(values: seq<real>): seq<real> {
    values[Min(GROUP_SIZE, |values|)..]
  }

  function Levels(values: seq<real>, bits: QuantBits): (q: seq<int>)
    ensures |q| == |values| && InRange(q, bits)
    decreases |values|
  {
    if values == [] then [] else GroupLevels(First(values), bits) + Levels(Rest(values), bits)
  }

  function Scales(values: seq<real>, bits: QuantBits): seq<real>
    decreases |values|
  {
    if values == [] then [] else [GroupScale(First(values), bits)] + Scales(Rest(values), bits)
  }

  function ZeroPoints(c: Codec, values: seq<real>, bits: QuantBits): seq<int>
    decreases |values|
  {
    if values == [] then [] else [GroupZero(c, First(values), bits)] + ZeroPoints(c, Rest(values), bits)
  }

  function TensorOf(c: Codec, values: seq<real>, bits: QuantBits): QuantizedTensor {
    QuantizedTensor(Packed(Levels(values, bits), bits), Scales(values, bits), ZeroPoints(c, values, bits), |values|, bits)
  }

  /** Levels back to values, group by group; a missing scale counts as one, a missing zero point as zero. */
  function Restored(c: Codec, q: seq<int>, scales: seq<real>, zeros: seq<int>): (v: seq<real>)
    ensures |v| == |q|
    decreases |q|
  {
    if q == [] then []
    else
      var n := Min(GROUP_SIZE, |q|);
      GroupValues(c, q[..n], if scales == [] then 1.0 else scales[0], if zeros == [] then 0 else zeros[0])
      + Restored(c, q[n..], if scales == [] then [] else scales[1..], if zeros == [] then [] else zeros[1..])
  }

  function Dequantized(c: Codec, t: QuantizedTensor): seq<real> {
    Restored(c, Unpacked(t.data, t.bits, t.numElements), t.scales, t.zeroPoints)
  }

  /** The values after the round trip, group by group. */
  function Back(c: Codec, values: seq<real>, bits: QuantBits): (v: seq<real>)
    ensures |v| == |values|
    decreases |values|
  {
    if values == [] then [] else GroupBack(c, First(values), bits) + Back(c, Rest(values), bits)
  }

  lemma {:induction false} RestoredIsBack(c: Codec, values: seq<real>, bits: QuantBits)
    ensures Restored(c, Levels(values, bits), Scales(values, bits), ZeroPoints(c, values, bits)) == Back(c, values, bits)
    decreases |values|
  {
    hide GroupLevels, GroupScale, GroupZero, GroupValues;
    if values != [] {
      RestoredIsBack(c, Rest(values), bits);
      var n := Min(GROUP_SIZE, |values|);
      assert Levels(values, bits)[..n] == GroupLevels(First(values), bits);
      assert Levels(values, bits)[n..] == Levels(Rest(values), bits);
      assert Scales(values, bits)[1..] == Scales(Rest(values), bits);
      assert ZeroPoints(c, values, bits)[1..] == ZeroPoints(c, Rest(values), bits);
    }
  }

  lemma DequantizedIsBack(c: Codec, values: seq<real>, bits: QuantBits)
    ensures Dequantized(c, TensorOf(c, values, bits)) == Back(c, values, bits)
  {
    PackingRoundTrip(Levels(values, bits), bits);
    RestoredIsBack(c, values, bits);
  }

  function GroupAt(values: seq<real>, k: nat): (g: seq<real>)
    requires GROUP_SIZE * k < |values|
    ensures g != []
  {
    values[GROUP_SIZE * k..Min(GROUP_SIZE * (k + 1), |values|)]
  }

  lemma {:induction false} BackByGroup(c: Codec, values: seq<real>, bits: QuantBits, k: nat)
    requires GROUP_SIZE * k < |values|
    ensures var g := GroupAt(values, k);
            GROUP_SIZE * k + |g| <= |values| && Back(c, values, bits)[GROUP_SIZE * k..GROUP_SIZE * k + |g|] == GroupBack(c, g, bits)
    decreases k
  {
    hide GroupBack;
    var n := Min(GROUP_SIZE, |values|);
    if k == 0 {
      assert GroupAt(values, 0) == First(values);
    } else {
      assert GroupAt(values, k) == GroupAt(Rest(values), k - 1);
      BackByGroup(c, Rest(values), bits, k - 1);
      var g, a := GroupAt(values, k), GROUP_SIZE * (k - 1);
      SliceOfSecond(GroupBack(c, First(values), bits), Back(c, Rest(values), bits), a, |g|);
    }
  }

  lemma SliceOfSecond(p: seq<real>, q: seq<real>, a: nat, len: nat)
    requires a + len <= |q|
    ensures (p + q)[|p| + a..|p| + a + len] == q[a..a + len]
  {
  }

  /** The group's elements after a quantize and dequantize of the whole tensor. */
  function RoundTripped(c: Codec, values: seq<real>, bits: QuantBits, k: nat): seq<real>
    requires GROUP_SIZE * k < |values|
  {
    var back, g := Dequantized(c, TensorOf(c, values, bits)), GroupAt(values, k);
    if GROUP_SIZE * k + |g| <= |back| then back[GROUP_SIZE * k..GROUP_SIZE * k + |g|] else []
  }

  /**
   * The round trip keeps every element in place. A constant group comes back exactly; any
   * other within half a step everywhere, if and only if its ends divided by its scale lie
   * in the range of the integer cast.
   */
  lemma QuantizationError(c: Codec, values: seq<real>, bits: QuantBits, k: nat)
    requires GROUP_SIZE * k < |values|
    ensures var g, back := GroupAt(values, k), RoundTripped(c, values, bits, k);
            && |Dequantized(c, TensorOf(c, values, bits))| == |values|
            && |back| == |g|
            && (Constant(g) && c.fromBits(c.toBits(g[0])) == g[0] ==> back == g)
            && (!Constant(g) ==>
                  ((forall i :: 0 <= i < |g| ==> Near(back[i], g[i], Scale(g, bits)))
                   <==> Representable(Lowest(g) / Scale(g, bits), Highest(g) / Scale(g, bits))))
  {
    hide GroupBack, Near, Representable, Dequantized, Back;
    DequantizedIsBack(c, values, bits);
    BackByGroup(c, values, bits, k);
    var g := GroupAt(values, k);
    assert |GroupBack(c, g, bits)| == |g|;
    if Constant(g) {
      if c.fromBits(c.toBits(g[0])) == g[0] {
        ConstantGroupIsExact(c, g, bits);
      }
    } else {
      GroupErrorBound(c, g, bits);
    }
  }

  /** Two large neighbours, both exact as f32, break the bound: the casts saturate. */
  lemma SaturationBreaksTheBound(c: Codec)
    ensures var values := [16777214.0, 16777215.0];
            var g := GroupAt(values, 0);
            && !Constant(g) && Scale(g, Int8) == 1.0 / 255.0
            && !(forall i :: 0 <= i < |g| ==> Near(RoundTripped(c, values, Int8, 0)[i], g[i], Scale(g, Int8)))
  {
    hide Near, RoundTripped, Representable;
    var values := [16777214.0, 16777215.0];
    var g := GroupAt(values, 0);
    assert g == values;
    TwoEnds(g);
    QuantizationError(c, values, Int8, 0);
    BeyondTheCast(g);
  }

  /** For the same two values the subtraction overflows at both. */
  lemma SaturationOverflows(i: nat)
    requires i < 2
    ensures var g := [16777214.0, 16777215.0];
            !Constant(g) && GroupLevels(g, Int8)[i] - ZeroPoint(g, Int8) > I32_MAX
  {
    hide Lowest, Highest, Scale, ZeroPoint, GroupLevels;
    var g := [16777214.0, 16777215.0];
    TwoEnds(g);
    BeyondTheCast(g);
    QuotientOfProduct(16777214.0 * 255.0, 1.0 / 255.0);
    DifferenceFits(g, Int8, i);
    ZeroIsInRange(g, Int8, i);
  }

  lemma ZeroIsInRange(g: seq<real>, bits: QuantBits, i: nat)
    requires g != [] && !Constant(g) && i < |g|
    ensures GroupLevels(g, bits)[i] - ZeroPoint(g, bits) >= I32_MIN
  {
    hide Round, Lowest, Highest, Scale;
    assert InRange(GroupLevels(g, bits), bits);
  }

  lemma BeyondTheCast(g: seq<real>)
    requires g != [] && Lowest(g) == 16777214.0 && Highest(g) == 16777215.0
    ensures !Constant(g) && Scale(g, Int8) == 1.0 / 255.0
    ensures !Representable(Lowest(g) / Scale(g, Int8), Highest(g) / Scale(g, Int8))
  {
    hide Lowest, Highest;
    QuotientOfProduct(16777215.0 * 255.0, 1.0 / 255.0);
  }

  lemma TwoEnds(g: seq<real>)
    requires |g| == 2 && g[0] < g[1]
    ensures Lowest(g) == g[0] && Highest(g) == g[1]
  {
    assert Lowest(g) <= g[0] && Highest(g) >= g[1];
    var i :| 0 <= i < |g| && g[i] == Lowest(g);
    var j :| 0 <= j < |g| && g[j] == Highest(g);
    assert g[0] <= Highest(g) && Lowest(g) <= g[1];
  }

  // ----- The loops -----

  predicate AllFinite(values: seq<Weight>) {
    forall i :: 0 <= i < |values| ==> values[i].Finite?
  }

  function Reals(values: seq<Weight>): (r: seq<real>)
    requires AllFinite(values)
    ensures |r| == |values|
  {
    seq(|values|, i requires 0 <= i < |values| => values[i].v)
  }

  method CheckFinite(values: seq<Weight>) returns (ok: bool)
    ensures ok <==> AllFinite(values)
  {
    for i := 0 to |values|
      invariant AllFinite(values[..i])
    {
      if values[i].NonFinite? {
        return false;
      }
    }
    ok := true;
  }

  method Bounds(g: seq<real>) returns (low: real, high: real)
    requires g != []
    ensures low == Lowest(g) && high == Highest(g)
  {
    hide Least, Greatest;
    low, high := g[0], g[0];
    BoundsStart(g);
    for i := 0 to |g|
      invariant low == Least(g, g[0], i) && high == Greatest(g, g[0], i)
    {
      BoundsStep(g, i);
      low := if g[i] < low then g[i] else low;
      high := if g[i] > high then g[i] else high;
    }
  }

  lemma BoundsStart(g: seq<real>)
    requires g != []
    ensures Least(g, g[0], 0) == g[0] == Greatest(g, g[0], 0)
  {
  }

  lemma BoundsStep(g: seq<real>, i: nat)
    requires i < |g|
    ensures Least(g, g[0], i + 1) == if g[i] < Least(g, g[0], i) then g[i] else Least(g, g[0], i)
    ensures Greatest(g, g[0], i + 1) == if g[i] > Greatest(g, g[0], i) then g[i] else Greatest(g, g[0], i)
  {
  }

  method QuantizeGroup(c: Codec, g: seq<real>, bits: QuantBits) returns (levels: seq<int>, scale: real, zero: int)
    requires g != []
    ensures levels == GroupLevels(g, bits) && scale == GroupScale(g, bits) && zero == GroupZero(c, g, bits)
  {
    hide Lowest, Highest, Level;
    var low, high := Bounds(g);
    var range := high - low;
    levels := [];
    if range > 0.0 {
      scale := range / (bits.MaxValue() as real);
      zero := Saturate(Round(-low / scale));
    } else {
      scale, zero := 0.0, c.toBits(low);
    }
    for i := 0 to |g|
      invariant |levels| == i
      invariant forall k :: 0 <= k < i ==> levels[k] == if range > 0.0 then Level(g[k], scale, zero, bits) else 0
    {
      levels := levels + [if range > 0.0 then Level(g[i], scale, zero, bits) else 0];
    }
  }

  /** Fails exactly when a value is not finite. */
  method Quantize(c: Codec, values: seq<Weight>, bits: QuantBits) returns (t: Option<QuantizedTensor>)
    ensures t.Some? <==> AllFinite(values)
    ensures t.Some? ==> t.value == TensorOf(c, Reals(values), bits)
  {
    hide GroupLevels, GroupScale, GroupZero, Packed, Levels, Scales, ZeroPoints;
    var levels: seq<int>, scales: seq<real>, zeros: seq<int>, at: nat := [], [], [], 0;
    WholeSlice(c, values, bits);
    while at < |values|
      invariant at <= |values| && AllFinite(values[..at])
      invariant AllFinite(values) ==> SoFar(c, Reals(values), bits, at, levels, scales, zeros)
    {
      var next := Min(at + GROUP_SIZE, |values|);
      var finite := CheckFinite(values[at..next]);
      if !finite {
        BadSlice(values, at, next);
        return None;
      }
      var g := Reals(values[at..next]);
      var q, scale, zero := QuantizeGroup(c, g, bits);
      if AllFinite(values) {
        assert g == Reals(values)[at..next];
        GroupFollows(c, Reals(values), at, next, bits);
      }
      levels, scales, zeros := levels + q, scales + [scale], zeros + [zero];
      FiniteJoin(values, at, next);
      at := next;
    }
    assert values[..at] == values;
    NothingLeft(c, Reals(values), bits);
    assert levels + [] == levels && scales + [] == scales && zeros + [] == zeros;
    var data := Pack(levels, bits);
    t := Some(QuantizedTensor(data, scales, zeros, |values|, bits));
  }

  /** The groups before `at` are quantized; what is left to do completes the tensor. */
  ghost predicate SoFar(c: Codec, v: seq<real>, bits: QuantBits, at: nat, levels: seq<int>, scales: seq<real>, zeros: seq<int>)
    requires at <= |v|
  {
    && levels + Levels(v[at..], bits) == Levels(v, bits)
    && scales + Scales(v[at..], bits) == Scales(v, bits)
    && zeros + ZeroPoints(c, v[at..], bits) == ZeroPoints(c, v, bits)
  }

  lemma WholeSlice(c: Codec, values: seq<Weight>, bits: QuantBits)
    ensures AllFinite(values) ==> SoFar(c, Reals(values), bits, 0, [], [], [])
  {
    if AllFinite(values) {
      assert Reals(values)[0..] == Reals(values);
    }
  }

  lemma NothingLeft(c: Codec, v: seq<real>, bits: QuantBits)
    ensures Levels(v[|v|..], bits) == [] && Scales(v[|v|..], bits) == [] && ZeroPoints(c, v[|v|..], bits) == []
  {
  }

  lemma BadSlice(values: seq<Weight>, at: nat, next: nat)
    requires at <= next <= |values| && !AllFinite(values[at..next])
    ensures !AllFinite(values)
  {
    var i :| 0 <= i < next - at && values[at..next][i].NonFinite?;
    assert values[at + i].NonFinite?;
  }

  lemma FiniteJoin(values: seq<Weight>, at: nat, next: nat)
    requires at <= next <= |values| && AllFinite(values[..at]) && AllFinite(values[at..next])
    ensures AllFinite(values[..next])
  {
    forall i | 0 <= i < next ensures values[i].Finite? {
      if i < at {
        assert values[..at][i] == values[i];
      } else {
        assert values[at..next][i - at] == values[i];
      }
    }
  }

  lemma GroupFollows(c: Codec, v: seq<real>, at: nat, next: nat, bits: QuantBits)
    requires at < |v| && next == Min(at + GROUP_SIZE, |v|)
    ensures v[at..next] != []
    ensures Levels(v[at..], bits) == GroupLevels(v[at..next], bits) + Levels(v[next..], bits)
    ensures Scales(v[at..], bits) == [GroupScale(v[at..next], bits)] + Scales(v[next..], bits)
    ensures ZeroPoints(c, v[at..], bits) == [GroupZero(c, v[at..next], bits)] + ZeroPoints(c, v[next..], bits)
  {
    assert First(v[at..]) == v[at..next] && Rest(v[at..]) == v[next..];
  }

  method Dequantize(c: Codec, t: QuantizedTensor) returns (out: seq<real>)
    ensures out == Dequantized(c, t)
  {
    hide GroupValues, Unpacked, Restored, From;
    var q := Unpack(t.data, t.bits, t.numElements);
    out := [];
    var at, k := 0, 0;
    assert q[0..] == q;
    FromStart(t.scales);
    FromStart(t.zeroPoints);
    while at < |q|
      invariant at <= |q|
      invariant out + Restored(c, q[at..], From(t.scales, k), From(t.zeroPoints, k)) == Restored(c, q, t.scales, t.zeroPoints)
    {
      var next := Min(at + GROUP_SIZE, |q|);
      var scale := if k < |t.scales| then t.scales[k] else 1.0;
      var zero := if k < |t.zeroPoints| then t.zeroPoints[k] else 0;
      RestoreFollows(c, q, at, next, From(t.scales, k), From(t.zeroPoints, k));
      FromStep(t.scales, k);
      FromStep(t.zeroPoints, k);
      var values := RestoreGroup(c, q[at..next], scale, zero);
      out := out + values;
      at, k := next, k + 1;
    }
    NothingRestored(c, q[at..], From(t.scales, k), From(t.zeroPoints, k));
  }

  lemma NothingRestored(c: Codec, q: seq<int>, scales: seq<real>, zeros: seq<int>)
    requires q == []
    ensures Restored(c, q, scales, zeros) == []
  {
  }

  lemma RestoreFollows(c: Codec, q: seq<int>, at: nat, next: nat, scales: seq<real>, zeros: seq<int>)
    requires at < |q| && next == Min(at + GROUP_SIZE, |q|)
    ensures Restored(c, q[at..], scales, zeros)
            == GroupValues(c, q[at..next], if scales == [] then 1.0 else scales[0], if zeros == [] then 0 else zeros[0])
               + Restored(c, q[next..], if scales == [] then [] else scales[1..], if zeros == [] then [] else zeros[1..])
  {
    assert q[at..][..next - at] == q[at..next] && q[at..][next - at..] == q[next..];
  }

  ghost function From<T>(s: seq<T>, k: nat): seq<T> {
    if k <= |s| then s[k..] else []
  }

  lemma FromStart<T>(s: seq<T>)
    ensures From(s, 0) == s
  {
  }

  lemma FromStep<T>(s: seq<T>, k: nat)
    ensures From(s, k) == [] <==> k >= |s|
    ensures k < |s| ==> From(s, k)[0] == s[k]
    ensures From(s, k + 1) == if From(s, k) == [] then [] else From(s, k)[1..]
  {
  }

  method RestoreGroup(c: Codec, q: seq<int>, scale: real, zero: int) returns (values: seq<real>)
    ensures values == GroupValues(c, q, scale, zero)
  {
    hide Value;
    values := [];
    for i := 0 to |q|
      invariant |values| == i
      invariant forall k :: 0 <= k < i ==> values[k] == if scale == 0.0 then c.fromBits(zero) else Value(q[k], scale, zero)
    {
      values := values + [if scale == 0.0 then c.fromBits(zero) else Value(q[i], scale, zero)];
    }
  }
}
