// The few facts about division that the block arithmetic needs.
module Arithmetic {

  function CeilDiv(n: nat, d: nat): nat
    requires d > 0
  {
    (n + d - 1) / d
  }

  lemma MulAtLeast(m: nat, e: int)
    requires e >= 1
    ensures m * e >= m
  {
    assert m * e == m + m * (e - 1);
    assert m * (e - 1) >= 0;
  }

  /** Quotient and remainder are determined by the division equation. */
  lemma QuotientRemainder(y: int, m: nat, q: int, r: nat)
    requires r < m && y == m * q + r
    ensures y / m == q && y % m == r
  {
    var d, s := y / m, y % m;
    assert y == m * d + s;
    assert m * (q - d) == m * q - m * d;
    assert m * (d - q) == m * d - m * q;
    if q > d {
      MulAtLeast(m, q - d);
    } else if d > q {
      MulAtLeast(m, d - q);
    }
  }

  lemma DivisionEquation(n: nat, d: nat)
    requires d > 0
    ensures n == d * (n / d) + n % d && n % d < d
  {
  }

  lemma QuotientMonotone(a: nat, b: nat, d: nat)
    requires d > 0 && a <= b
    ensures a / d <= b / d
  {
    DivisionEquation(a, d);
    DivisionEquation(b, d);
    assert d * (a / d - b / d) == d * (a / d) - d * (b / d);
    if a / d > b / d {
      MulAtLeast(d, a / d - b / d);
    }
  }

  lemma CeilMonotone(a: nat, b: nat, d: nat)
    requires d > 0 && a <= b
    ensures CeilDiv(a, d) <= CeilDiv(b, d)
  {
    QuotientMonotone(a + d - 1, b + d - 1, d);
  }

  /** One more token needs a block exactly when the tokens so far fill theirs. */
  lemma CeilSuccessor(n: nat, d: nat)
    requires d > 0
    ensures CeilDiv(n + 1, d) == n / d + 1
    ensures CeilDiv(n, d) == if n % d == 0 then n / d else n / d + 1
    ensures CeilDiv(n + 1, d) == if n % d == 0 then CeilDiv(n, d) + 1 else CeilDiv(n, d)
    ensures n == d * (n / d) + n % d
  {
    DivisionEquation(n, d);
    assert n + d == d * (n / d + 1) + n % d;
    QuotientRemainder(n + d, d, n / d + 1, n % d);
    if n % d == 0 {
      QuotientRemainder(n + d - 1, d, n / d, d - 1);
    } else {
      assert n + d - 1 == d * (n / d + 1) + (n % d - 1);
      QuotientRemainder(n + d - 1, d, n / d + 1, n % d - 1);
    }
  }

  /** Taking a whole chunk off the front removes exactly one block. */
  lemma CeilChunk(n: nat, d: nat)
    requires d > 0 && n > 0
    ensures CeilDiv(n, d) == 1 + CeilDiv(if n < d then 0 else n - d, d)
  {
    var rest := if n < d then 0 else n - d;
    if n < d {
      QuotientRemainder(n + d - 1, d, 1, n - 1);
      QuotientRemainder(d - 1, d, 0, d - 1);
    } else {
      DivisionEquation(n - 1, d);
      assert n + d - 1 == d * ((n - 1) / d + 1) + (n - 1) % d;
      QuotientRemainder(n + d - 1, d, (n - 1) / d + 1, (n - 1) % d);
    }
  }

  lemma MulDivExact(k: nat, d: nat)
    requires d > 0
    ensures (k * d) / d == k && (k * d) % d == 0
  {
    QuotientRemainder(k * d, d, k, 0);
  }

  // ----- Row-major layout -----

  lemma RowFits(i: nat, rows: nat, cols: nat)
    requires i < rows
    ensures i * cols + cols == (i + 1) * cols <= rows * cols
  {
    MulMonotone(i + 1, rows, cols);
  }

  lemma {:induction false} MulMonotone(a: nat, b: nat, c: nat)
    requires a <= b
    ensures a * c <= b * c
  {
    if a < b {
      MulMonotone(a, b - 1, c);
      assert (b - 1) * c + c == b * c;
    }
  }

  lemma RowsApart(i: nat, k: nat, cols: nat)
    ensures k < i ==> k * cols + cols <= i * cols
    ensures i < k ==> i * cols + cols <= k * cols
  {
    if k < i {
      MulMonotone(k + 1, i, cols);
    } else if i < k {
      MulMonotone(i + 1, k, cols);
    }
  }

  lemma CeilReaches(n: nat, d: nat)
    requires d > 0
    ensures n <= CeilDiv(n, d) * d
  {
    CeilSuccessor(n, d);
    assert (n / d + 1) * d == d * (n / d) + d;
  }
}
