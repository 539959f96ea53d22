// The chained content hash of a block of tokens.
module Hashing {
  import opened Prelude
  import opened Arithmetic

  /** A 64-bit digest, as the number it denotes. */
  type Hash = nat

  const WORD: nat := 0x1_0000_0000_0000_0000
  const SEED: nat := 0x517c_c1b7_2722_0a95
  const SEED_INVERSE: nat := 0x2040_003d_7809_70bd
  const SEED_QUOTIENT: nat := 0xa43_f77a_e39d_ae8d
  const ROOT: nat := 0xcbf2_9ce4_8422_2325

  function Pow2(n: nat): nat {
    if n == 0 then 1 else 2 * Pow2(n - 1)
  }

  /** Exclusive or of the low `bits` bits. */
  function Xor(a: nat, b: nat, bits: nat): nat {
    if bits == 0 then 0 else 2 * Xor(a / 2, b / 2, bits - 1) + (a % 2 + b % 2) % 2
  }

  function RotateLeft5(x: nat): nat {
    (x % 0x800_0000_0000_0000) * 32 + x / 0x800_0000_0000_0000
  }

  /** One mixing step: rotate, exclusive or, wrapping multiply. */
  function Mix(state: nat, value: nat): nat {
    (Xor(RotateLeft5(state), value, 64) * SEED) % WORD
  }

  function Start(parent: Option<Hash>): nat {
    match parent
    case None => ROOT
    case Some(h) => h
  }

  function MixAll(state: nat, tokens: seq<TokenId>): nat {
    if tokens == [] then state else Mix(MixAll(state, tokens[..|tokens| - 1]), tokens[|tokens| - 1])
  }

  function HashBlock(parent: Option<Hash>, tokens: seq<TokenId>): Hash {
    MixAll(Mix(Start(parent), |tokens|), tokens)
  }

  /** The loop of the source over the tokens of one block. */
  method ComputeHashBlock(parent: Option<Hash>, tokens: seq<TokenId>) returns (h: Hash)
    ensures h == HashBlock(parent, tokens)
  {
    h := Mix(Start(parent), |tokens|);
    ghost var start := h;
    for i := 0 to |tokens|
      invariant h == MixAll(start, tokens[..i])
    {
      assert tokens[..i + 1][..i] == tokens[..i];
      h := Mix(h, tokens[i]);
    }
    assert tokens[..|tokens|] == tokens;
  }

  /**
   * Digest of a whole-block token history: block after block, each chained to the
   * digest of everything before it.
   */
  function ChainHash(history: seq<TokenId>, blockSize: nat): Option<Hash>
    requires blockSize > 0
  {
    if |history| < blockSize then None
    else
      var cut := |history| - blockSize;
      Some(HashBlock(ChainHash(history[..cut], blockSize), history[cut..]))
  }

  // ----- Injectivity in the parent -----

  lemma ConstantsInvert()
    ensures SEED * SEED_INVERSE == 1 + WORD * SEED_QUOTIENT
  {
  }

  lemma Halves(y: nat, d: nat)
    requires d < 2
    ensures (2 * y + d) / 2 == y && (2 * y + d) % 2 == d
  {
  }

  lemma {:induction false} XorInvolutive(a: nat, b: nat, bits: nat)
    requires a < Pow2(bits)
    ensures Xor(Xor(a, b, bits), b, bits) == a
  {
    if bits > 0 {
      var upper, lowest := Xor(a / 2, b / 2, bits - 1), (a % 2 + b % 2) % 2;
      XorInvolutive(a / 2, b / 2, bits - 1);
      XorOfHalves(upper, lowest, b, bits);
      assert (lowest + b % 2) % 2 == a % 2;
    }
  }

  lemma XorOfHalves(upper: nat, lowest: nat, b: nat, bits: nat)
    requires bits > 0 && lowest < 2
    ensures Xor(2 * upper + lowest, b, bits) == 2 * Xor(upper, b / 2, bits - 1) + (lowest + b % 2) % 2
  {
    Halves(upper, lowest);
  }

  lemma {:induction false} XorBounded(a: nat, b: nat, bits: nat)
    ensures Xor(a, b, bits) < Pow2(bits)
  {
    if bits > 0 {
      XorBounded(a / 2, b / 2, bits - 1);
    }
  }

  lemma {:induction false} Pow2Adds(a: nat, b: nat)
    ensures Pow2(a + b) == Pow2(a) * Pow2(b)
  {
    if a > 0 {
      Pow2Adds(a - 1, b);
      assert Pow2(a + b) == 2 * Pow2(a - 1 + b);
    }
  }

  lemma Pow2Doubles(n: nat)
    ensures Pow2(2 * n) == Pow2(n) * Pow2(n)
  {
    Pow2Adds(n, n);
  }

  lemma Pow64()
    ensures Pow2(64) == WORD
  {
    assert Pow2(2) == 4;
    Pow2Doubles(2);
    Pow2Doubles(4);
    Pow2Doubles(8);
    Pow2Doubles(16);
    Pow2Doubles(32);
  }

  lemma RotateInjective(a: nat, b: nat)
    requires a < WORD && b < WORD && RotateLeft5(a) == RotateLeft5(b)
    ensures a == b && RotateLeft5(a) < WORD
  {
    Residues(a);
    Residues(b);
  }

  lemma Residues(x: nat)
    requires x < WORD
    ensures RotateLeft5(x) % 32 == x / 0x800_0000_0000_0000
    ensures RotateLeft5(x) / 32 == x % 0x800_0000_0000_0000
    ensures RotateLeft5(x) < WORD
  {
    QuotientRemainder(RotateLeft5(x), 32, x % 0x800_0000_0000_0000, x / 0x800_0000_0000_0000);
  }

  /** Multiplying by an inverse undoes a wrapping multiplication. */
  lemma WrappingUndo(x: nat, s: nat, i: nat, m: nat, k: nat)
    requires x < m && s * i == 1 + m * k
    ensures (((x * s) % m) * i) % m == x
  {
    var q, r := (x * s) / m, (x * s) % m;
    calc {
      r * i;
      { assert x * s == m * q + r; }
      (x * s - m * q) * i;
      x * s * i - m * q * i;
      { assert x * s * i == x * (s * i); assert m * q * i == m * (q * i); }
      x * (1 + m * k) - m * (q * i);
      { assert x * (1 + m * k) == x + m * (k * x); }
      m * (k * x - q * i) + x;
    }
    QuotientRemainder(r * i, m, k * x - q * i, x);
  }

  /** For one value, mixing never merges two states. */
  lemma MixInjective(a: nat, b: nat, value: nat)
    requires a < WORD && b < WORD && Mix(a, value) == Mix(b, value)
    ensures a == b
  {
    var x, y := Xor(RotateLeft5(a), value, 64), Xor(RotateLeft5(b), value, 64);
    XorBounded(RotateLeft5(a), value, 64);
    XorBounded(RotateLeft5(b), value, 64);
    Pow64();
    ConstantsInvert();
    WrappingUndo(x, SEED, SEED_INVERSE, WORD, SEED_QUOTIENT);
    WrappingUndo(y, SEED, SEED_INVERSE, WORD, SEED_QUOTIENT);
    Residues(a);
    Residues(b);
    XorInvolutive(RotateLeft5(a), value, 64);
    XorInvolutive(RotateLeft5(b), value, 64);
    RotateInjective(a, b);
  }

  lemma MixBounded(state: nat, value: nat)
    ensures Mix(state, value) < WORD
  {
  }

  lemma {:induction false} MixAllInjective(a: nat, b: nat, tokens: seq<TokenId>)
    requires a < WORD && b < WORD && MixAll(a, tokens) == MixAll(b, tokens)
    ensures a == b
  {
    if tokens != [] {
      var front := tokens[..|tokens| - 1];
      MixAllBounded(a, front);
      MixAllBounded(b, front);
      MixInjective(MixAll(a, front), MixAll(b, front), tokens[|tokens| - 1]);
      MixAllInjective(a, b, front);
    }
  }

  lemma {:induction false} MixAllBounded(a: nat, tokens: seq<TokenId>)
    requires a < WORD
    ensures MixAll(a, tokens) < WORD
  {
    if tokens != [] {
      MixBounded(MixAll(a, tokens[..|tokens| - 1]), tokens[|tokens| - 1]);
    }
  }

  /**
   * For fixed tokens the digest determines the parent digest, so two blocks with equal
   * tokens agree exactly when the digests of everything before them agree. The root and a
   * parent collide only for the one digest that equals the root state.
   */
  lemma HashBlockInjectiveInParent(p: Option<Hash>, q: Option<Hash>, tokens: seq<TokenId>)
    requires Start(p) < WORD && Start(q) < WORD
    ensures HashBlock(p, tokens) == HashBlock(q, tokens) <==> Start(p) == Start(q)
  {
    if HashBlock(p, tokens) == HashBlock(q, tokens) {
      MixBounded(Start(p), |tokens|);
      MixBounded(Start(q), |tokens|);
      MixAllInjective(Mix(Start(p), |tokens|), Mix(Start(q), |tokens|), tokens);
      MixInjective(Start(p), Start(q), |tokens|);
    }
  }
}
