// Two prompts of 32-bit tokens that the prefix index confuses.
module DigestCollision {
  import opened Prelude
  import opened Hashing
  import opened PrefixSoundness
  import opened Collisions

  // ----- Computing with exclusive or -----

  /** The number with high part `q` and the low `k` bits of `r`. */
  function Joined(q: nat, r: nat, k: nat): nat {
    if k == 0 then q else 2 * Joined(q, r / 2, k - 1) + r % 2
  }

  lemma {:induction false} JoinedIsSum(q: nat, r: nat, k: nat)
    requires r < Pow2(k)
    ensures Joined(q, r, k) == q * Pow2(k) + r
  {
    if k > 0 {
      JoinedIsSum(q, r / 2, k - 1);
      assert q * (2 * Pow2(k - 1)) == 2 * (q * Pow2(k - 1));
    }
  }

  lemma XorDoubled(a: nat, c: nat, b: nat, d: nat, n: nat)
    requires n > 0 && c < 2 && d < 2
    ensures Xor(2 * a + c, 2 * b + d, n) == 2 * Xor(a, b, n - 1) + (c + d) % 2
  {
    Halves(a, c);
    Halves(b, d);
  }

  lemma JoinedStep(q: nat, r: nat, k: nat)
    requires k > 0
    ensures Joined(q, r, k) == 2 * Joined(q, r / 2, k - 1) + r % 2
  {
  }

  lemma JoinedNothing(q: nat, r: nat, p: nat, s: nat, n: nat)
    ensures Xor(Joined(q, r, 0), Joined(p, s, 0), n) == Joined(Xor(q, p, n), Xor(r, s, 0), 0)
  {
  }

  lemma {:induction false} XorOfJoined(q: nat, r: nat, p: nat, s: nat, k: nat, n: nat)
    ensures Xor(Joined(q, r, k), Joined(p, s, k), n + k) == Joined(Xor(q, p, n), Xor(r, s, k), k)
    decreases k
  {
    hide Xor, Joined;
    if k > 0 {
      XorOfJoined(q, r / 2, p, s / 2, k - 1, n);
      JoinedStep(q, r, k);
      JoinedStep(p, s, k);
      XorDoubled(Joined(q, r / 2, k - 1), r % 2, Joined(p, s / 2, k - 1), s % 2, n + k);
      XorDoubled(r / 2, r % 2, s / 2, s % 2, k);
      Halves(Xor(r / 2, s / 2, k - 1), (r % 2 + s % 2) % 2);
      JoinedStep(Xor(q, p, n), Xor(r, s, k), k);
    } else {
      JoinedNothing(q, r, p, s, n);
    }
  }

  /** Exclusive or works on the high and the low part separately. */
  lemma XorOfParts(q: nat, r: nat, p: nat, s: nat, k: nat, n: nat)
    requires r < Pow2(k) && s < Pow2(k)
    ensures Xor(q * Pow2(k) + r, p * Pow2(k) + s, n + k) == Xor(q, p, n) * Pow2(k) + Xor(r, s, k)
  {
    hide Xor, Joined, Pow2;
    XorBounded(r, s, k);
    JoinedIsSum(q, r, k);
    JoinedIsSum(p, s, k);
    JoinedIsSum(Xor(q, p, n), Xor(r, s, k), k);
    XorOfJoined(q, r, p, s, k, n);
  }

  lemma {:induction false} XorZero(a: nat, n: nat)
    requires a < Pow2(n)
    ensures Xor(a, 0, n) == a
  {
    if n > 0 { XorZero(a / 2, n - 1); }
  }

  lemma {:induction false} XorCommutes(a: nat, b: nat, n: nat)
    ensures Xor(a, b, n) == Xor(b, a, n)
  {
    if n > 0 {
      XorCommutes(a / 2, b / 2, n - 1);
    }
  }

  const LOW: nat := 0x1_0000_0000

  lemma Pow32()
    ensures Pow2(32) == LOW
  {
    assert Pow2(2) == 4;
    Pow2Doubles(2);
    Pow2Doubles(4);
    Pow2Doubles(8);
    Pow2Doubles(16);
  }

  lemma Pow62()
    ensures Pow2(62) == 0x4000_0000_0000_0000 && Pow2(2) == 4
  {
    Pow64();
    Pow2Adds(2, 62);
  }

  /** The value that turns the low half `low` into `want`. */
  function Turning(low: nat, want: nat): nat {
    Xor(low, want, 32)
  }

  lemma TurningTurns(low: nat, want: nat)
    requires low < LOW && want < LOW
    ensures Turning(low, want) < LOW && Xor(low, Turning(low, want), 32) == want
  {
    hide Xor;
    Pow32();
    XorBounded(low, want, 32);
    XorCommutes(low, want, 32);
    XorInvolutive(want, low, 32);
    XorCommutes(low, Turning(low, want), 32);
  }

  /** Mixing in a value of 32 bits changes the low half of the rotated state. */
  lemma MixTurning(state: nat, high: nat, low: nat, want: nat)
    requires RotateLeft5(state) == high * LOW + low && high < LOW && low < LOW && want < LOW
    ensures Mix(state, Turning(low, want)) == ((high * LOW + want) * SEED) % WORD
  {
    hide Xor, RotateLeft5;
    Pow32();
    TurningTurns(low, want);
    XorOfParts(high, low, 0, Turning(low, want), 32, 32);
    XorZero(high, 32);
  }

  lemma MixZero(state: nat)
    requires state < WORD
    ensures Mix(state, 0) == (RotateLeft5(state) * SEED) % WORD
  {
    hide Xor;
    Residues(state);
    Pow64();
    XorZero(RotateLeft5(state), 64);
  }

  lemma MixTwo(state: nat, high: nat, low: nat)
    requires RotateLeft5(state) == high * 4 + low && high < 0x4000_0000_0000_0000 && low < 4
    ensures Mix(state, 2) == ((high * 4 + Xor(low, 2, 2)) * SEED) % WORD
  {
    hide Xor, RotateLeft5;
    Pow62();
    XorOfParts(high, low, 0, 2, 2, 62);
    XorZero(high, 62);
  }

  // ----- The digests -----

  const AFTER_LENGTH: nat := 0xac88_be62_8593_eed7
  const AFTER_X: nat := 0x7474_2d26_3658_23c3
  const AFTER_Y: nat := 0xdc74_2d26_3558_0299
  const FIRST_DIGEST: nat := 0xf9d2_5535_16ea_6406
  const SECOND_DIGEST: nat := 0x147a_e4cc_60cc_4239

  /** 3941559298 and 1610885973. */
  const TOKEN_X: TokenId := Turning(0xb27d_daf5, 0x5892_b6f7)
  const TOKEN_Y: TokenId := Turning(0xab00_533b, 0xcb04_786e)

  const X: seq<TokenId> := [TOKEN_X, 0, 0, 0]
  const Y: seq<TokenId> := [0, TOKEN_Y, 0, 0]

  lemma TokensAreWords()
    ensures TOKEN_X < LOW && TOKEN_Y < LOW && TOKEN_X != 0
  {
    TurningTurns(0xb27d_daf5, 0x5892_b6f7);
    TurningTurns(0xab00_533b, 0xcb04_786e);
    XorZero(0xb27d_daf5, 32) by { Pow32(); }
  }

  lemma LengthMixes()
    ensures Mix(ROOT, 2) == AFTER_LENGTH
  {
    hide Xor, Mix;
    assert RotateLeft5(ROOT) == 0x1f94_e724_2111_192e * 4 + 1;
    hide RotateLeft5;
    MixTwo(ROOT, 0x1f94_e724_2111_192e, 1);
    LowTwo();
  }

  lemma LowTwo()
    ensures Xor(1, 2, 2) == 3 && Xor(3, 2, 2) == 1
  {
  }

  lemma FirstOfX()
    ensures Mix(AFTER_LENGTH, TOKEN_X) == AFTER_X
  {
    hide Xor, Mix;
    assert RotateLeft5(AFTER_LENGTH) == 0x9117_cc50 * LOW + 0xb27d_daf5;
    hide RotateLeft5, Turning;
    MixTurning(AFTER_LENGTH, 0x9117_cc50, 0xb27d_daf5, 0x5892_b6f7);
  }

  lemma SecondOfX()
    ensures Mix(AFTER_X, 0) == FIRST_DIGEST
  {
    hide Xor, Mix;
    MixZero(AFTER_X);
  }

  lemma FirstOfY()
    ensures Mix(AFTER_LENGTH, 0) == AFTER_Y
  {
    hide Xor, Mix;
    MixZero(AFTER_LENGTH);
  }

  lemma SecondOfY()
    ensures Mix(AFTER_Y, TOKEN_Y) == FIRST_DIGEST
  {
    hide Xor, Mix;
    assert RotateLeft5(AFTER_Y) == 0x8e85_a4c6 * LOW + 0xab00_533b;
    hide RotateLeft5, Turning;
    MixTurning(AFTER_Y, 0x8e85_a4c6, 0xab00_533b, 0xcb04_786e);
  }

  lemma SecondBlockMixes()
    ensures Mix(Mix(Mix(FIRST_DIGEST, 2), 0), 0) == SECOND_DIGEST
  {
    hide Xor, Mix;
    assert RotateLeft5(FIRST_DIGEST) == 0xe92_a9a8_b753_2037 * 4 + 3;
    MixTwo(FIRST_DIGEST, 0xe92_a9a8_b753_2037, 3);
    LowTwo();
    MixZero(0x30_2035_92e9_a2a1);
    MixZero(0xabd2_7a18_56fe_36a0);
  }

  lemma MixAllTwo(state: nat, a: TokenId, b: TokenId)
    ensures MixAll(state, [a, b]) == Mix(Mix(state, a), b)
  {
    hide Mix;
    assert [a, b][..1] == [a] && [a][..0] == [];
    assert MixAll(state, [a]) == Mix(MixAll(state, []), a);
  }

  /** The digests of a history of two blocks of two. */
  lemma DigestsOf(z: seq<TokenId>)
    requires |z| == 4
    ensures ChainHash(z[..2], 2) == Some(HashBlock(None, z[..2]))
    ensures ChainHash(z, 2) == Some(HashBlock(Some(HashBlock(None, z[..2])), z[2..]))
  {
    hide HashBlock;
    assert z[..2][..0] == [] && z[..2][0..] == z[..2];
    assert ChainHash([], 2) == None;
  }

  lemma SameDigests()
    ensures ChainHash(X[..2], 2) == Some(FIRST_DIGEST) == ChainHash(Y[..2], 2)
    ensures ChainHash(X, 2) == Some(SECOND_DIGEST) == ChainHash(Y, 2)
  {
    hide Mix, MixAll, ChainHash, Turning;
    assert X[..2] == [TOKEN_X, 0] && X[2..] == [0, 0];
    assert Y[..2] == [0, TOKEN_Y] && Y[2..] == [0, 0];
    DigestsOf(X);
    DigestsOf(Y);
    MixAllTwo(AFTER_LENGTH, TOKEN_X, 0);
    MixAllTwo(AFTER_LENGTH, 0, TOKEN_Y);
    MixAllTwo(Mix(FIRST_DIGEST, 2), 0, 0);
    LengthMixes();
    FirstOfX();
    SecondOfX();
    FirstOfY();
    SecondOfY();
    SecondBlockMixes();
  }

  lemma PrefixOfTwo(u: seq<TokenId>, z: seq<TokenId>)
    requires |z| == 4 && WholePrefix(u, z, 2)
    ensures u == z[..2] || u == z
  {
    assert u == z[..|u|];
  }

  /** Different prompts of two blocks, each of 32-bit tokens, that the index confuses. */
  lemma TokensCollide()
    ensures TOKEN_X < LOW && TOKEN_Y < LOW
    ensures WholeBlocks(X, 2) && WholeBlocks(Y, 2) && Confusable(X, Y, 2)
  {
    hide ChainHash, Turning;
    TokensAreWords();
    SameDigests();
    forall u | WholePrefix(u, X, 2) ensures u == X[..2] || u == X { PrefixOfTwo(u, X); }
    forall u | WholePrefix(u, Y, 2) ensures u == Y[..2] || u == Y { PrefixOfTwo(u, Y); }
    assert X[2..] == [0, 0] == Y[2..];
    assert X[0] != Y[0];
  }

  /**
   * A documented promise that fails: with token comparison and all, publishing the first
   * block of one prompt and then another prompt lets the first prompt adopt a block computed
   * for the other.
   */
  lemma CollisionCorrupts()
    ensures !AdoptsOwnHistory(StateAfter(12, 2, true, Both(X, Y, 2)), 2, X)
  {
    hide AdoptsOwnHistory, StateAfter, Confusable, ChainHash, Both, Turning;
    TokensCollide();
    ConfusablePairIsConfused(X, Y, 2);
    XLeads();
  }

  lemma XLeads()
    ensures Leading(X, 2)
  {
    hide ChainHash, Turning;
    SameDigests();
    forall u | WholePrefix(u, X, 2) ensures u == X[..2] || u == X { PrefixOfTwo(u, X); }
  }
}
