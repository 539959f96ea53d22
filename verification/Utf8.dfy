// Strings of characters, measured and cut in UTF-8 bytes.
module Utf8 {
  import opened Prelude

  function CharBytes(c: char): (n: nat)
    ensures 1 <= n <= 4
  {
    if c as int < 0x80 then 1 else if c as int < 0x800 then 2 else if c as int < 0x1_0000 then 3 else 4
  }

  function ByteLen(s: string): nat {
    if s == "" then 0 else CharBytes(s[0]) + ByteLen(s[1..])
  }

  /** The text from byte `n` on; None when `n` is inside a character or past the end. */
  function DropBytes(s: string, n: nat): Option<string> {
    if n == 0 then Some(s)
    else if s == "" || n < CharBytes(s[0]) then None
    else DropBytes(s[1..], n - CharBytes(s[0]))
  }

  lemma {:induction false} ByteLenConcat(a: string, b: string)
    ensures ByteLen(a + b) == ByteLen(a) + ByteLen(b)
  {
    if a == "" {
      assert a + b == b;
    } else {
      ByteLenConcat(a[1..], b);
      assert (a + b)[1..] == a[1..] + b;
    }
  }

  lemma NothingHasNoBytes()
    ensures ByteLen("") == 0
  {
  }

  lemma ByteLenAtLeast(s: string)
    ensures ByteLen(s) >= |s|
  {
  }

  /** Cutting off a prefix by its length in bytes leaves the rest. */
  lemma {:induction false} DropPrefix(a: string, b: string)
    ensures DropBytes(a + b, ByteLen(a)) == Some(b)
  {
    if a == "" {
      assert a + b == b;
    } else {
      DropPrefix(a[1..], b);
      assert (a + b)[1..] == a[1..] + b;
    }
  }

  /** Whatever is cut off is a prefix of that many bytes. */
  lemma {:induction false} DroppedPrefix(s: string, n: nat) returns (a: string)
    requires DropBytes(s, n).Some?
    ensures s == a + DropBytes(s, n).value && ByteLen(a) == n
  {
    if n == 0 {
      a := "";
    } else {
      var rest := DroppedPrefix(s[1..], n - CharBytes(s[0]));
      a := [s[0]] + rest;
      assert a[1..] == rest;
    }
  }

  /** Two prefixes of one text are ordered by their lengths in bytes. */
  lemma {:induction false} PrefixesByBytes(a: string, b: string, s: string)
    requires a <= s && b <= s && ByteLen(a) <= ByteLen(b)
    ensures a <= b
  {
    if |a| > |b| {
      assert a == b + a[|b|..];
      ByteLenConcat(b, a[|b|..]);
      ByteLenAtLeast(a[|b|..]);
    }
  }

  // ----- Character boundaries -----

  /** The last character boundary at or before byte `n`. */
  function Boundary(s: string, n: nat): (b: nat)
    ensures b <= n && DropBytes(s, b).Some?
  {
    if DropBytes(s, n).Some? then n else Boundary(s, n - 1)
  }

  lemma {:induction false} BoundaryShift(s: string, n: nat)
    requires s != "" && n >= CharBytes(s[0])
    ensures Boundary(s, n) == CharBytes(s[0]) + Boundary(s[1..], n - CharBytes(s[0]))
    decreases n
  {
    if n == CharBytes(s[0]) {
      assert DropBytes(s, n) == DropBytes(s[1..], 0);
    } else if DropBytes(s, n).None? {
      BoundaryShift(s, n - 1);
    }
  }

  /** A boundary is never more than three bytes away. */
  lemma {:induction false} BoundaryIsNear(s: string, n: nat)
    requires n <= ByteLen(s)
    ensures n <= Boundary(s, n) + 3
  {
    if s != "" && n >= CharBytes(s[0]) {
      BoundaryShift(s, n);
      BoundaryIsNear(s[1..], n - CharBytes(s[0]));
    }
  }
}
