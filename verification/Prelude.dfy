// Types shared by every component.
module Prelude {

  datatype Option<+T> = None | Some(value: T)

  /** Error classes of the engine; the messages carried by the source are not part of the model. */
  datatype EngineError =
    | Internal
    | CacheExhausted(needed: nat, available: nat)
    | QueueFull(queued: nat, limit: nat)
    | ContextLengthExceeded(promptTokens: nat, maxTokens: nat, contextLen: nat)
    | InvalidRequest

  datatype Result<+T> = Ok(value: T) | Err(error: EngineError)

  type TokenId = nat
  type SequenceId = nat
  type BlockId = nat

  function Min(a: nat, b: nat): nat {
    if a < b then a else b
  }

  /** `a` less `b`, never below zero. */
  function SaturatingSub(a: nat, b: nat): nat {
    if a < b then 0 else a - b
  }

  ghost predicate NoDuplicates<T>(s: seq<T>) {
    forall i, j :: 0 <= i < j < |s| ==> s[i] != s[j]
  }

  ghost function Elements<T(!new)>(s: seq<T>): (r: set<T>)
    ensures forall x :: x in r <==> x in s
  {
    set x | x in s
  }

  lemma DistinctCount<T(!new)>(s: seq<T>)
    requires NoDuplicates(s)
    ensures |Elements(s)| == |s|
  {
    if s == [] {
      assert Elements(s) == {};
    } else {
      var front, last := s[..|s| - 1], s[|s| - 1];
      DistinctCount(front);
      assert Elements(s) == Elements(front) + {last};
      assert last !in front;
    }
  }

  /** The set {0, ..., n - 1}. */
  ghost function Below(n: nat): (r: set<nat>)
    ensures |r| == n
    ensures forall x: nat :: x in r <==> x < n
  {
    if n == 0 then {} else Below(n - 1) + {n - 1}
  }

  // ----- Sequences as multisets -----

  lemma RemoveOne<T>(s: seq<T>, j: nat)
    requires j < |s|
    ensures multiset(s[..j] + s[j + 1..]) == multiset(s) - multiset{s[j]}
  {
    assert s == s[..j] + ([s[j]] + s[j + 1..]);
  }

  /** Permutations stay permutations without the same element. */
  lemma RemoveSame<T>(a: seq<T>, i: nat, b: seq<T>, j: nat)
    requires i < |a| && j < |b| && a[i] == b[j] && multiset(a) == multiset(b)
    ensures multiset(a[..i] + a[i + 1..]) == multiset(b[..j] + b[j + 1..])
  {
    RemoveOne(a, i);
    RemoveOne(b, j);
  }

  lemma TwoOccurrences<T>(s: seq<T>, j: nat, k: nat)
    requires j < k < |s| && s[j] == s[k]
    ensures multiset(s)[s[j]] >= 2
  {
    RemoveOne(s, k);
    assert (s[..k] + s[k + 1..])[j] == s[j];
    assert s[j] in multiset(s[..k] + s[k + 1..]);
  }
}
