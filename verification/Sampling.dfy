// The sampler, over reals: filters that mask logits in place, and one draw.
//
// The exponential is any positive function. The library's selection and sort are inputs,
// constrained by what they promise; the random draw is an input in [0, 1).
module Sampling {
  import opened Prelude

  const MASKED: real := -1000000000000000000000000000000.0

  type Exp = real -> real

  ghost predicate Positive(exp: Exp) {
    forall x :: exp(x) > 0.0
  }

  predicate Live(l: real) {
    l > MASKED
  }

  ghost predicate SomeLive(logits: seq<real>) {
    exists i :: 0 <= i < |logits| && Live(logits[i])
  }

  // ----- Penalty and temperature -----

  /** Down for either sign; once for each distinct token of the context. */
  function Penalized(logits: seq<real>, previous: seq<TokenId>, penalty: real): (r: seq<real>)
    requires penalty > 0.0
    ensures |r| == |logits|
  {
    if penalty == 1.0 then logits
    else
      seq(|logits|, i requires 0 <= i < |logits| =>
        if i in previous then PenalizedLogit(logits[i], penalty) else logits[i])
  }

  function PenalizedLogit(l: real, penalty: real): real
    requires penalty > 0.0
  {
    if l > 0.0 then l / penalty else l * penalty
  }

  /** A penalty of at least one never raises a logit. */
  lemma PenaltyLowers(l: real, penalty: real)
    requires penalty >= 1.0
    ensures PenalizedLogit(l, penalty) <= l
  {
    if l > 0.0 {
      var q := l / penalty;
      assert q * penalty == l;
      assert q * (penalty - 1.0) >= 0.0;
    } else {
      assert l * (penalty - 1.0) <= 0.0;
    }
  }

  function Tempered(logits: seq<real>, temperature: real): (r: seq<real>)
    requires temperature > 0.0
    ensures |r| == |logits|
  {
    if temperature == 1.0 then logits
    else seq(|logits|, i requires 0 <= i < |logits| => Times(logits[i], 1.0 / temperature))
  }

  function Times(x: real, y: real): real {
    x * y
  }

  // ----- Top-k -----

  /** What the partial selection promises: position n holds what sorting downwards would put there. */
  ghost predicate Selects(sorted: seq<real>, values: seq<real>, n: nat) {
    && multiset(sorted) == multiset(values) && n < |sorted|
    && (forall i :: 0 <= i < n ==> sorted[i] >= sorted[n])
    && (forall i :: n < i < |sorted| ==> sorted[i] <= sorted[n])
  }

  function TopK(logits: seq<real>, k: nat, threshold: real): (r: seq<real>)
    ensures |r| == |logits|
  {
    if k == 0 || k >= |logits| then logits
    else seq(|logits|, i requires 0 <= i < |logits| => if logits[i] < threshold then MASKED else logits[i])
  }

  function CountAtLeast(s: seq<real>, t: real): nat {
    if s == [] then 0 else CountAtLeast(s[..|s| - 1], t) + if s[|s| - 1] >= t then 1 else 0
  }

  function CountAbove(s: seq<real>, t: real): nat {
    if s == [] then 0 else CountAbove(s[..|s| - 1], t) + if s[|s| - 1] > t then 1 else 0
  }

  lemma {:induction false} CountsConcat(a: seq<real>, b: seq<real>, t: real)
    ensures CountAtLeast(a + b, t) == CountAtLeast(a, t) + CountAtLeast(b, t)
    ensures CountAbove(a + b, t) == CountAbove(a, t) + CountAbove(b, t)
  {
    if b == [] {
      assert a + b == a;
    } else {
      CountsConcat(a, b[..|b| - 1], t);
      assert (a + b)[..|a + b| - 1] == a + b[..|b| - 1];
    }
  }

  /** Counting does not depend on the order. */
  lemma {:induction false} CountsPermute(a: seq<real>, b: seq<real>, t: real)
    requires multiset(a) == multiset(b)
    ensures CountAtLeast(a, t) == CountAtLeast(b, t) && CountAbove(a, t) == CountAbove(b, t)
    decreases |a|
  {
    if a == [] {
      EmptyPermutation(b);
    } else {
      var front, last := a[..|a| - 1], a[|a| - 1];
      assert a == front + [last];
      assert last in multiset(b);
      var j :| 0 <= j < |b| && b[j] == last;
      var rest := b[..j] + b[j + 1..];
      RemoveSame(a, |a| - 1, b, j);
      assert a[..|a| - 1] + a[|a|..] == front;
      CountsPermute(front, rest, t);
      assert b == b[..j] + [last] + b[j + 1..];
      CountsConcat(b[..j], [last], t);
      CountsConcat(b[..j] + [last], b[j + 1..], t);
      CountsConcat(b[..j], b[j + 1..], t);
      assert [last][..0] == [];
    }
  }

  lemma EmptyPermutation(b: seq<real>)
    requires multiset(b) == multiset{}
    ensures b == []
  {
    assert |multiset(b)| == |b|;
  }

  lemma {:induction false} AllAtLeast(s: seq<real>, t: real)
    requires forall i :: 0 <= i < |s| ==> s[i] >= t
    ensures CountAtLeast(s, t) == |s|
  {
    if s != [] {
      AllAtLeast(s[..|s| - 1], t);
    }
  }

  lemma {:induction false} NoneAbove(s: seq<real>, t: real)
    requires forall i :: 0 <= i < |s| ==> s[i] <= t
    ensures CountAbove(s, t) == 0
  {
    if s != [] {
      NoneAbove(s[..|s| - 1], t);
    }
  }

  lemma {:induction false} CountBound(s: seq<real>, t: real)
    ensures CountAbove(s, t) <= |s|
  {
    if s != [] {
      CountBound(s[..|s| - 1], t);
    }
  }

  /** At least k logits reach the threshold, and fewer than k exceed it. */
  lemma ThresholdIsKth(logits: seq<real>, k: nat, sorted: seq<real>)
    requires 0 < k < |logits| && Selects(sorted, logits, k - 1)
    ensures CountAtLeast(logits, sorted[k - 1]) >= k > CountAbove(logits, sorted[k - 1])
  {
    hide CountAtLeast, CountAbove;
    var t, low, high := sorted[k - 1], sorted[..k - 1], sorted[k - 1..];
    assert sorted == low + high && |low| == k - 1;
    CountsPermute(sorted, logits, t);
    AllAtLeast(sorted[..k], t);
    assert sorted == sorted[..k] + sorted[k..];
    CountsConcat(sorted[..k], sorted[k..], t);
    NoneAbove(high, t);
    CountsConcat(low, high, t);
    CountBound(low, t);
  }

  /**
   * Top-k masks exactly the logits below the threshold; every token it masks is below every
   * token it keeps, at least k are kept, and all but fewer than k of those tie at the threshold.
   */
  lemma TopKKeepsTheLargest(logits: seq<real>, k: nat, sorted: seq<real>)
    requires 0 < k < |logits| && Selects(sorted, logits, k - 1)
    ensures var r, t := TopK(logits, k, sorted[k - 1]), sorted[k - 1];
            && (forall i :: 0 <= i < |r| ==> r[i] == if logits[i] >= t then logits[i] else MASKED)
            && (forall i, j :: 0 <= i < |r| && 0 <= j < |r| && logits[i] < t <= logits[j] ==> logits[i] < logits[j])
            && CountAtLeast(logits, t) >= k > CountAbove(logits, t)
    ensures SomeLive(logits) ==> SomeLive(TopK(logits, k, sorted[k - 1]))
  {
    ThresholdIsKth(logits, k, sorted);
    if SomeLive(logits) {
      var i :| 0 <= i < |logits| && Live(logits[i]);
      if logits[i] < sorted[k - 1] {
        assert sorted[k - 1] in multiset(sorted);
        assert sorted[k - 1] in multiset(logits);
        var j :| 0 <= j < |logits| && logits[j] == sorted[k - 1];
        assert Live(TopK(logits, k, sorted[k - 1])[j]);
      } else {
        assert Live(TopK(logits, k, sorted[k - 1])[i]);
      }
    }
  }

  // ----- Softmax -----

  function MaxOf(s: seq<real>): (m: real)
    requires s != []
    ensures m in s && forall i :: 0 <= i < |s| ==> s[i] <= m
  {
    if |s| == 1 then s[0]
    else
      var m := MaxOf(s[..|s| - 1]);
      if s[|s| - 1] > m then s[|s| - 1] else m
  }

  function Sum(s: seq<real>): real {
    if s == [] then 0.0 else Sum(s[..|s| - 1]) + s[|s| - 1]
  }

  function Weights(exp: Exp, logits: seq<real>, max: real): (w: seq<real>)
    ensures |w| == |logits|
  {
    seq(|logits|, i requires 0 <= i < |logits| => if Live(logits[i]) then exp(logits[i] - max) else 0.0)
  }

  function Uniform(n: nat): (u: seq<real>)
    ensures |u| == n
  {
    if n == 0 then [] else seq(n, _ => 1.0 / (n as real))
  }

  function Softmax(exp: Exp, logits: seq<real>): (p: seq<real>)
    ensures |p| == |logits|
  {
    if logits == [] || MaxOf(logits) <= MASKED then Uniform(|logits|)
    else
      var w := Weights(exp, logits, MaxOf(logits));
      var sum := Sum(w);
      if sum > 0.0 then seq(|w|, i requires 0 <= i < |w| => w[i] / sum) else Uniform(|logits|)
  }

  lemma {:induction false} SumIsPositive(s: seq<real>, i: nat)
    requires i < |s| && s[i] > 0.0 && forall k :: 0 <= k < |s| ==> s[k] >= 0.0
    ensures Sum(s) > 0.0
  {
    if i < |s| - 1 {
      SumIsPositive(s[..|s| - 1], i);
    } else {
      SumIsNonNegative(s[..|s| - 1]);
    }
  }

  lemma {:induction false} SumIsNonNegative(s: seq<real>)
    requires forall k :: 0 <= k < |s| ==> s[k] >= 0.0
    ensures Sum(s) >= 0.0
  {
    if s != [] {
      SumIsNonNegative(s[..|s| - 1]);
    }
  }

  lemma {:induction false} SumOfQuotients(s: seq<real>, d: real)
    requires d > 0.0
    ensures Sum(seq(|s|, i requires 0 <= i < |s| => s[i] / d)) == Sum(s) / d
  {
    var q := seq(|s|, i requires 0 <= i < |s| => s[i] / d);
    if s != [] {
      SumOfQuotients(s[..|s| - 1], d);
      assert q[..|s| - 1] == seq(|s| - 1, i requires 0 <= i < |s| - 1 => s[..|s| - 1][i] / d);
      AddQuotients(Sum(s[..|s| - 1]), s[|s| - 1], d);
    }
  }

  lemma AddQuotients(a: real, b: real, d: real)
    requires d > 0.0
    ensures a / d + b / d == (a + b) / d
  {
  }

  lemma PositiveQuotient(a: real, d: real)
    requires d > 0.0
    ensures a > 0.0 ==> a / d > 0.0
    ensures a == 0.0 ==> a / d == 0.0
    ensures d / d == 1.0
  {
    assert (a / d) * d == a;
  }

  /** With a live logit: a distribution whose support is exactly the live logits. */
  ghost predicate Distribution(p: seq<real>, logits: seq<real>) {
    && |p| == |logits| && Sum(p) == 1.0
    && forall i :: 0 <= i < |p| ==> p[i] >= 0.0 && (p[i] > 0.0 <==> Live(logits[i]))
  }

  lemma SoftmaxIsDistribution(exp: Exp, logits: seq<real>)
    requires Positive(exp) && SomeLive(logits)
    ensures Distribution(Softmax(exp, logits), logits)
  {
    var i :| 0 <= i < |logits| && Live(logits[i]);
    var max := MaxOf(logits);
    assert logits[i] <= max;
    var w := Weights(exp, logits, max);
    SumIsPositive(w, i);
    SumOfQuotients(w, Sum(w));
    PositiveQuotient(Sum(w), Sum(w));
    forall k | 0 <= k < |w| ensures w[k] / Sum(w) >= 0.0 && (w[k] / Sum(w) > 0.0 <==> Live(logits[k])) {
      PositiveQuotient(w[k], Sum(w));
    }
  }

  // ----- Top-p -----

  /** A token with its probability. */
  type Candidate = (nat, real)

  /** The live tokens among the first n, in order of index. */
  function Candidates(probs: seq<real>, logits: seq<real>, n: nat): (c: seq<Candidate>)
    requires n <= |probs| == |logits|
    ensures forall k :: 0 <= k < |c| ==>
              c[k].0 < n && c[k].1 == probs[c[k].0] && probs[c[k].0] > 0.0 && Live(logits[c[k].0])
    ensures forall i :: 0 <= i < n && probs[i] > 0.0 && Live(logits[i]) ==> (i, probs[i]) in c
    ensures forall j, k :: 0 <= j < k < |c| ==> c[j].0 < c[k].0
  {
    if n == 0 then []
    else
      var front := Candidates(probs, logits, n - 1);
      if probs[n - 1] > 0.0 && Live(logits[n - 1]) then front + [(n - 1, probs[n - 1])] else front
  }

  /** What the sort promises: the same candidates, most probable first. */
  ghost predicate Ranks(ranked: seq<Candidate>, candidates: seq<Candidate>) {
    && multiset(ranked) == multiset(candidates)
    && forall j, k :: 0 <= j < k < |ranked| ==> ranked[j].1 >= ranked[k].1
  }

  function Mass(c: seq<Candidate>): real {
    if c == [] then 0.0 else Mass(c[..|c| - 1]) + c[|c| - 1].1
  }

  /** How many of the ranked candidates are kept: up to the one that reaches p. */
  function Cutoff(ranked: seq<Candidate>, p: real, n: nat): (m: nat)
    requires n <= |ranked|
    ensures n <= m <= |ranked|
    decreases |ranked| - n
  {
    if n == |ranked| then |ranked|
    else if Mass(ranked[..n + 1]) >= p then n + 1
    else Cutoff(ranked, p, n + 1)
  }

  function MaskAll(logits: seq<real>, dropped: seq<Candidate>): (r: seq<real>)
    requires forall k :: 0 <= k < |dropped| ==> dropped[k].0 < |logits|
    ensures |r| == |logits|
    ensures forall i :: 0 <= i < |r| ==> r[i] == logits[i] || r[i] == MASKED
    ensures forall k :: 0 <= k < |dropped| ==> r[dropped[k].0] == MASKED
    ensures forall i :: 0 <= i < |r| && (forall k :: 0 <= k < |dropped| ==> dropped[k].0 != i) ==> r[i] == logits[i]
    decreases |dropped|
  {
    if dropped == [] then logits
    else MaskAll(logits[dropped[0].0 := MASKED], dropped[1..])
  }

  ghost predicate RanksLive(exp: Exp, logits: seq<real>, ranked: seq<Candidate>) {
    Ranks(ranked, Candidates(Softmax(exp, logits), logits, |logits|))
  }

  lemma RankedAreCandidates(exp: Exp, logits: seq<real>, ranked: seq<Candidate>)
    requires RanksLive(exp, logits, ranked)
    ensures forall k :: 0 <= k < |ranked| ==>
              var (i, pr) := ranked[k];
              i < |logits| && pr == Softmax(exp, logits)[i] && pr > 0.0 && Live(logits[i])
  {
    var c := Candidates(Softmax(exp, logits), logits, |logits|);
    forall k | 0 <= k < |ranked| ensures ranked[k] in c {
      assert ranked[k] in multiset(ranked);
      assert ranked[k] in multiset(c);
    }
  }

  function TopP(logits: seq<real>, p: real, ranked: seq<Candidate>): (r: seq<real>)
    requires forall k :: 0 <= k < |ranked| ==> ranked[k].0 < |logits|
    ensures |r| == |logits|
  {
    if p >= 1.0 || ranked == [] then logits else MaskAll(logits, ranked[Cutoff(ranked, p, 0)..])
  }

  // ----- Masses -----

  lemma {:induction false} MassConcat(a: seq<Candidate>, b: seq<Candidate>)
    ensures Mass(a + b) == Mass(a) + Mass(b)
  {
    if b == [] {
      assert a + b == a;
    } else {
      MassConcat(a, b[..|b| - 1]);
      assert (a + b)[..|a + b| - 1] == a + b[..|b| - 1];
    }
  }

  lemma {:induction false} MassPermutes(a: seq<Candidate>, b: seq<Candidate>)
    requires multiset(a) == multiset(b)
    ensures Mass(a) == Mass(b)
    decreases |a|
  {
    if a == [] {
      assert |multiset(b)| == |b|;
    } else {
      var front, last := a[..|a| - 1], a[|a| - 1];
      assert a == front + [last];
      assert last in multiset(b);
      var j :| 0 <= j < |b| && b[j] == last;
      var rest := b[..j] + b[j + 1..];
      RemoveSame(a, |a| - 1, b, j);
      assert a[..|a| - 1] + a[|a|..] == front;
      MassPermutes(front, rest);
      assert b == b[..j] + [last] + b[j + 1..];
      MassConcat(b[..j], [last]);
      MassConcat(b[..j] + [last], b[j + 1..]);
      MassConcat(b[..j], b[j + 1..]);
      MassOfOne(last);
    }
  }

  lemma MassOfOne(x: Candidate)
    ensures Mass([x]) == x.1
  {
  }

  /** The candidates carry all the probability. */
  lemma {:induction false} CandidatesCarryAll(probs: seq<real>, logits: seq<real>, n: nat)
    requires n <= |probs| == |logits|
    requires forall i :: 0 <= i < |probs| ==> probs[i] >= 0.0 && (probs[i] > 0.0 <==> Live(logits[i]))
    ensures Mass(Candidates(probs, logits, n)) == Sum(probs[..n])
  {
    hide Candidates;
    NoCandidates(probs, logits);
    if n > 0 {
      CandidatesCarryAll(probs, logits, n - 1);
      NextCandidate(probs, logits, n);
      assert probs[..n][..n - 1] == probs[..n - 1];
      var front, last := Candidates(probs, logits, n - 1), [(n - 1, probs[n - 1])];
      assert Sum(probs[..n]) == Mass(front) + probs[n - 1];
      if Live(logits[n - 1]) {
        MassConcat(front, last);
        MassOfOne(last[0]);
      } else {
        assert Candidates(probs, logits, n) == front;
      }
    }
  }

  lemma NoCandidates(probs: seq<real>, logits: seq<real>)
    requires |probs| == |logits|
    ensures Candidates(probs, logits, 0) == []
  {
  }

  lemma NextCandidate(probs: seq<real>, logits: seq<real>, n: nat)
    requires 0 < n <= |probs| == |logits|
    ensures Candidates(probs, logits, n)
            == Candidates(probs, logits, n - 1)
               + if probs[n - 1] > 0.0 && Live(logits[n - 1]) then [(n - 1, probs[n - 1])] else []
  {
  }

  lemma RankedMassIsOne(exp: Exp, logits: seq<real>, ranked: seq<Candidate>)
    requires Positive(exp) && SomeLive(logits) && RanksLive(exp, logits, ranked)
    ensures Mass(ranked) == 1.0 && ranked != []
  {
    var probs := Softmax(exp, logits);
    SoftmaxIsDistribution(exp, logits);
    CandidatesCarryAll(probs, logits, |logits|);
    assert probs[..|logits|] == probs;
    MassPermutes(ranked, Candidates(probs, logits, |logits|));
  }

  lemma {:induction false} CutoffCrosses(ranked: seq<Candidate>, p: real, n: nat)
    requires n < |ranked| && Mass(ranked) >= p && Mass(ranked[..n]) < p
    ensures var m := Cutoff(ranked, p, n);
            n < m <= |ranked| && Mass(ranked[..m]) >= p > Mass(ranked[..m - 1])
    decreases |ranked| - n
  {
    assert ranked[..|ranked|] == ranked;
    if Mass(ranked[..n + 1]) < p {
      CutoffCrosses(ranked, p, n + 1);
    }
  }

  /** The retained set: mass at least p, less than p without its last member, and no dropped token more probable. */
  lemma TopPKeepsTheNucleus(exp: Exp, logits: seq<real>, p: real, ranked: seq<Candidate>)
    requires Positive(exp) && SomeLive(logits) && RanksLive(exp, logits, ranked) && 0.0 < p < 1.0
    ensures forall k :: 0 <= k < |ranked| ==> ranked[k].0 < |logits|
    ensures var m, r := Cutoff(ranked, p, 0), TopP(logits, p, ranked);
            && 0 < m <= |ranked|
            && Mass(ranked[..m]) >= p > Mass(ranked[..m - 1])
            && (forall i :: 0 <= i < |r| ==> (Live(r[i]) <==> exists k :: 0 <= k < m && ranked[k].0 == i))
            && (forall i :: 0 <= i < |r| && Live(r[i]) ==> r[i] == logits[i])
            && (forall j, k :: 0 <= j < m <= k < |ranked| ==> ranked[j].1 >= ranked[k].1)
  {
    RankedAreCandidates(exp, logits, ranked);
    RankedMassIsOne(exp, logits, ranked);
    assert ranked[..0] == [];
    CutoffCrosses(ranked, p, 0);
    KeptAreLive(exp, logits, p, ranked);
  }

  lemma RankedIdsDiffer(exp: Exp, logits: seq<real>, ranked: seq<Candidate>, j: nat, k: nat)
    requires RanksLive(exp, logits, ranked) && j < k < |ranked|
    ensures ranked[j].0 != ranked[k].0
  {
    hide Softmax, Candidates;
    RankedAreCandidates(exp, logits, ranked);
    if ranked[j].0 == ranked[k].0 {
      TwoOccurrences(ranked, j, k);
      OnceOnly(Candidates(Softmax(exp, logits), logits, |logits|), ranked[j]);
    }
  }

  lemma {:induction false} OnceOnly(c: seq<Candidate>, x: Candidate)
    requires forall j, k :: 0 <= j < k < |c| ==> c[j].0 < c[k].0
    ensures multiset(c)[x] <= 1
  {
    if c != [] {
      var front, last := c[..|c| - 1], c[|c| - 1];
      OnceOnly(front, x);
      assert c == front + [last];
      assert multiset(c) == multiset(front) + multiset{last};
      if last == x {
        assert x !in front;
        assert multiset(front)[x] == 0;
      }
    }
  }

  lemma KeptAreLive(exp: Exp, logits: seq<real>, p: real, ranked: seq<Candidate>)
    requires Positive(exp) && SomeLive(logits) && RanksLive(exp, logits, ranked) && 0.0 < p < 1.0 && ranked != []
    requires forall k :: 0 <= k < |ranked| ==> ranked[k].0 < |logits|
    ensures var m, r := Cutoff(ranked, p, 0), TopP(logits, p, ranked);
            && (forall i :: 0 <= i < |r| ==> (Live(r[i]) <==> exists k :: 0 <= k < m && ranked[k].0 == i))
            && (forall i :: 0 <= i < |r| && Live(r[i]) ==> r[i] == logits[i])
  {
    hide Softmax, Cutoff, MaskAll, Candidates;
    var m, r := Cutoff(ranked, p, 0), TopP(logits, p, ranked);
    RankedAreCandidates(exp, logits, ranked);
    forall i | 0 <= i < |r| && Live(r[i]) ensures exists k :: 0 <= k < m && ranked[k].0 == i {
      var k := RankOf(exp, logits, ranked, i);
      DroppedAreMasked(logits, p, ranked, k);
    }
    forall k | 0 <= k < m ensures r[ranked[k].0] == logits[ranked[k].0] {
      NotDropped(exp, logits, ranked, m, k);
    }
  }

  lemma DroppedAreMasked(logits: seq<real>, p: real, ranked: seq<Candidate>, k: nat)
    requires p < 1.0 && k < |ranked| && forall j :: 0 <= j < |ranked| ==> ranked[j].0 < |logits|
    ensures k >= Cutoff(ranked, p, 0) ==> TopP(logits, p, ranked)[ranked[k].0] == MASKED
  {
    hide Cutoff, MaskAll;
    var m := Cutoff(ranked, p, 0);
    if k >= m {
      assert ranked[m..][k - m] == ranked[k];
    }
  }

  lemma NotDropped(exp: Exp, logits: seq<real>, ranked: seq<Candidate>, m: nat, k: nat)
    requires RanksLive(exp, logits, ranked) && k < m <= |ranked|
    ensures forall j :: 0 <= j < |ranked[m..]| ==> ranked[m..][j].0 != ranked[k].0
  {
    hide RanksLive;
    forall j | 0 <= j < |ranked[m..]| ensures ranked[m..][j].0 != ranked[k].0 {
      RankedIdsDiffer(exp, logits, ranked, k, m + j);
    }
  }

  lemma RankOf(exp: Exp, logits: seq<real>, ranked: seq<Candidate>, i: nat) returns (k: nat)
    requires Positive(exp) && RanksLive(exp, logits, ranked) && i < |logits| && Live(logits[i])
    ensures k < |ranked| && ranked[k].0 == i
  {
    var probs := Softmax(exp, logits);
    SoftmaxIsDistribution(exp, logits);
    var c := Candidates(probs, logits, |logits|);
    assert (i, probs[i]) in c;
    assert (i, probs[i]) in multiset(c);
    assert (i, probs[i]) in multiset(ranked);
    k :| 0 <= k < |ranked| && ranked[k] == (i, probs[i]);
  }

  // ----- The draw -----

  /** The first index whose cumulative probability exceeds r, from index i on. */
  function FirstBeyond(probs: seq<real>, r: real, i: nat): Option<nat>
    requires i <= |probs|
    decreases |probs| - i
  {
    if i == |probs| then None
    else if r < Sum(probs[..i + 1]) then Some(i)
    else FirstBeyond(probs, r, i + 1)
  }

  function LastPositive(probs: seq<real>): Option<nat> {
    if probs == [] then None
    else if probs[|probs| - 1] > 0.0 then Some(|probs| - 1)
    else LastPositive(probs[..|probs| - 1])
  }

  function SampleFrom(probs: seq<real>, r: real): nat {
    match FirstBeyond(probs, r, 0)
    case Some(i) => i
    case None =>
      match LastPositive(probs)
      case Some(i) => i
      case None => SaturatingSub(|probs|, 1)
  }

  /** The draw r falls in the slice of the unit interval that belongs to index i. */
  ghost predicate InSlice(probs: seq<real>, i: nat, r: real) {
    i < |probs| && probs[i] > 0.0 && Sum(probs[..i]) <= r < Sum(probs[..i]) + probs[i]
  }

  lemma {:induction false} FirstBeyondFinds(probs: seq<real>, r: real, i: nat)
    requires i <= |probs| && Sum(probs[..i]) <= r < Sum(probs)
    ensures var j := FirstBeyond(probs, r, i);
            j.Some? && i <= j.value < |probs| && Sum(probs[..j.value]) <= r < Sum(probs[..j.value + 1])
    decreases |probs| - i
  {
    assert probs[..|probs|] == probs;
    if i < |probs| && r >= Sum(probs[..i + 1]) {
      FirstBeyondFinds(probs, r, i + 1);
    }
  }

  /** A draw picks the token whose slice of the unit interval contains it; the slice is as long as its probability. */
  lemma DrawPicksItsSlice(probs: seq<real>, r: real)
    requires Sum(probs) == 1.0 && 0.0 <= r < 1.0
    ensures var i := SampleFrom(probs, r);
            InSlice(probs, i, r)
  {
    assert probs[..0] == [];
    FirstBeyondFinds(probs, r, 0);
    var i := SampleFrom(probs, r);
    assert probs[..i + 1][..i] == probs[..i];
  }

  // ----- The whole sampler -----

  datatype SamplerParams = SamplerParams(temperature: real, topK: nat, topP: real, repetitionPenalty: real)
  {
    /** What request validation admits. */
    predicate Valid() {
      temperature >= 0.0 && 0.0 < topP <= 1.0 && repetitionPenalty > 0.0
    }
  }

  /** Lowest index of a largest logit. */
  predicate IsArgmax(logits: seq<real>, i: nat) {
    && i < |logits|
    && (forall k :: 0 <= k < |logits| ==> logits[k] <= logits[i])
    && (forall k :: 0 <= k < i ==> logits[k] < logits[i])
  }

  /** The logits that reach top-k, and the ones that reach top-p. */
  function Scaled(logits: seq<real>, previous: seq<TokenId>, params: SamplerParams): (r: seq<real>)
    requires params.Valid() && params.temperature > 0.0
    ensures |r| == |logits|
  {
    Tempered(Penalized(logits, previous, params.repetitionPenalty), params.temperature)
  }

  /** The library's answers for a request: the selection over the scaled logits and the sort of what top-k leaves. */
  ghost predicate Answers(exp: Exp, scaled: seq<real>, params: SamplerParams, sorted: seq<real>, ranked: seq<Candidate>) {
    && (0 < params.topK < |scaled| ==> Selects(sorted, scaled, params.topK - 1))
    && (params.topP < 1.0 ==> RanksLive(exp, AfterTopK(scaled, params, sorted), ranked))
  }

  function AfterTopK(scaled: seq<real>, params: SamplerParams, sorted: seq<real>): (r: seq<real>)
    ensures |r| == |scaled|
  {
    if 0 < params.topK <= |sorted| then TopK(scaled, params.topK, sorted[params.topK - 1]) else scaled
  }

  /** The logits the draw sees. */
  function Kept(scaled: seq<real>, params: SamplerParams, sorted: seq<real>, ranked: seq<Candidate>): (r: seq<real>)
    requires forall k :: 0 <= k < |ranked| ==> ranked[k].0 < |scaled|
    ensures |r| == |scaled|
  {
    var after := AfterTopK(scaled, params, sorted);
    if params.topP >= 1.0 then after else TopP(after, params.topP, ranked)
  }

  /** Token i made it through both filters. */
  ghost predicate Survives(scaled: seq<real>, params: SamplerParams, sorted: seq<real>, ranked: seq<Candidate>, i: nat) {
    && i < |scaled|
    && (0 < params.topK < |scaled| ==> params.topK <= |sorted| && scaled[i] >= sorted[params.topK - 1])
    && (params.topP < 1.0 ==> exists k :: 0 <= k < Cutoff(ranked, params.topP, 0) && ranked[k].0 == i)
  }

  lemma TopKLeavesLive(exp: Exp, scaled: seq<real>, params: SamplerParams, sorted: seq<real>, ranked: seq<Candidate>)
    requires SomeLive(scaled) && Answers(exp, scaled, params, sorted, ranked)
    ensures SomeLive(AfterTopK(scaled, params, sorted))
    ensures forall i :: 0 <= i < |scaled| && Live(AfterTopK(scaled, params, sorted)[i]) && 0 < params.topK < |scaled| ==>
              params.topK <= |sorted| && scaled[i] >= sorted[params.topK - 1]
  {
    hide RanksLive;
    if 0 < params.topK < |scaled| {
      TopKKeepsTheLargest(scaled, params.topK, sorted);
    }
  }

  /**
   * With a live logit, every draw from [0, 1) yields a token that survived both filters, and
   * yields it exactly on a slice of the unit interval as long as its final probability.
   */
  lemma SampledTokenSurvives(exp: Exp, scaled: seq<real>, params: SamplerParams, sorted: seq<real>, ranked: seq<Candidate>, r: real)
    requires Positive(exp) && params.Valid() && SomeLive(scaled) && Answers(exp, scaled, params, sorted, ranked) && 0.0 <= r < 1.0
    requires forall k :: 0 <= k < |ranked| ==> ranked[k].0 < |scaled|
    ensures var probs := Softmax(exp, Kept(scaled, params, sorted, ranked));
            Survives(scaled, params, sorted, ranked, SampleFrom(probs, r)) && InSlice(probs, SampleFrom(probs, r), r)
  {
    hide Softmax, SampleFrom, AfterTopK, TopP, Cutoff, RanksLive, Selects;
    var after := AfterTopK(scaled, params, sorted);
    TopKLeavesLive(exp, scaled, params, sorted, ranked);
    var kept := Kept(scaled, params, sorted, ranked);
    if params.topP < 1.0 {
      TopPKeepsTheNucleus(exp, after, params.topP, ranked);
      assert Live(kept[ranked[0].0]);
    }
    SoftmaxIsDistribution(exp, kept);
    DrawPicksItsSlice(Softmax(exp, kept), r);
    var i := SampleFrom(Softmax(exp, kept), r);
    assert Live(kept[i]);
    assert Live(after[i]);
  }

  // ----- The loops -----

  /** The context's tokens in any order, each once. */
  method ApplyRepetitionPenalty(logits: array<real>, previous: seq<TokenId>, penalty: real)
    requires penalty > 0.0
    modifies logits
    ensures logits[..] == Penalized(old(logits[..]), previous, penalty)
  {
    if penalty == 1.0 {
      return;
    }
    var seen := set t | t in previous;
    while seen != {}
      invariant seen <= set t | t in previous
      invariant forall i :: 0 <= i < logits.Length ==>
                  logits[i] == if i in previous && i !in seen then PenalizedLogit(old(logits[i]), penalty) else old(logits[i])
    {
      var token :| token in seen;
      seen := seen - {token};
      if token < logits.Length {
        logits[token] := PenalizedLogit(logits[token], penalty);
      }
    }
  }

  method ApplyTemperature(logits: array<real>, temperature: real)
    requires temperature > 0.0
    modifies logits
    ensures logits[..] == Tempered(old(logits[..]), temperature)
  {
    hide Times;
    if temperature == 1.0 {
      return;
    }
    var inv := 1.0 / temperature;
    for i := 0 to logits.Length
      invariant forall k :: 0 <= k < logits.Length ==> logits[k] == if k < i then Times(old(logits[k]), inv) else old(logits[k])
    {
      logits[i] := Times(logits[i], inv);
    }
  }

  method ApplyTopK(logits: array<real>, k: nat, sorted: seq<real>)
    requires 0 < k < logits.Length ==> Selects(sorted, logits[..], k - 1)
    modifies logits
    ensures 0 < k < logits.Length ==> logits[..] == TopK(old(logits[..]), k, sorted[k - 1])
    ensures !(0 < k < logits.Length) ==> logits[..] == old(logits[..])
  {
    if k == 0 || k >= logits.Length {
      return;
    }
    var threshold := sorted[k - 1];
    for i := 0 to logits.Length
      invariant forall j :: 0 <= j < logits.Length ==>
                  logits[j] == if j < i && old(logits[j]) < threshold then MASKED else old(logits[j])
    {
      if logits[i] < threshold {
        logits[i] := MASKED;
      }
    }
  }

  method ComputeSoftmax(exp: Exp, logits: seq<real>) returns (out: seq<real>)
    ensures out == Softmax(exp, logits)
  {
    if logits == [] {
      return [];
    }
    var max := logits[0];
    for i := 1 to |logits|
      invariant max == MaxOf(logits[..i])
    {
      assert logits[..i + 1][..i] == logits[..i];
      max := if logits[i] > max then logits[i] else max;
    }
    assert logits[..|logits|] == logits;
    if max <= MASKED {
      return Uniform(|logits|);
    }
    var w: seq<real>, sum := [], 0.0;
    ghost var weights := Weights(exp, logits, max);
    for i := 0 to |logits|
      invariant w == weights[..i] && sum == Sum(w)
    {
      var e := if logits[i] <= MASKED then 0.0 else exp(logits[i] - max);
      assert (w + [e])[..i] == w;
      w := w + [e];
      sum := sum + e;
    }
    assert w == weights;
    out := if sum > 0.0 then seq(|w|, i requires 0 <= i < |w| => w[i] / sum) else Uniform(|logits|);
  }

  method CollectCandidates(probs: seq<real>, logits: array<real>) returns (c: seq<Candidate>)
    requires |probs| == logits.Length
    ensures c == Candidates(probs, logits[..], |probs|)
  {
    hide Candidates;
    c := [];
    NoCandidates(probs, logits[..]);
    for i := 0 to |probs|
      invariant c == Candidates(probs, logits[..], i)
    {
      NextCandidate(probs, logits[..], i + 1);
      if probs[i] > 0.0 && logits[i] > MASKED {
        c := c + [(i, probs[i])];
      }
    }
  }

  /** Masks the tail of the ranking beyond cumulative probability p. */
  method ApplyTopP(exp: Exp, logits: array<real>, p: real, ranked: seq<Candidate>)
    requires p < 1.0 ==> RanksLive(exp, logits[..], ranked)
    requires forall k :: 0 <= k < |ranked| ==> ranked[k].0 < logits.Length
    modifies logits
    ensures logits[..] == if p >= 1.0 then old(logits[..]) else TopP(old(logits[..]), p, ranked)
  {
    hide Softmax, Candidates, MaskAll, Mass, RanksLive;
    if p >= 1.0 {
      return;
    }
    var probs := ComputeSoftmax(exp, logits[..]);
    var candidates := CollectCandidates(probs, logits);
    if candidates == [] {
      NothingRanked(exp, logits[..], ranked);
      return;
    }
    SomethingRanked(exp, logits[..], ranked);
    var cutoff := FindCutoff(ranked, p);
    ghost var was := logits[..];
    ghost var dropped := ranked[cutoff..];
    assert dropped[0..] == dropped;
    for k := cutoff to |ranked|
      invariant MaskAll(logits[..], dropped[k - cutoff..]) == MaskAll(was, dropped)
    {
      MaskNext(logits[..], dropped, k - cutoff);
      ghost var before := logits[..];
      logits[ranked[k].0] := MASKED;
      assert logits[..] == before[ranked[k].0 := MASKED];
    }
    MaskNothing(logits[..], dropped[|dropped|..]);
  }

  lemma MaskNothing(logits: seq<real>, dropped: seq<Candidate>)
    requires dropped == []
    ensures MaskAll(logits, dropped) == logits
  {
  }

  lemma MaskNext(logits: seq<real>, dropped: seq<Candidate>, k: nat)
    requires k < |dropped| && forall j :: 0 <= j < |dropped| ==> dropped[j].0 < |logits|
    ensures MaskAll(logits, dropped[k..]) == MaskAll(logits[dropped[k].0 := MASKED], dropped[k + 1..])
  {
    assert dropped[k..][1..] == dropped[k + 1..];
  }

  lemma NothingRanked(exp: Exp, logits: seq<real>, ranked: seq<Candidate>)
    requires RanksLive(exp, logits, ranked) && Candidates(Softmax(exp, logits), logits, |logits|) == []
    ensures ranked == []
  {
    assert |multiset(ranked)| == |ranked|;
  }

  lemma SomethingRanked(exp: Exp, logits: seq<real>, ranked: seq<Candidate>)
    requires RanksLive(exp, logits, ranked) && Candidates(Softmax(exp, logits), logits, |logits|) != []
    ensures ranked != []
  {
    var c := Candidates(Softmax(exp, logits), logits, |logits|);
    assert |multiset(ranked)| == |ranked| && |multiset(c)| == |c|;
  }

  method FindCutoff(ranked: seq<Candidate>, p: real) returns (cutoff: nat)
    ensures cutoff == Cutoff(ranked, p, 0)
  {
    var cumulative := 0.0;
    assert ranked[..0] == [];
    for rank := 0 to |ranked|
      invariant cumulative == Mass(ranked[..rank]) && Cutoff(ranked, p, rank) == Cutoff(ranked, p, 0)
    {
      assert ranked[..rank + 1][..rank] == ranked[..rank];
      cumulative := cumulative + ranked[rank].1;
      if cumulative >= p {
        return rank + 1;
      }
    }
    cutoff := |ranked|;
  }

  method Argmax(logits: seq<real>) returns (best: Option<nat>)
    ensures best == None <==> logits == []
    ensures best.Some? ==> IsArgmax(logits, best.value)
  {
    best := None;
    for i := 0 to |logits|
      invariant best == None <==> i == 0
      invariant best.Some? ==> IsArgmax(logits[..i], best.value)
    {
      if best == None || logits[i] > logits[best.value] {
        best := Some(i);
      }
    }
    assert logits[..|logits|] == logits;
  }

  method DrawFrom(probs: seq<real>, r: real) returns (index: nat)
    ensures index == SampleFrom(probs, r)
  {
    var cumulative := 0.0;
    assert probs[..0] == [];
    for i := 0 to |probs|
      invariant cumulative == Sum(probs[..i]) && FirstBeyond(probs, r, i) == FirstBeyond(probs, r, 0)
    {
      assert probs[..i + 1][..i] == probs[..i];
      cumulative := cumulative + probs[i];
      if r < cumulative {
        return i;
      }
    }
    var n := |probs|;
    assert probs[..n] == probs;
    while n > 0
      invariant n <= |probs| && LastPositive(probs[..n]) == LastPositive(probs)
    {
      assert probs[..n][..n - 1] == probs[..n - 1];
      if probs[n - 1] > 0.0 {
        return n - 1;
      }
      n := n - 1;
    }
    index := SaturatingSub(|probs|, 1);
  }

  /** One token from a row of logits, which the filters overwrite. */
  method Sample(exp: Exp, logits: array<real>, previous: seq<TokenId>, params: SamplerParams,
                sorted: seq<real>, ranked: seq<Candidate>, r: real)
    returns (token: Option<TokenId>)
    requires params.Valid() && 0.0 <= r < 1.0
    requires params.temperature > 0.0 ==> Answers(exp, Scaled(logits[..], previous, params), params, sorted, ranked)
    requires forall k :: 0 <= k < |ranked| ==> ranked[k].0 < logits.Length
    modifies logits
    ensures token == None <==> logits.Length == 0
    ensures token.Some? && params.temperature == 0.0 ==>
              IsArgmax(Penalized(old(logits[..]), previous, params.repetitionPenalty), token.value)
    ensures token.Some? && params.temperature > 0.0 && Positive(exp) && SomeLive(Scaled(old(logits[..]), previous, params)) ==>
              Survives(Scaled(old(logits[..]), previous, params), params, sorted, ranked, token.value)
  {
    hide Softmax, Candidates, SampleFrom, Penalized, Tempered, TopK, TopP, RanksLive, Selects, Survives, Positive, SomeLive;
    if logits.Length == 0 {
      return None;
    }
    ApplyRepetitionPenalty(logits, previous, params.repetitionPenalty);
    if params.temperature == 0.0 {
      token := Argmax(logits[..]);
      return;
    }
    ApplyTemperature(logits, params.temperature);
    ghost var scaled := logits[..];
    ApplyTopK(logits, params.topK, sorted);
    assert logits[..] == AfterTopK(scaled, params, sorted) by {
      AfterSelection(exp, scaled, params, sorted, ranked);
    }
    ApplyTopP(exp, logits, params.topP, ranked);
    var probs := ComputeSoftmax(exp, logits[..]);
    var index := DrawFrom(probs, r);
    token := Some(index);
    if Positive(exp) && SomeLive(scaled) {
      SampledTokenSurvives(exp, scaled, params, sorted, ranked, r);
    }
  }

  lemma AfterSelection(exp: Exp, scaled: seq<real>, params: SamplerParams, sorted: seq<real>, ranked: seq<Candidate>)
    requires Answers(exp, scaled, params, sorted, ranked)
    ensures 0 < params.topK < |scaled| ==>
              params.topK <= |sorted| && AfterTopK(scaled, params, sorted) == TopK(scaled, params.topK, sorted[params.topK - 1])
    ensures !(0 < params.topK < |scaled|) ==> AfterTopK(scaled, params, sorted) == scaled
  {
  }
}
