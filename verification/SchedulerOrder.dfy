// Global first-in first-out order, and the budgets of one scheduling pass.
module SchedulerOrder {
  import opened Prelude
  import opened Arithmetic
  import opened KvCache
  import opened Sequences
  import opened Scheduling

  /** The live requests, resident ones first, without what scheduling may change. */
  function Order(s: State): seq<Sequence> {
    Cores(s.running) + Cores(s.waiting)
  }

  lemma CoresOfConcat(a: seq<Sequence>, b: seq<Sequence>)
    ensures Cores(a + b) == Cores(a) + Cores(b)
  {
  }

  lemma CoresOfUpdate(list: seq<Sequence>, pos: nat, q: Sequence)
    requires pos < |list| && Core(q) == Core(list[pos])
    ensures Cores(list[pos := q]) == Cores(list)
  {
  }

  lemma PreemptKeepsOrder(p: Pass)
    requires PreemptOne(p).Some?
    ensures Order(PreemptOne(p).value.s) == Order(p.s)
  {
    var n := |p.s.running| - 1;
    var victim := p.s.running[n];
    assert p.s.running == p.s.running[..n] + [victim];
    CoresOfConcat(p.s.running[..n], [victim]);
    CoresOfConcat([victim.Preempt()], p.s.waiting);
    assert Cores([victim]) == Cores([victim.Preempt()]);
  }

  lemma DecodeOneKeepsOrder(p: Pass, id: SequenceId, totalLen: nat)
    requires p.s.cache.WellFormed()
    ensures Order(DecodeOne(p, id, totalLen).0.s) == Order(p.s)
  {
    hide Appended, Freed, Order;
    AppendedWellFormed(p.s.cache, id);
    var (q, ok) := TryAppend(p, id, totalLen);
    OrderIgnoresCache(p.s, q.s.cache);
    if !ok && PreemptOne(q).Some? {
      PreemptOneWellFormed(q);
      PreemptKeepsOrder(q);
      var e := PreemptOne(q).value;
      OrderIgnoresCache(e.s, TryAppend(e, id, totalLen).0.s.cache);
    }
  }

  lemma OrderIgnoresCache(s: State, cache: Manager)
    ensures Order(s.(cache := cache)) == Order(s)
  {
  }

  lemma {:induction false} DecodesKeepOrder(p: Pass, candidates: seq<(SequenceId, nat)>, budget: nat)
    requires p.s.cache.WellFormed()
    ensures Order(Decodes(p, candidates, budget).s) == Order(p.s)
    decreases |candidates|
  {
    hide DecodeOne, Order;
    if candidates != [] && p.used < budget {
      DecodeOneWellFormed(p, candidates[0].0, candidates[0].1);
      DecodeOneKeepsOrder(p, candidates[0].0, candidates[0].1);
      var (q, go) := DecodeOne(p, candidates[0].0, candidates[0].1);
      if go {
        DecodesKeepOrder(q, candidates[1..], budget);
      }
    }
  }

  lemma {:induction false} PartialsKeepOrder(p: Pass, candidates: seq<PartialPrefill>, budget: nat)
    ensures Order(Partials(p, candidates, budget).s) == Order(p.s)
    decreases |candidates|
  {
    hide Prefilled, Chunk;
    if candidates != [] && p.used < budget {
      var pos := Position(p.s.running, candidates[0].id);
      var q := PartialOne(p, candidates[0], budget);
      if q != p {
        CoresOfUpdate(p.s.running, pos, q.s.running[pos]);
      }
      PartialsKeepOrder(q, candidates[1..], budget);
    }
  }

  lemma AdmitHeadKeepsOrder(p: Pass, cache: Manager, chunk: nat)
    requires p.s.waiting != []
    ensures Order(AdmitHead(p, cache, chunk).s) == Order(p.s)
  {
    hide AdmittedSequence;
    var q := p.s.waiting[0];
    assert p.s.waiting == [q] + p.s.waiting[1..];
    CoresOfConcat([q], p.s.waiting[1..]);
    CoresOfConcat(p.s.running, [AdmittedSequence(q, chunk)]);
    assert Cores([AdmittedSequence(q, chunk)]) == Cores([q]);
  }

  lemma AdmitRoundKeepsOrder(p: Pass, budget: nat)
    requires p.s.cache.WellFormed()
    ensures Order(AdmitRound(p, budget).p.s) == Order(p.s)
  {
    hide Allocated, Freed, CeilDiv, Order, AdmitHead, Chunk;
    if PreemptOne(p).Some? {
      PreemptKeepsOrder(p);
    }
    if p.s.waiting != [] {
      var next := p.s.waiting[0];
      var (cache, r) := Allocated(p.s.cache, next.id, next.prompt);
      RequeueKeepsOrder(p.s, cache);
      match Chunk(p.s.config, next.RemainingPrefill(), SaturatingSub(budget, p.used))
      case None =>
      case Some(chunk) =>
        AdmitHeadKeepsOrder(p, cache, chunk);
        AdmitHeadKeepsOrder(p, p.s.cache, chunk);
    }
  }

  lemma RequeueKeepsOrder(s: State, cache: Manager)
    requires s.waiting != []
    ensures Order(s.(waiting := [s.waiting[0].Preempt()] + s.waiting[1..], cache := cache)) == Order(s)
  {
    assert Cores([s.waiting[0].Preempt()] + s.waiting[1..]) == Cores(s.waiting);
  }

  lemma {:induction false} AdmitKeepsOrder(p: Pass, budget: nat)
    requires p.s.cache.WellFormed()
    ensures Order(Admit(p, budget).s) == Order(p.s)
    decreases SaturatingSub(budget, p.used), |p.s.running|
  {
    hide AdmitRound, Order;
    AdmitRoundProgress(p, budget);
    AdmitRoundKeepsOrder(p, budget);
    match AdmitRound(p, budget)
    case Done(q) =>
    case Again(q) => AdmitKeepsOrder(q, budget);
  }

  /**
   * Global first-in first-out: whatever a pass preempts and re-admits, running followed by
   * waiting lists the same requests in the same order, with the same prompts, outputs,
   * parameters and finish states. No assumption on the state is needed.
   */
  lemma ScheduleKeepsOrder(s: State)
    requires s.cache.WellFormed()
    ensures Order(Schedule(s).s) == Order(s)
  {
    hide Order, Decodes, Partials, Admit, DecodeCandidates, PartialCandidates;
    var budget := s.config.maxBatchedTokens;
    var start := StartPass(s);
    if s.config.prioritizeDecode {
      DecodesKeepOrder(start, DecodeCandidates(s.running), budget);
      var p := DecodePass(start, budget);
      PartialsKeepOrder(p, PartialCandidates(p.s.running), budget);
      AdmitKeepsOrder(Partials(p, PartialCandidates(p.s.running), budget), budget);
    } else {
      PartialsKeepOrder(start, PartialCandidates(s.running), budget);
      AdmitKeepsOrder(Partials(start, PartialCandidates(s.running), budget), budget);
      var p := Prefills(start, budget);
      DecodesKeepOrder(p, DecodeCandidates(p.s.running), budget);
    }
  }

  // ----- Budgets -----

  /** The batch accounts for the tokens used, within the token and sequence budgets. */
  ghost predicate WithinBudgets(p: Pass, budget: nat) {
    && TokenSum(p.scheduled) == p.used <= budget
    && |p.s.running| <= p.s.config.maxNumSeqs
    && forall i :: 0 <= i < |p.scheduled| ==> p.scheduled[i].numTokens > 0
  }

  lemma TokenSumPush(batch: seq<Scheduled>, e: Scheduled)
    ensures TokenSum(batch + [e]) == TokenSum(batch) + e.numTokens
  {
    assert (batch + [e])[..|batch|] == batch;
  }

  lemma DecodeOneWithinBudgets(p: Pass, id: SequenceId, totalLen: nat, budget: nat)
    requires p.s.cache.WellFormed() && WithinBudgets(p, budget) && p.used < budget
    ensures WithinBudgets(DecodeOne(p, id, totalLen).0, budget)
    ensures DecodeOne(p, id, totalLen).0.used <= p.used + 1
  {
    hide Appended, Freed, TokenSum;
    AppendedWellFormed(p.s.cache, id);
    PreemptOneWellFormed(TryAppend(p, id, totalLen).0);
    TokenSumPush(p.scheduled, Scheduled(id, 1, totalLen, false));
  }

  lemma {:induction false} DecodesWithinBudgets(p: Pass, candidates: seq<(SequenceId, nat)>, budget: nat)
    requires p.s.cache.WellFormed() && WithinBudgets(p, budget)
    ensures WithinBudgets(Decodes(p, candidates, budget), budget)
    ensures Decodes(p, candidates, budget).s.config == p.s.config
    decreases |candidates|
  {
    hide DecodeOne, WithinBudgets;
    if candidates != [] && p.used < budget {
      DecodeOneWellFormed(p, candidates[0].0, candidates[0].1);
      DecodeOneWithinBudgets(p, candidates[0].0, candidates[0].1, budget);
      var (q, go) := DecodeOne(p, candidates[0].0, candidates[0].1);
      if go {
        DecodesWithinBudgets(q, candidates[1..], budget);
      }
    }
  }

  lemma {:induction false} PartialsWithinBudgets(p: Pass, candidates: seq<PartialPrefill>, budget: nat)
    requires WithinBudgets(p, budget)
    ensures WithinBudgets(Partials(p, candidates, budget), budget)
    ensures Partials(p, candidates, budget).s.config == p.s.config
    decreases |candidates|
  {
    hide Prefilled, TokenSum;
    if candidates != [] && p.used < budget {
      var c := candidates[0];
      var q := PartialOne(p, c, budget);
      if q != p {
        TokenSumPush(p.scheduled, q.scheduled[|p.scheduled|]);
      }
      PartialsWithinBudgets(q, candidates[1..], budget);
    }
  }

  lemma AdmitRoundWithinBudgets(p: Pass, budget: nat)
    requires p.s.cache.WellFormed() && WithinBudgets(p, budget)
    ensures WithinBudgets(AdmitRound(p, budget).p, budget)
  {
    hide Allocated, Freed, CeilDiv, AdmittedSequence, TokenSum;
    AdmitRoundProgress(p, budget);
    PreemptOneWellFormed(p);
    var q := AdmitRound(p, budget).p;
    if |q.scheduled| > |p.scheduled| {
      TokenSumPush(p.scheduled, q.scheduled[|p.scheduled|]);
    }
  }

  lemma {:induction false} AdmitWithinBudgets(p: Pass, budget: nat)
    requires p.s.cache.WellFormed() && WithinBudgets(p, budget)
    ensures WithinBudgets(Admit(p, budget), budget)
    ensures Admit(p, budget).s.config == p.s.config
    decreases SaturatingSub(budget, p.used), |p.s.running|
  {
    hide AdmitRound, WithinBudgets;
    AdmitRoundProgress(p, budget);
    AdmitRoundWithinBudgets(p, budget);
    match AdmitRound(p, budget)
    case Done(q) =>
    case Again(q) => AdmitWithinBudgets(q, budget);
  }

  /**
   * Although the admission loop both shrinks and regrows the running set, it preempts at
   * most once for each token left in the budget and once for each resident sequence.
   */
  lemma {:induction false} AdmitPreemptionsBounded(p: Pass, budget: nat)
    requires p.s.cache.WellFormed() && p.used <= budget
    ensures |Admit(p, budget).preempted| <= |p.preempted| + (budget - p.used) + |p.s.running|
    decreases SaturatingSub(budget, p.used), |p.s.running|
  {
    hide AdmitRound;
    AdmitRoundProgress(p, budget);
    match AdmitRound(p, budget)
    case Done(q) =>
    case Again(q) => AdmitPreemptionsBounded(q, budget);
  }

  /** Every batch keeps to the token budget and leaves at most the allowed number resident. */
  lemma ScheduleWithinBudgets(s: State)
    requires s.cache.WellFormed() && |s.running| <= s.config.maxNumSeqs
    ensures WithinBudgets(Schedule(s), s.config.maxBatchedTokens)
    ensures Schedule(s).s.config == s.config
  {
    hide WithinBudgets, Decodes, Partials, Admit, DecodeCandidates, PartialCandidates;
    var budget := s.config.maxBatchedTokens;
    var start := StartPass(s);
    assert WithinBudgets(start, budget) by { StartWithinBudgets(s, budget); }
    if s.config.prioritizeDecode {
      DecodesWithinBudgets(start, DecodeCandidates(s.running), budget);
      var p := DecodePass(start, budget);
      PartialsWithinBudgets(p, PartialCandidates(p.s.running), budget);
      AdmitWithinBudgets(Partials(p, PartialCandidates(p.s.running), budget), budget);
    } else {
      PartialsWithinBudgets(start, PartialCandidates(s.running), budget);
      AdmitWithinBudgets(Partials(start, PartialCandidates(s.running), budget), budget);
      var p := Prefills(start, budget);
      DecodesWithinBudgets(p, DecodeCandidates(p.s.running), budget);
    }
  }

  lemma StartWithinBudgets(s: State, budget: nat)
    requires |s.running| <= s.config.maxNumSeqs
    ensures WithinBudgets(StartPass(s), budget)
  {
  }
}
