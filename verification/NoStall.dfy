// No stall: a pass over outstanding work always schedules a sequence that stays resident.
module NoStall {
  import opened Prelude
  import opened Arithmetic
  import opened KvCache
  import opened KvConservation
  import opened Sequences
  import opened Scheduling
  import opened SchedulerOrder
  import opened SchedulerInvariant

  /** A prompt that the admission check lets through, and that is not empty. */
  ghost predicate Fits(m: Manager, q: Sequence)
    requires m.pool.blockSize > 0
  {
    |q.prompt| > 0 && CeilDiv(|q.prompt|, m.pool.blockSize) <= |m.pool.blocks|
  }

  ghost predicate AllFit(s: State)
    requires s.cache.pool.blockSize > 0
  {
    forall i :: 0 <= i < |Order(s)| ==> Fits(s.cache, Order(s)[i])
  }

  /** Chunked prefill, decodes first, and a budget that gives every resident sequence a token. */
  predicate RunsWell(config: Config) {
    config.chunkedPrefill && config.prioritizeDecode && config.maxBatchedTokens >= config.maxNumSeqs >= 1
  }

  ghost predicate Ready(s: State) {
    && Healthy(s) && NoneFinished(s)
    && RunsWell(s.config) && |s.running| <= s.config.maxNumSeqs
    && s.cache.pool.blockSize > 0 && AllFit(s)
  }

  /** Some entry of the batch belongs to a sequence that is resident. */
  ghost predicate SchedulesResident(p: Pass) {
    exists k, i :: 0 <= k < |p.scheduled| && 0 <= i < |p.s.running| && p.scheduled[k].id == p.s.running[i].id
  }

  // ----- What a pass keeps -----

  ghost predicate SamePool(a: State, b: State) {
    && |a.cache.pool.blocks| == |b.cache.pool.blocks|
    && a.cache.pool.blockSize == b.cache.pool.blockSize
    && a.config == b.config
  }

  lemma TryAppendKeepsPool(p: Pass, id: SequenceId, totalLen: nat)
    requires Consistent(p.s.cache)
    ensures Consistent(TryAppend(p, id, totalLen).0.s.cache)
    ensures SamePool(p.s, TryAppend(p, id, totalLen).0.s)
    ensures TryAppend(p, id, totalLen).1 ==> id in p.s.cache.tables
    ensures TryAppend(p, id, totalLen).0.s.cache.tables.Keys == p.s.cache.tables.Keys
  {
    hide Consistent, Appended;
    ConsistentIsWellFormed(p.s.cache);
    AppendingIsExact(p.s.cache, id);
    var after := Appended(p.s.cache, id).0;
    if Appended(p.s.cache, id).1.None? {
      assert after.tables.Keys == p.s.cache.tables.Keys + {id};
    }
  }

  lemma PreemptKeepsPool(p: Pass)
    requires Consistent(p.s.cache) && PreemptOne(p).Some?
    ensures var q := PreemptOne(p).value;
            && Consistent(q.s.cache) && SamePool(p.s, q.s)
            && q.s.cache.tables.Keys == p.s.cache.tables.Keys - {p.s.running[|p.s.running| - 1].id}
            && |q.s.running| == |p.s.running| - 1 && q.s.waiting != []
            && q.scheduled == p.scheduled && q.used == p.used
  {
    hide Consistent, Freed;
    FreeingConserves(p.s.cache, p.s.running[|p.s.running| - 1].id);
  }

  /** What one decode candidate does: scheduled at once, or only after an eviction, or not at all. */
  lemma DecodeOneCases(p: Pass, id: SequenceId, totalLen: nat)
    requires Consistent(p.s.cache)
    ensures p.s.cache.WellFormed()
    ensures var (q, go) := DecodeOne(p, id, totalLen);
            && Consistent(q.s.cache) && SamePool(p.s, q.s)
            && (q.s.running == p.s.running ==> q.s.waiting == p.s.waiting)
            && (|| (go && q.used == p.used + 1 && q.scheduled == p.scheduled + [Scheduled(id, 1, totalLen, false)]
                    && q.s.running == p.s.running && q.s.cache.tables.Keys == p.s.cache.tables.Keys
                    && id in p.s.cache.tables)
                || (!go && q.used == p.used && q.scheduled == p.scheduled && p.s.running == [] && q.s.running == [])
                || (go && p.s.running != [] && |q.s.running| == |p.s.running| - 1 && q.s.waiting != []
                    && q.s.cache.tables.Keys == p.s.cache.tables.Keys - {p.s.running[|p.s.running| - 1].id}
                    && p.scheduled <= q.scheduled && p.used <= q.used <= p.used + 1
                    && (q.used == p.used + 1 ==> id in q.s.cache.tables)))
  {
    hide Consistent, TryAppend, PreemptOne;
    ConsistentIsWellFormed(p.s.cache);
    TryAppendKeepsPool(p, id, totalLen);
    TryAppendShape(p, id, totalLen);
    var (q, ok) := TryAppend(p, id, totalLen);
    ConsistentIsWellFormed(q.s.cache);
    PreemptOneShape(q);
    if !ok && PreemptOne(q).Some? {
      PreemptKeepsPool(q);
      var e := PreemptOne(q).value;
      ConsistentIsWellFormed(e.s.cache);
      TryAppendKeepsPool(e, id, totalLen);
      TryAppendShape(e, id, totalLen);
    }
  }

  lemma ConsistentIsWellFormed(m: Manager)
    requires Consistent(m)
    ensures m.WellFormed()
  {
  }

  lemma TryAppendShape(p: Pass, id: SequenceId, totalLen: nat)
    requires p.s.cache.WellFormed()
    ensures var (q, ok) := TryAppend(p, id, totalLen);
            && q.s.running == p.s.running && q.s.waiting == p.s.waiting
            && (ok ==> q.used == p.used + 1 && q.scheduled == p.scheduled + [Scheduled(id, 1, totalLen, false)])
            && (!ok ==> q.used == p.used && q.scheduled == p.scheduled)
  {
    hide Appended;
  }

  lemma PreemptOneShape(p: Pass)
    ensures PreemptOne(p).None? <==> p.s.running == []
  {
  }

  // ----- The decode pass -----

  /**
   * `z` is the newest sequence and the last candidate. Once anything is evicted `z` has no
   * table, so its turn adds nothing.
   */
  lemma {:induction false} DecodesCount(p: Pass, candidates: seq<(SequenceId, nat)>, budget: nat, z: SequenceId)
    requires Consistent(p.s.cache) && p.s.cache.WellFormed()
    requires candidates != [] && candidates[|candidates| - 1].0 == z
    requires z !in p.s.cache.tables || (p.s.running != [] && p.s.running[|p.s.running| - 1].id == z)
    ensures var r := Decodes(p, candidates, budget);
            && (|r.s.running| < |p.s.running| || z !in p.s.cache.tables ==> r.used <= p.used + |candidates| - 1)
    decreases |candidates|
  {
    hide DecodeOne, Consistent;
    if p.used < budget {
      DecodeOneCases(p, candidates[0].0, candidates[0].1);
      DecodeOneWellFormed(p, candidates[0].0, candidates[0].1);
      var (q, go) := DecodeOne(p, candidates[0].0, candidates[0].1);
      if go && |candidates| > 1 {
        DecodesCount(q, candidates[1..], budget, z);
      }
    }
  }

  /** The general shape of a decode pass. */
  lemma {:induction false} DecodesShape(p: Pass, candidates: seq<(SequenceId, nat)>, budget: nat)
    requires Consistent(p.s.cache) && p.s.cache.WellFormed()
    ensures var r := Decodes(p, candidates, budget);
            && Consistent(r.s.cache) && SamePool(p.s, r.s)
            && p.scheduled <= r.scheduled && p.used <= r.used <= p.used + |candidates|
            && |r.s.running| <= |p.s.running|
            && (|r.s.running| < |p.s.running| ==> r.s.waiting != [])
            && (|r.s.running| == |p.s.running| ==>
                  && r.s.running == p.s.running && r.s.waiting == p.s.waiting
                  && (p.s.running != [] && candidates != [] && p.used < budget ==>
                        exists k :: 0 <= k < |r.scheduled| && r.scheduled[k].id == candidates[0].0))
    decreases |candidates|
  {
    hide DecodeOne, Consistent;
    if candidates != [] && p.used < budget {
      var (id, totalLen) := candidates[0];
      DecodeOneCases(p, id, totalLen);
      DecodeOneWellFormed(p, id, totalLen);
      var (q, go) := DecodeOne(p, id, totalLen);
      if go {
        DecodesShape(q, candidates[1..], budget);
        var r := Decodes(q, candidates[1..], budget);
        if q.used == p.used + 1 && q.s.running == p.s.running {
          assert q.scheduled[|p.scheduled|].id == id;
          assert r.scheduled[|p.scheduled|] == q.scheduled[|p.scheduled|];
        }
        if |q.s.running| < |p.s.running| && |r.s.running| == |q.s.running| {
          assert r.s.waiting == q.s.waiting;
        }
      }
    }
  }

  lemma {:induction false} DecodeCandidatesShape(list: seq<Sequence>)
    ensures |DecodeCandidates(list)| <= |list|
    ensures list != [] && |DecodeCandidates(list)| == |list| ==>
              DecodeCandidates(list)[|list| - 1].0 == list[|list| - 1].id
    ensures DecodeCandidates(list) != [] ==>
              exists i :: 0 <= i < |list| && list[i].id == DecodeCandidates(list)[0].0 && list[i].state.Decoding?
    ensures DecodeCandidates(list) == [] ==> forall i :: 0 <= i < |list| ==> !list[i].state.Decoding?
  {
    if list != [] {
      var front := list[..|list| - 1];
      DecodeCandidatesShape(front);
      if DecodeCandidates(front) != [] {
        var i :| 0 <= i < |front| && front[i].id == DecodeCandidates(front)[0].0 && front[i].state.Decoding?;
        assert list[i] == front[i];
      }
      assert forall i :: 0 <= i < |front| ==> front[i] == list[i];
    }
  }

  /** After an eviction in the decode pass there is budget left, a free place, and someone waiting. */
  lemma DecodePassLeavesRoom(s: State)
    requires Ready(s) && s.cache.WellFormed()
    ensures var p := DecodePass(StartPass(s), s.config.maxBatchedTokens);
            |p.s.running| < |s.running| ==> p.used < s.config.maxBatchedTokens && p.s.waiting != []
  {
    hide Decodes, DecodeCandidates, Consistent;
    var budget, candidates, start := s.config.maxBatchedTokens, DecodeCandidates(s.running), StartPass(s);
    DecodeCandidatesShape(s.running);
    DecodesShape(start, candidates, budget);
    var p := DecodePass(start, budget);
    if |p.s.running| < |s.running| && |candidates| == |s.running| {
      DecodesCount(start, candidates, budget, s.running[|s.running| - 1].id);
    }
  }

  // ----- Partial prefills -----

  lemma {:induction false} PartialsShape(p: Pass, candidates: seq<PartialPrefill>, budget: nat)
    requires PartialsMatch(p.s.running, candidates) && p.s.config.chunkedPrefill
    ensures var r := Partials(p, candidates, budget);
            && p.scheduled <= r.scheduled && p.used <= r.used && r.s.waiting == p.s.waiting
            && r.s.config == p.s.config && Ids(r.s.running) == Ids(p.s.running)
            && (r.used == p.used ==> r == p)
            && (r.used > p.used ==> SchedulesResident(r))
            && (candidates != [] && p.used < budget ==> r.used > p.used)
            && (SchedulesResident(p) ==> SchedulesResident(r))
    decreases |candidates|
  {
    hide Prefilled, PartialMatches;
    if candidates != [] && p.used < budget {
      var c := candidates[0];
      PartialOneSchedules(p, c, budget);
      var q := PartialOne(p, c, budget);
      forall i | 0 < i < |candidates| ensures PartialMatches(q.s.running, candidates[i]) {
        PartialOneKeepsOthers(p, c, budget, candidates[i]);
      }
      PartialsShape(q, candidates[1..], budget);
      var r := Partials(q, candidates[1..], budget);
      ResidentStays(q, r);
      if SchedulesResident(p) {
        ResidentStays(p, q);
      }
    }
  }

  lemma PartialOneSchedules(p: Pass, c: PartialPrefill, budget: nat)
    requires PartialMatches(p.s.running, c) && p.s.config.chunkedPrefill && p.used < budget
    ensures var q := PartialOne(p, c, budget);
            && q.used > p.used && p.scheduled <= q.scheduled && q.s.waiting == p.s.waiting
            && q.s.config == p.s.config && Ids(q.s.running) == Ids(p.s.running)
            && SchedulesResident(q)
  {
    hide Prefilled;
    var pos, q := Position(p.s.running, c.id), PartialOne(p, c, budget);
    assert q.scheduled[|p.scheduled|].id == q.s.running[pos].id;
  }

  lemma ResidentStays(p: Pass, q: Pass)
    requires SchedulesResident(p) && p.scheduled <= q.scheduled && Ids(q.s.running) == Ids(p.s.running)
    ensures SchedulesResident(q)
  {
    var k, i :| 0 <= k < |p.scheduled| && 0 <= i < |p.s.running| && p.scheduled[k].id == p.s.running[i].id;
    assert Ids(q.s.running)[i] == Ids(p.s.running)[i];
    assert q.scheduled[k].id == q.s.running[i].id;
  }

  // ----- The admission loop -----

  ghost predicate CanRun(p: Pass, budget: nat) {
    |p.s.running| < p.s.config.maxNumSeqs && p.used < budget && p.s.waiting != []
  }

  lemma AllFitKept(s: State, after: State)
    requires s.cache.pool.blockSize > 0 && AllFit(s) && Order(after) == Order(s) && SamePool(s, after)
    ensures AllFit(after)
  {
  }

  lemma HeadFits(s: State)
    requires s.cache.pool.blockSize > 0 && AllFit(s) && s.waiting != []
    ensures Fits(s.cache, s.waiting[0])
  {
    assert Order(s)[|s.running|] == Core(s.waiting[0]);
  }

  /**
   * Whenever the loop can run a round, the round admits the head or makes room by an
   * eviction; with nothing left to evict every block is free, so the head fits.
   */
  lemma AdmitRoundAdmits(p: Pass, budget: nat)
    requires PassOk(p) && p.s.cache.WellFormed() && AllFit(p.s) && p.s.config.chunkedPrefill
    requires CanRun(p, budget)
    ensures var next := AdmitRound(p, budget);
            && next.Again? && SamePool(p.s, next.p.s) && p.scheduled <= next.p.scheduled
            && (SchedulesResident(next.p) || CanRun(next.p, budget))
  {
    hide Consistent, Order, Allocated, Freed, Fits, Resident, AllocationExact;
    var head := p.s.waiting[0];
    HeadFits(p.s);
    HeadHasTokens(p.s.cache, head);
    assert Queued(head);
    if CanAllocate(p.s.cache, |head.prompt|) {
      IdsAreDistinct(p.s);
      assert head.id !in IdSet(p.s.running);
      AllocationIsExact(p.s.cache, head.id, head.prompt);
      AllocationKeys(p.s.cache, head.id, head.prompt);
      var q := AdmitRound(p, budget).p;
      assert q.scheduled[|p.scheduled|].id == q.s.running[|p.s.running|].id;
    } else {
      if p.s.running == [] {
        assert p.s.cache.tables == map[];
        NoTablesAllFree(p.s.cache);
      }
      PreemptKeepsPool(p);
    }
  }

  lemma HeadHasTokens(m: Manager, q: Sequence)
    requires m.pool.blockSize > 0 && Fits(m, q)
    ensures |q.prompt| > 0 && CeilDiv(|q.prompt|, m.pool.blockSize) <= |m.pool.blocks|
  {
  }

  lemma {:induction false} AdmitSchedules(p: Pass, budget: nat)
    requires PassOk(p) && p.s.cache.WellFormed() && AllFit(p.s) && p.s.config.chunkedPrefill
    requires SchedulesResident(p) || CanRun(p, budget)
    ensures SchedulesResident(Admit(p, budget))
    decreases SaturatingSub(budget, p.used), |p.s.running|
  {
    hide AdmitRound, PassOk, SchedulesResident, AllFit;
    AdmitRoundProgress(p, budget);
    AdmitRoundOk(p, budget);
    if CanRun(p, budget) {
      AdmitRoundAdmits(p, budget);
      AdmitRoundKeepsOrder(p, budget);
      AllFitKept(p.s, AdmitRound(p, budget).p.s);
      AdmitSchedules(AdmitRound(p, budget).p, budget);
    } else {
      AdmitRoundStops(p, budget);
    }
  }

  lemma AdmitRoundStops(p: Pass, budget: nat)
    requires p.s.cache.WellFormed() && !CanRun(p, budget)
    ensures AdmitRound(p, budget) == Done(p)
  {
  }

  // ----- The whole pass -----

  lemma StartOk(s: State)
    requires Healthy(s) && NoneFinished(s)
    ensures PassOk(StartPass(s))
  {
  }

  /** Without evictions the first candidate decodes; without candidates a prefill resumes or the queue holds work. */
  lemma DecodedOrResumed(s: State)
    requires Ready(s) && s.cache.WellFormed() && s.running != []
    ensures var budget := s.config.maxBatchedTokens;
            var p := DecodePass(StartPass(s), budget);
            |p.s.running| == |s.running| ==>
              && p.s.running == s.running
              && (SchedulesResident(p) || (p == StartPass(s) && PartialCandidates(s.running) != []))
  {
    hide Decodes, Consistent, PartialsMatch, AllFit;
    var budget, candidates, start := s.config.maxBatchedTokens, DecodeCandidates(s.running), StartPass(s);
    DecodeCandidatesShape(s.running);
    DecodesShape(start, candidates, budget);
    var p := DecodePass(start, budget);
    if |p.s.running| == |s.running| {
      if candidates != [] {
        var k :| 0 <= k < |p.scheduled| && p.scheduled[k].id == candidates[0].0;
        var i :| 0 <= i < |s.running| && s.running[i].id == candidates[0].0;
        assert p.scheduled[k].id == p.s.running[i].id;
      } else {
        assert p == start by { DecodesOfNothing(start, budget); }
        assert Resident(s.running[0]) && !s.running[0].state.Decoding? && !s.running[0].state.Finished?;
        SomePartial(s.running, |s.running|, 0);
        assert s.running[..|s.running|] == s.running;
      }
    }
  }

  lemma DecodesOfNothing(p: Pass, budget: nat)
    requires p.s.cache.WellFormed()
    ensures Decodes(p, [], budget) == p
  {
  }

  lemma {:induction false} SomePartial(running: seq<Sequence>, n: nat, i: nat)
    requires i < n <= |running| && running[i].state.Prefilling? && !running[i].PrefillComplete()
    ensures PartialCandidates(running[..n]) != []
  {
    assert running[..n][..n - 1] == running[..n - 1];
    if i < n - 1 {
      SomePartial(running, n - 1, i);
    }
  }

  /** Before the admission loop, either a resident sequence is scheduled or the loop can run. */
  lemma BeforeAdmission(s: State)
    requires Ready(s) && s.cache.WellFormed() && s.running + s.waiting != []
    ensures var budget := s.config.maxBatchedTokens;
            var p := DecodePass(StartPass(s), budget);
            var r := Partials(p, PartialCandidates(p.s.running), budget);
            && PassOk(r) && r.s.cache.WellFormed() && SamePool(s, r.s) && Order(r.s) == Order(s)
            && (SchedulesResident(r) || CanRun(r, budget))
  {
    hide Decodes, DecodeCandidates, Partials, PartialCandidates, Consistent, PartialsMatch, Order, AllFit,
      SchedulesResident;
    var budget, start := s.config.maxBatchedTokens, StartPass(s);
    var p := DecodePass(start, budget);
    StartOk(s);
    DecodesOk(start, DecodeCandidates(s.running), budget);
    DecodesShape(start, DecodeCandidates(s.running), budget);
    DecodesKeepOrder(start, DecodeCandidates(s.running), budget);
    DecodePassLeavesRoom(s);
    IdsAreDistinct(p.s);
    PartialCandidatesFrom(p.s.running, |p.s.running|);
    assert p.s.running[..|p.s.running|] == p.s.running;
    PartialsOk(p, PartialCandidates(p.s.running), budget);
    PartialsKeepOrder(p, PartialCandidates(p.s.running), budget);
    PartialsShape(p, PartialCandidates(p.s.running), budget);
    if s.running != [] {
      DecodedOrResumed(s);
    } else {
      DecodeCandidatesOfNothing(s);
    }
    var r := Partials(p, PartialCandidates(p.s.running), budget);
    assert |Ids(r.s.running)| == |r.s.running|;
  }

  lemma DecodeCandidatesOfNothing(s: State)
    requires s.cache.WellFormed() && s.running == []
    ensures DecodePass(StartPass(s), s.config.maxBatchedTokens) == StartPass(s)
  {
  }

  /**
   * No stall: with chunked prefill, decodes first and a sufficient budget, a pass that starts
   * with no finished sequence running schedules some sequence that is still resident when it
   * returns, however many evictions free nothing because blocks are shared.
   */
  lemma WorkNeverStalls(s: State)
    requires Ready(s) && s.running + s.waiting != []
    ensures s.cache.WellFormed() && SchedulesResident(Schedule(s))
  {
    hide DecodePass, Partials, PartialCandidates, Consistent, PassOk, AllFit, SchedulesResident, Order, Healthy;
    HealthyIsWellFormed(s);
    var budget := s.config.maxBatchedTokens;
    BeforeAdmission(s);
    var p := DecodePass(StartPass(s), budget);
    var r := Partials(p, PartialCandidates(p.s.running), budget);
    AllFitKept(s, r.s);
    AdmitSchedules(r, budget);
  }

  // ----- Why no finished sequence may be running -----

  /** A head without remaining prefill is never admitted, whoever waits behind it. */
  lemma CompleteHeadBlocksTheQueue(p: Pass, budget: nat)
    requires p.s.cache.WellFormed() && p.s.waiting != [] && p.s.waiting[0].RemainingPrefill() == 0
    ensures Admit(p, budget) == p
  {
  }
}
