// Progress beside finished sequences: the oldest running sequence keeps a pass going.
module OldestRunning {
  import opened Prelude
  import opened Arithmetic
  import opened KvCache
  import opened KvConservation
  import opened Sequences
  import opened Scheduling
  import opened SchedulerOrder
  import opened SchedulerInvariant
  import opened NoStall
  import opened FinishedRunning

  ghost predicate Owned(s: State) {
    && Consistent(s.cache) && NoDuplicates(Ids(Order(s)))
    && s.cache.tables.Keys <= IdSet(s.running)
  }

  lemma OwnedPreempt(p: Pass)
    requires Owned(p.s) && p.s.running != []
    ensures PreemptOne(p).Some? && NewestLeft(p, PreemptOne(p).value) && Owned(PreemptOne(p).value.s)
  {
    hide Consistent, Order, IdSet, NoDuplicates;
    NewestLeaves(p);
    var n := |p.s.running| - 1;
    assert p.s.running == p.s.running[..n] + [p.s.running[n]];
    IdSetPush(p.s.running[..n], p.s.running[n]);
  }

  lemma OwnedAppend(p: Pass, id: SequenceId, totalLen: nat)
    requires Owned(p.s) && p.s.cache.WellFormed()
    ensures Owned(TryAppend(p, id, totalLen).0.s) && SamePool(p.s, TryAppend(p, id, totalLen).0.s)
  {
    hide Consistent, Order, IdSet, NoDuplicates, Appended;
    TryAppendKeepsPool(p, id, totalLen);
    OrderIgnoresCache(p.s, Appended(p.s.cache, id).0);
  }

  /** A decode candidate costs at most the newest sequence. */
  ghost predicate Shortened(p: Pass, q: Pass, most: nat) {
    && Owned(q.s) && SamePool(p.s, q.s) && Order(q.s) == Order(p.s)
    && q.s.running <= p.s.running && |p.s.running| - most <= |q.s.running|
    && p.scheduled <= q.scheduled && p.used <= q.used <= p.used + most
  }

  lemma DecodeOneShortens(p: Pass, id: SequenceId, totalLen: nat)
    requires Owned(p.s) && p.s.cache.WellFormed()
    ensures Shortened(p, DecodeOne(p, id, totalLen).0, 1)
  {
    hide Owned, TryAppend, PreemptOne, Order, Consistent;
    OwnedAppend(p, id, totalLen);
    TryAppendShape(p, id, totalLen);
    TryAppendWellFormed(p, id, totalLen);
    DecodeOneKeepsOrder(p, id, totalLen);
    var (q, ok) := TryAppend(p, id, totalLen);
    PreemptOneShape(q);
    if !ok && q.s.running != [] {
      OwnedPreempt(q);
      PreemptOneWellFormed(q);
      OwnedAppend(PreemptOne(q).value, id, totalLen);
      TryAppendShape(PreemptOne(q).value, id, totalLen);
    }
  }

  lemma {:induction false} DecodesShorten(p: Pass, candidates: seq<(SequenceId, nat)>, budget: nat)
    requires Owned(p.s) && p.s.cache.WellFormed()
    ensures Shortened(p, Decodes(p, candidates, budget), |candidates|)
    decreases |candidates|
  {
    hide Owned, DecodeOne, Order;
    if candidates != [] && p.used < budget {
      DecodeOneWellFormed(p, candidates[0].0, candidates[0].1);
      DecodeOneShortens(p, candidates[0].0, candidates[0].1);
      var (q, go) := DecodeOne(p, candidates[0].0, candidates[0].1);
      if go {
        DecodesShorten(q, candidates[1..], budget);
      }
    }
  }

  /** The oldest is the first candidate of its kind. */
  lemma {:induction false} OldestIsFirst(list: seq<Sequence>)
    requires list != []
    ensures list[0].state.Decoding? ==>
              0 < |DecodeCandidates(list)| <= |list| && DecodeCandidates(list)[0] == (list[0].id, list[0].TotalLen())
    ensures !list[0].state.Decoding? ==> |DecodeCandidates(list)| <= |list| - 1
    ensures list[0].state.Prefilling? && !list[0].PrefillComplete() ==>
              PartialCandidates(list) != [] && PartialCandidates(list)[0].id == list[0].id
  {
    var front := list[..|list| - 1];
    if front == [] {
      assert DecodeCandidates(front) == [] && PartialCandidates(front) == [];
    } else {
      OldestIsFirst(front);
    }
  }

  predicate Live(q: Sequence) {
    q.state.Prefilling? || q.state.Decoding?
  }

  lemma LivePreempts(q: Sequence)
    requires Live(q)
    ensures Queued(q.Preempt()) && q.Preempt().prompt == q.prompt
  {
  }

  /** The oldest runs and has been scheduled, or it is back at the head of an empty scheduler with budget left. */
  ghost predicate Leads(id: SequenceId, p: Pass, budget: nat) {
    && Owned(p.s) && p.s.cache.pool.blockSize > 0 && AllFit(p.s)
    && if p.s.running != [] then
         && p.s.running[0].id == id && Live(p.s.running[0])
         && exists k :: 0 <= k < |p.scheduled| && p.scheduled[k].id == id
       else
         && p.s.waiting != [] && p.s.waiting[0].id == id && Queued(p.s.waiting[0])
         && p.used < budget && p.s.config.maxNumSeqs > 0
  }

  lemma LeadsEvicted(id: SequenceId, p: Pass, budget: nat)
    requires Leads(id, p, budget) && p.s.running != [] && p.used < budget && p.s.config.maxNumSeqs > 0
    ensures PreemptOne(p).Some? && Leads(id, PreemptOne(p).value, budget)
  {
    hide Owned, Order, AllFit, Queued;
    OwnedPreempt(p);
    var q := PreemptOne(p).value;
    AllFitKept(p.s, q.s);
    if |p.s.running| == 1 {
      LivePreempts(p.s.running[0]);
    }
  }

  lemma OwnedHeadIsNew(s: State)
    requires Owned(s) && s.waiting != []
    ensures s.waiting[0].id !in s.cache.tables
  {
    hide Consistent, Order;
    IdsAreDistinct(s);
    NotInIdSet(s.running, s.waiting[0].id);
  }

  lemma OwnedJoins(p: Pass, cache: Manager, chunk: nat)
    requires Owned(p.s) && p.s.waiting != [] && Consistent(cache)
    requires cache.tables.Keys <= p.s.cache.tables.Keys + {p.s.waiting[0].id}
    ensures Owned(AdmitHead(p, cache, chunk).s)
  {
    hide Consistent, Order, NoDuplicates, IdSet, AdmittedSequence;
    AdmitHeadKeepsOrder(p, cache, chunk);
    IdSetPush(p.s.running, AdmittedSequence(p.s.waiting[0], chunk));
  }

  /** What an admitted head makes of a pass: the rest of the running set stays below it. */
  lemma LeadsAdmitted(id: SequenceId, p: Pass, cache: Manager, chunk: nat, budget: nat)
    requires Leads(id, p, budget) && p.s.waiting != [] && Consistent(cache)
    requires cache.tables.Keys <= p.s.cache.tables.Keys + {p.s.waiting[0].id}
    requires cache.pool.blockSize == p.s.cache.pool.blockSize && |cache.pool.blocks| == |p.s.cache.pool.blocks|
    requires p.s.running == [] ==> 0 < chunk <= |p.s.waiting[0].prompt|
    ensures Leads(id, AdmitHead(p, cache, chunk), budget)
  {
    hide Consistent, Order, NoDuplicates, IdSet, AdmittedSequence, AllFit, Owned, Resident, Queued;
    var head, q := p.s.waiting[0], AdmitHead(p, cache, chunk);
    OwnedJoins(p, cache, chunk);
    AdmitHeadKeepsOrder(p, cache, chunk);
    AllFitKept(p.s, q.s);
    if p.s.running == [] {
      AdmittedIsResident(head, chunk);
      assert q.scheduled[|p.scheduled|].id == id;
    } else {
      var k :| 0 <= k < |p.scheduled| && p.scheduled[k].id == id;
      assert q.scheduled[k].id == id;
    }
  }

  /** In an empty scheduler every block is free, so the head is admitted. */
  lemma EmptyHasRoom(s: State)
    requires Owned(s) && s.running == [] && s.cache.pool.blockSize > 0 && AllFit(s) && s.waiting != []
    ensures |s.waiting[0].prompt| > 0 && CanAllocate(s.cache, |s.waiting[0].prompt|)
  {
    hide Consistent, Order, CeilDiv;
    NotInAny(s.running);
    assert s.cache.tables == map[];
    NoTablesAllFree(s.cache);
    HeadFits(s);
    HeadHasTokens(s.cache, s.waiting[0]);
  }

  lemma LeadsRound(id: SequenceId, p: Pass, budget: nat)
    requires Leads(id, p, budget) && p.s.config.chunkedPrefill && p.s.config.maxNumSeqs > 0 && p.s.cache.WellFormed()
    ensures AdmitRound(p, budget).Again? ==> Leads(id, AdmitRound(p, budget).p, budget)
    ensures AdmitRound(p, budget).Done? ==> p.s.running != []
  {
    hide Owned, Order, AllFit, Resident, Allocated, CeilDiv, AdmitHead, PreemptOne, CanAllocate, Consistent;
    if CanRun(p, budget) {
      var head := p.s.waiting[0];
      OwnedHeadIsNew(p.s);
      OwnedParts(p.s);
      AllocationIsExact(p.s.cache, head.id, head.prompt);
      if p.s.running == [] {
        EmptyHasRoom(p.s);
        QueuedParts(head);
      } else {
        LeadsEvicted(id, p, budget);
      }
      var chunk := Min(head.RemainingPrefill(), budget - p.used);
      if head.computed != 0 {
        LeadsAdmitted(id, p, p.s.cache, chunk, budget);
      } else if CanAllocate(p.s.cache, |head.prompt|) {
        CanAllocateIsFit(p.s.cache, |head.prompt|);
        AllocationKeys(p.s.cache, head.id, head.prompt);
        LeadsAdmitted(id, p, Allocated(p.s.cache, head.id, head.prompt).0, chunk, budget);
      }
    }
  }

  lemma OwnedParts(s: State)
    requires Owned(s)
    ensures Consistent(s.cache)
  {
  }

  lemma {:induction false} LeadsToTheEnd(id: SequenceId, p: Pass, budget: nat)
    requires Leads(id, p, budget) && p.s.config.chunkedPrefill && p.s.config.maxNumSeqs > 0 && p.s.cache.WellFormed()
    ensures SchedulesResident(Admit(p, budget))
    decreases SaturatingSub(budget, p.used), |p.s.running|
  {
    hide AdmitRound, Owned, AllFit, Resident;
    AdmitRoundProgress(p, budget);
    LeadsRound(id, p, budget);
    match AdmitRound(p, budget)
    case Done(q) =>
      var k :| 0 <= k < |p.scheduled| && p.scheduled[k].id == id;
      assert q.scheduled[k].id == q.s.running[0].id;
    case Again(q) => LeadsToTheEnd(id, q, budget);
  }

  /** The oldest sequence is unfinished, and is in its prefill or can grow by a token. */
  ghost predicate OldestCanRun(s: State)
    requires s.cache.pool.blockSize > 0
  {
    && s.running != [] && Resident(s.running[0]) && !s.running[0].state.Finished?
    && (s.running[0].state.Decoding? ==> CanAppend(s.cache, s.running[0].id))
  }

  /** Resumed prefills add to the batch, and leave the live sequences live and in place. */
  lemma {:induction false} PartialsExtend(p: Pass, candidates: seq<PartialPrefill>, budget: nat)
    requires p.s.running != [] && Live(p.s.running[0])
    ensures var r := Partials(p, candidates, budget);
            && p.scheduled <= r.scheduled && r.s.config == p.s.config && r.s.cache == p.s.cache
            && |r.s.running| == |p.s.running| && Live(r.s.running[0]) && Ids(r.s.running) == Ids(p.s.running)
    decreases |candidates|
  {
    hide Chunk;
    if candidates != [] && p.used < budget {
      var q := PartialOne(p, candidates[0], budget);
      assert Ids(q.s.running) == Ids(p.s.running);
      PartialsExtend(q, candidates[1..], budget);
    }
  }

  lemma OldestResumes(p: Pass, budget: nat)
    requires p.s.running != [] && p.s.running[0].state.Prefilling? && !p.s.running[0].PrefillComplete()
    requires p.used < budget && p.s.config.chunkedPrefill
    ensures var r := Partials(p, PartialCandidates(p.s.running), budget);
            exists k :: 0 <= k < |r.scheduled| && r.scheduled[k].id == p.s.running[0].id
  {
    hide Prefilled;
    OldestIsFirst(p.s.running);
    var candidates := PartialCandidates(p.s.running);
    var c := candidates[0];
    FirstCandidateIsExact(p.s.running);
    var q := PartialOne(p, c, budget);
    assert q.scheduled[|p.scheduled|].id == p.s.running[0].id;
    PrefilledIsLive(p.s.running[0], q.scheduled[|p.scheduled|].numTokens);
    PartialsExtend(q, candidates[1..], budget);
    assert Partials(p, candidates, budget) == Partials(q, candidates[1..], budget);
    assert Partials(p, candidates, budget).scheduled[|p.scheduled|].id == p.s.running[0].id;
  }

  lemma PrefilledIsLive(q: Sequence, chunk: nat)
    requires Live(q)
    ensures Live(Prefilled(q, chunk))
  {
  }

  lemma {:induction false} FirstCandidateIsExact(list: seq<Sequence>)
    requires list != [] && list[0].state.Prefilling? && !list[0].PrefillComplete()
    ensures PartialCandidates(list) != []
    ensures PartialCandidates(list)[0] == PartialPrefill(list[0].id, list[0].computed, list[0].RemainingPrefill())
  {
    var front := list[..|list| - 1];
    if front == [] {
      assert PartialCandidates(front) == [];
    } else {
      FirstCandidateIsExact(front);
    }
  }

  /** The decode pass leaves the oldest in place, and schedules it if it decodes. */
  lemma OldestSurvivesDecodes(s: State)
    requires Owned(s) && s.cache.WellFormed() && RunsWell(s.config) && |s.running| <= s.config.maxNumSeqs && OldestCanRun(s)
    ensures var p := DecodePass(StartPass(s), s.config.maxBatchedTokens);
            && Shortened(StartPass(s), p, |s.running|) && p.s.running != [] && p.s.running[0] == s.running[0]
            && p.s.config == s.config
            && (s.running[0].state.Prefilling? ==> p.used < s.config.maxBatchedTokens)
            && (s.running[0].state.Decoding? ==> p.scheduled != [] && p.scheduled[0].id == s.running[0].id)
  {
    hide Owned, Order, Resident, Appended;
    OldestIsFirst(s.running);
    var candidates, start, budget := DecodeCandidates(s.running), StartPass(s), s.config.maxBatchedTokens;
    DecodesShorten(start, candidates, budget);
    if s.running[0].state.Decoding? {
      OwnedParts(s);
      var (id, len) := candidates[0];
      AppendingIsExact(s.cache, id);
      DecodeOneWellFormed(start, id, len);
      DecodeOneShortens(start, id, len);
      var q := TryAppend(start, id, len).0;
      assert DecodeOne(start, id, len) == (q, true);
      DecodesShorten(q, candidates[1..], budget);
    }
  }

  /**
   * However many finished sequences run beside it, and whichever of them an eviction puts at
   * the head of the queue: if the oldest sequence is unfinished, and is in its prefill or can
   * grow, the pass schedules a sequence that stays resident.
   */
  lemma OldestKeepsThePassGoing(s: State)
    requires Owned(s) && RunsWell(s.config) && |s.running| <= s.config.maxNumSeqs
    requires s.cache.pool.blockSize > 0 && AllFit(s) && OldestCanRun(s)
    ensures s.cache.WellFormed() && SchedulesResident(Schedule(s))
  {
    hide Owned, Order, AllFit, DecodePass, Partials, PartialCandidates, SchedulesResident, Consistent;
    OwnedParts(s);
    ConsistentIsWellFormed(s.cache);
    var budget, id := s.config.maxBatchedTokens, s.running[0].id;
    var p := DecodePass(StartPass(s), budget);
    OldestSurvivesDecodes(s);
    var r := Partials(p, PartialCandidates(p.s.running), budget);
    PartialsExtend(p, PartialCandidates(p.s.running), budget);
    PartialsKeepOrder(p, PartialCandidates(p.s.running), budget);
    assert Ids(r.s.running)[0] == Ids(p.s.running)[0];
    if s.running[0].state.Prefilling? {
      OldestResumes(p, budget);
    } else {
      assert r.scheduled[0].id == id;
    }
    AllFitKept(s, p.s);
    AllFitKept(p.s, r.s);
    OwnedPartials(p.s, r.s);
    LeadsToTheEnd(id, r, budget);
  }

  lemma OwnedPartials(s: State, after: State)
    requires Owned(s) && after.cache == s.cache && Order(after) == Order(s) && Ids(after.running) == Ids(s.running)
    ensures Owned(after)
  {
    hide Consistent, Order, NoDuplicates, IdSet;
    assert |Ids(after.running)| == |Ids(s.running)|;
    forall i | 0 <= i < |s.running| ensures after.running[i].id == s.running[i].id {
      assert Ids(after.running)[i] == Ids(s.running)[i];
    }
    IdSetPointwise(s.running, after.running);
  }
}
