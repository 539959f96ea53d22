// Passes that start while finished sequences still run, as after a timeout.
module FinishedRunning {
  import opened Prelude
  import opened Arithmetic
  import opened PoolInvariant
  import opened KvCache
  import opened KvConservation
  import opened Sequences
  import opened Scheduling
  import opened SchedulerOrder
  import opened SchedulerInvariant
  import opened EngineSteps
  import opened NoStall
  import opened BatchBuilding
  import opened SmallPasses
  import opened BatchAcceptance

  /** The batch can be built and serves a sequence that is resident. */
  ghost predicate Progresses(p: Pass) {
    BuildBatch(p.s, p.scheduled).Some? && SchedulesResident(p)
  }

  // ----- Admission above a base that stays -----

  ghost function FreeBelow(tables: map<SequenceId, BlockTable>, above: set<SequenceId>, total: nat): int {
    total - |Held(AllRefs(tables - above))|
  }

  /** The blocks free without the sequences from place i on suffice for the prompt at place i. */
  ghost predicate FitsAt(s: State, i: nat)
    requires i < |s.running| && s.cache.pool.blockSize > 0
  {
    CeilDiv(|s.running[i].prompt|, s.cache.pool.blockSize) <= FreeBelow(s.cache.tables, IdSet(s.running[i..]), |s.cache.pool.blocks|)
  }

  /** Scheduled in this pass, resident with a table, and unfinished. */
  ghost predicate ServedAt(p: Pass, i: nat)
    requires i < |p.s.running|
  {
    && Resident(p.s.running[i]) && !p.s.running[i].state.Finished?
    && exists k :: 0 <= k < |p.scheduled| && p.scheduled[k].id == p.s.running[i].id
  }

  /**
   * The running set is `base` with newly admitted sequences on top, each of which would fit
   * again after its eviction; with none on top, the head of the queue fits. `owners` are the
   * sequences of the base that hold a table.
   */
  ghost predicate Stacked(base: seq<Sequence>, owners: set<SequenceId>, p: Pass, budget: nat) {
    var n := |base|;
    && Consistent(p.s.cache) && p.s.cache.pool.blockSize > 0 && AllFit(p.s) && NoDuplicates(Ids(Order(p.s)))
    && n <= |p.s.running| && p.s.running[..n] == base
    && owners <= IdSet(base) && p.s.cache.tables.Keys == owners + IdSet(p.s.running[n..])
    && (forall i :: n <= i < |p.s.running| ==> ServedAt(p, i) && FitsAt(p.s, i))
    && (forall i :: 0 <= i < |p.s.waiting| ==> Queued(p.s.waiting[i]))
    && (|p.s.running| == n ==>
          && n < p.s.config.maxNumSeqs && p.used < budget
          && p.s.waiting != [] && CanAllocate(p.s.cache, |p.s.waiting[0].prompt|))
  }

  lemma StackedParts(base: seq<Sequence>, owners: set<SequenceId>, p: Pass, budget: nat)
    requires Stacked(base, owners, p, budget)
    ensures p.s.cache.WellFormed() && Consistent(p.s.cache)
    ensures DistinctIds(p.s.running) && DistinctIds(p.s.waiting)
    ensures forall i, j :: 0 <= i < |p.s.running| && 0 <= j < |p.s.waiting| ==> p.s.running[i].id != p.s.waiting[j].id
    ensures p.s.waiting != [] ==> Queued(p.s.waiting[0]) && p.s.waiting[0].id !in p.s.cache.tables
  {
    hide Consistent, ServedAt, FitsAt, AllFit, Order;
    IdsAreDistinct(p.s);
    ConsistentIsWellFormed(p.s.cache);
    if p.s.waiting != [] {
      NotInIdSet(p.s.running[|base|..], p.s.waiting[0].id);
      NotInIdSet(base, p.s.waiting[0].id);
    }
  }

  lemma FreeIsBelow(m: Manager)
    requires Consistent(m)
    ensures |m.pool.freeList| == FreeBelow(m.tables, {}, |m.pool.blocks|)
  {
    FreeBlocksExact(m);
    assert m.tables - {} == m.tables;
  }

  lemma IdSetOne(q: Sequence)
    ensures IdSet([q]) == {q.id}
  {
    assert [q][0] == q;
  }

  /** A new table on top leaves what is free below as it was. */
  lemma FitsUnderNewTop(s: State, after: State, i: nat, id: SequenceId)
    requires i < |s.running| < |after.running| && s.cache.pool.blockSize > 0 && FitsAt(s, i)
    requires after.running[i] == s.running[i] && IdSet(after.running[i..]) == IdSet(s.running[i..]) + {id}
    requires after.cache.pool.blockSize == s.cache.pool.blockSize && |after.cache.pool.blocks| == |s.cache.pool.blocks|
    requires after.cache.tables.Keys == s.cache.tables.Keys + {id} && id !in s.cache.tables
    requires forall x :: x in s.cache.tables ==> after.cache.tables[x] == s.cache.tables[x]
    ensures FitsAt(after, i)
  {
    hide AllRefs, IdSet;
    assert after.cache.tables - IdSet(after.running[i..]) == s.cache.tables - IdSet(s.running[i..]);
  }

  lemma FitsWithoutTop(s: State, after: State, i: nat, id: SequenceId)
    requires i < |after.running| < |s.running| && s.cache.pool.blockSize > 0 && FitsAt(s, i)
    requires after.running[i] == s.running[i] && IdSet(s.running[i..]) == IdSet(after.running[i..]) + {id}
    requires after.cache.pool.blockSize == s.cache.pool.blockSize && |after.cache.pool.blocks| == |s.cache.pool.blocks|
    requires after.cache.tables == s.cache.tables - {id}
    ensures FitsAt(after, i)
  {
    hide AllRefs, IdSet;
    assert after.cache.tables - IdSet(after.running[i..]) == s.cache.tables - IdSet(s.running[i..]);
  }

  /** The sequence just admitted fits again if it is evicted next. */
  lemma TopFits(s: State, after: State, id: SequenceId)
    requires Consistent(s.cache) && s.waiting != [] && CanAllocate(s.cache, |s.waiting[0].prompt|)
    requires |after.running| == |s.running| + 1
    requires after.running[|s.running|].prompt == s.waiting[0].prompt && after.running[|s.running|].id == id
    requires after.cache.pool.blockSize == s.cache.pool.blockSize > 0 && |after.cache.pool.blocks| == |s.cache.pool.blocks|
    requires after.cache.tables.Keys == s.cache.tables.Keys + {id} && id !in s.cache.tables
    requires forall x :: x in s.cache.tables ==> after.cache.tables[x] == s.cache.tables[x]
    ensures FitsAt(after, |s.running|)
  {
    hide AllRefs, IdSet, Consistent, CeilDiv;
    var n := |s.running|;
    FreeIsBelow(s.cache);
    assert after.running[n..] == [after.running[n]];
    IdSetOne(after.running[n]);
    assert after.cache.tables - {id} == s.cache.tables - {};
  }

  /** `after` is `p` with the head of the queue admitted, scheduled and backed by its own table. */
  ghost predicate HeadJoined(p: Pass, after: Pass)
    requires p.s.waiting != []
  {
    var head := p.s.waiting[0];
    && |after.s.running| == |p.s.running| + 1 && after.s.running[..|p.s.running|] == p.s.running
    && after.s.waiting == p.s.waiting[1..] && after.s.config == p.s.config
    && Order(after.s) == Order(p.s) && SamePool(p.s, after.s) && Consistent(after.s.cache)
    && var top := after.s.running[|p.s.running|];
       && top.id == head.id && top.prompt == head.prompt && Resident(top) && !top.state.Finished?
       && |after.scheduled| == |p.scheduled| + 1 && p.scheduled <= after.scheduled
       && after.scheduled[|p.scheduled|].id == head.id
       && after.s.cache.tables.Keys == p.s.cache.tables.Keys + {head.id} && head.id !in p.s.cache.tables
       && forall x :: x in p.s.cache.tables ==> after.s.cache.tables[x] == p.s.cache.tables[x]
  }

  lemma HeadJoins(p: Pass, budget: nat)
    requires Consistent(p.s.cache) && p.s.cache.WellFormed() && AllFit(p.s) && p.s.config.chunkedPrefill && CanRun(p, budget)
    requires Queued(p.s.waiting[0]) && p.s.waiting[0].id !in p.s.cache.tables
    requires CanAllocate(p.s.cache, |p.s.waiting[0].prompt|)
    ensures AdmitRound(p, budget).Again? && HeadJoined(p, AdmitRound(p, budget).p)
  {
    hide Consistent, Allocated, Order, CeilDiv, AdmitHead, AllFit, Fits, Queued, HeadJoined;
    var head := p.s.waiting[0];
    HeadFits(p.s);
    HeadHasTokens(p.s.cache, head);
    QueuedParts(head);
    CanAllocateIsFit(p.s.cache, |head.prompt|);
    AllocationIsExact(p.s.cache, head.id, head.prompt);
    var cache := Allocated(p.s.cache, head.id, head.prompt).0;
    var chunk := Min(|head.prompt|, budget - p.used);
    assert AdmitRound(p, budget) == Again(AdmitHead(p, cache, chunk));
    AllocatedHeadJoins(p, chunk);
  }

  lemma CanAllocateIsFit(m: Manager, n: nat)
    requires m.pool.blockSize > 0 && CanAllocate(m, n)
    ensures CeilDiv(n, m.pool.blockSize) <= |m.pool.freeList|
  {
  }

  lemma AllocatedHeadJoins(p: Pass, chunk: nat)
    requires Consistent(p.s.cache) && p.s.cache.WellFormed() && p.s.waiting != []
    requires Queued(p.s.waiting[0]) && p.s.waiting[0].id !in p.s.cache.tables && 0 < chunk <= |p.s.waiting[0].prompt|
    requires Allocated(p.s.cache, p.s.waiting[0].id, p.s.waiting[0].prompt).1.Ok?
    ensures HeadJoined(p, AdmitHead(p, Allocated(p.s.cache, p.s.waiting[0].id, p.s.waiting[0].prompt).0, chunk))
  {
    hide Consistent, Allocated, Order, AdmittedSequence, Resident, Queued;
    var head := p.s.waiting[0];
    AllocationKeys(p.s.cache, head.id, head.prompt);
    AllocationKeepsTables(p.s.cache, head.id, head.prompt);
    AdmittedIsResident(head, chunk);
    AdmitHeadKeepsOrder(p, Allocated(p.s.cache, head.id, head.prompt).0, chunk);
    AdmittedKeepsPrompt(head, chunk);
  }

  lemma StackedAdmits(base: seq<Sequence>, owners: set<SequenceId>, p: Pass, budget: nat)
    requires Stacked(base, owners, p, budget) && p.s.config.chunkedPrefill && p.s.cache.WellFormed()
    requires CanRun(p, budget) && CanAllocate(p.s.cache, |p.s.waiting[0].prompt|)
    ensures AdmitRound(p, budget).Again? && Stacked(base, owners, AdmitRound(p, budget).p, budget)
  {
    hide Consistent, Order, IdSet, FitsAt, AllFit, NoDuplicates, Resident, Queued, AdmitRound, CanAllocate;
    StackedParts(base, owners, p, budget);
    HeadJoins(p, budget);
    var head, n, q := p.s.waiting[0], |p.s.running|, AdmitRound(p, budget).p;
    AllFitKept(p.s, q.s);
    var top := q.s.running[n];
    assert q.s.running == p.s.running + [top];
    assert q.s.running[|base|..] == p.s.running[|base|..] + [top];
    IdSetPush(p.s.running[|base|..], top);
    assert q.s.running[..|base|] == base;
    forall i | |base| <= i < |q.s.running| ensures ServedAt(q, i) && FitsAt(q.s, i) {
      if i < n {
        assert ServedAt(p, i);
        ServedMore(p, q, i);
        assert q.s.running[i..] == p.s.running[i..] + [top];
        IdSetPush(p.s.running[i..], top);
        FitsUnderNewTop(p.s, q.s, i, head.id);
      } else {
        assert q.scheduled[|p.scheduled|].id == top.id;
        TopFits(p.s, q.s, head.id);
      }
    }
  }

  lemma QueuedParts(q: Sequence)
    requires Queued(q)
    ensures q.state.Waiting? && q.computed == 0
  {
  }

  lemma AdmittedKeepsPrompt(q: Sequence, chunk: nat)
    ensures AdmittedSequence(q, chunk).id == q.id && AdmittedSequence(q, chunk).prompt == q.prompt
  {
  }

  lemma AllocationKeepsTables(m: Manager, s: SequenceId, prompt: seq<TokenId>)
    requires Consistent(m) && Allocated(m, s, prompt).1.Ok?
    ensures m.WellFormed()
    ensures forall x :: x in m.tables ==> x in Allocated(m, s, prompt).0.tables && Allocated(m, s, prompt).0.tables[x] == m.tables[x]
  {
    hide Allocated, Consistent, LeadingRun, FreshTail;
    ConsistentIsWellFormed(m);
    AllocationIsExact(m, s, prompt);
  }

  lemma ServedMore(p: Pass, q: Pass, i: nat)
    requires i < |p.s.running| && i < |q.s.running| && q.s.running[i] == p.s.running[i] && ServedAt(p, i)
    requires p.scheduled <= q.scheduled
    ensures ServedAt(q, i)
  {
    var k :| 0 <= k < |p.scheduled| && p.scheduled[k].id == p.s.running[i].id;
    assert q.scheduled[k].id == q.s.running[i].id;
  }

  /** `after` is `p` with the newest sequence at the front of the queue and its table gone. */
  ghost predicate NewestLeft(p: Pass, after: Pass)
    requires p.s.running != []
  {
    var n := |p.s.running| - 1;
    && after.s.running == p.s.running[..n] && after.s.waiting == [p.s.running[n].Preempt()] + p.s.waiting
    && after.s.config == p.s.config && after.scheduled == p.scheduled && after.used == p.used
    && Order(after.s) == Order(p.s) && SamePool(p.s, after.s) && Consistent(after.s.cache)
    && after.s.cache.tables == p.s.cache.tables - {p.s.running[n].id}
  }

  lemma NewestLeaves(p: Pass)
    requires Consistent(p.s.cache) && p.s.running != []
    ensures PreemptOne(p).Some? && NewestLeft(p, PreemptOne(p).value)
  {
    hide Consistent, Freed, Order;
    PreemptKeepsPool(p);
    PreemptKeepsOrder(p);
    FreeingConserves(p.s.cache, p.s.running[|p.s.running| - 1].id);
  }

  /** A queued head that does not fit has the newest evicted. */
  lemma NoRoomEvicts(p: Pass, budget: nat)
    requires Consistent(p.s.cache) && p.s.cache.WellFormed() && p.s.running != [] && p.s.cache.pool.blockSize > 0 && AllFit(p.s)
    requires p.s.config.chunkedPrefill && CanRun(p, budget)
    requires Queued(p.s.waiting[0]) && !CanAllocate(p.s.cache, |p.s.waiting[0].prompt|)
    ensures AdmitRound(p, budget).Again? && NewestLeft(p, AdmitRound(p, budget).p)
  {
    hide Consistent, Freed, CeilDiv, AllFit, Fits, Queued, NewestLeft;
    NewestLeaves(p);
    HeadFits(p.s);
    HeadHasTokens(p.s.cache, p.s.waiting[0]);
    QueuedParts(p.s.waiting[0]);
  }

  lemma StackedEvicts(base: seq<Sequence>, owners: set<SequenceId>, p: Pass, budget: nat)
    requires Stacked(base, owners, p, budget) && p.s.config.chunkedPrefill && p.s.cache.WellFormed()
    requires CanRun(p, budget) && !CanAllocate(p.s.cache, |p.s.waiting[0].prompt|)
    ensures AdmitRound(p, budget).Again? && Stacked(base, owners, AdmitRound(p, budget).p, budget)
  {
    hide Consistent, Order, IdSet, FitsAt, AllFit, NoDuplicates, Resident, Queued, AdmitRound, CanAllocate;
    StackedParts(base, owners, p, budget);
    var n := |p.s.running| - 1;
    NoRoomEvicts(p, budget);
    var top, q := p.s.running[n], AdmitRound(p, budget).p;
    AllFitKept(p.s, q.s);
    assert ServedAt(p, n);
    PreemptedIsQueued(top);
    TopFitsAgain(p.s, q.s, top);
    var above := p.s.running[|base|..n];
    assert p.s.running[|base|..] == above + [top];
    IdSetPush(above, top);
    assert q.s.running[|base|..] == above && q.s.running[..|base|] == base;
    NotInIdSet(above, top.id);
    NotInIdSet(base, top.id);
    forall i | |base| <= i < n ensures ServedAt(q, i) && FitsAt(q.s, i) {
      assert ServedAt(p, i);
      ServedMore(p, q, i);
      assert p.s.running[i..] == q.s.running[i..] + [top];
      IdSetPush(q.s.running[i..], top);
      FitsWithoutTop(p.s, q.s, i, top.id);
    }
    forall i | 0 <= i < |q.s.waiting| ensures Queued(q.s.waiting[i]) {
      if i > 0 {
        assert q.s.waiting[i] == p.s.waiting[i - 1];
      }
    }
  }

  lemma PreemptedIsQueued(q: Sequence)
    requires Resident(q) && !q.state.Finished?
    ensures Queued(q.Preempt()) && q.Preempt().prompt == q.prompt
  {
  }

  lemma TopFitsAgain(s: State, after: State, top: Sequence)
    requires s.running != [] && top == s.running[|s.running| - 1] && s.cache.pool.blockSize > 0 && FitsAt(s, |s.running| - 1)
    requires Consistent(after.cache) && after.cache.tables == s.cache.tables - {top.id}
    requires after.cache.pool.blockSize == s.cache.pool.blockSize && |after.cache.pool.blocks| == |s.cache.pool.blocks|
    ensures CanAllocate(after.cache, |top.prompt|)
  {
    hide AllRefs, IdSet, Consistent, CeilDiv;
    var n := |s.running| - 1;
    FreeIsBelow(after.cache);
    assert s.running[n..] == [top];
    IdSetOne(top);
    assert after.cache.tables - {} == s.cache.tables - {top.id};
  }

  /** The loop ends with the base in place and a served sequence on top of it. */
  lemma {:induction false} StackedServes(base: seq<Sequence>, owners: set<SequenceId>, p: Pass, budget: nat)
    requires Stacked(base, owners, p, budget) && p.s.config.chunkedPrefill && p.s.cache.WellFormed()
    ensures Stacked(base, owners, Admit(p, budget), budget) && |Admit(p, budget).s.running| > |base|
    decreases SaturatingSub(budget, p.used), |p.s.running|
  {
    hide AdmitRound, CanAllocate, Consistent, Order, IdSet, FitsAt, AllFit, NoDuplicates, ServedAt;
    AdmitRoundProgress(p, budget);
    if CanRun(p, budget) {
      if CanAllocate(p.s.cache, |p.s.waiting[0].prompt|) {
        StackedAdmits(base, owners, p, budget);
      } else {
        StackedEvicts(base, owners, p, budget);
      }
      StackedServes(base, owners, AdmitRound(p, budget).p, budget);
    } else {
      AdmitRoundStops(p, budget);
    }
  }

  // ----- When only finished sequences run -----

  ghost predicate AllFinished(s: State) {
    forall i :: 0 <= i < |s.running| ==> s.running[i].state.Finished?
  }

  /** Requests wait while everything that runs has finished. */
  ghost predicate Outstanding(s: State) {
    && Healthy(s) && RunsWell(s.config) && s.cache.pool.blockSize > 0 && AllFit(s)
    && AllFinished(s) && s.waiting != []
  }

  lemma StartStacked(s: State)
    requires Outstanding(s) && |s.running| < s.config.maxNumSeqs && CanAllocate(s.cache, |s.waiting[0].prompt|)
    ensures Stacked(s.running, IdSet(s.running), StartPass(s), s.config.maxBatchedTokens)
  {
    hide Consistent, AllFit, NoDuplicates, Resident, Queued, IdSet;
    NotInAny(s.running[|s.running|..]);
    assert s.running[..|s.running|] == s.running;
  }

  lemma TablesBuild(s: State, r: Pass)
    requires s.cache.WellFormed() && NoDuplicates(Ids(Order(s))) && r == Schedule(s)
    requires IdSet(r.s.running) <= r.s.cache.tables.Keys
    ensures BuildBatch(r.s, r.scheduled).Some?
  {
    hide EntriesFit, Order, EntryBuilds, Schedule, BuildBatch;
    ScheduleFits(s);
    ScheduleKeepsOrder(s);
    BatchBuildsExactly(r.s, r.scheduled);
    forall k | 0 <= k < |r.scheduled| ensures EntryBuilds(r.s, r.scheduled[k]) {
      FitBuilds(r.s, r.scheduled, k);
    }
  }

  lemma FittingHeadIsServed(s: State)
    requires Outstanding(s) && |s.running| < s.config.maxNumSeqs && CanAllocate(s.cache, |s.waiting[0].prompt|)
    ensures s.cache.WellFormed() && Progresses(Schedule(s))
  {
    hide Consistent, AllFit, NoDuplicates, Resident, Queued, IdSet, Order, BuildBatch, Schedule, FitsAt, CanAllocate;
    HealthyIsWellFormed(s);
    OnlyAdmission(s);
    StartStacked(s);
    var budget, n := s.config.maxBatchedTokens, |s.running|;
    StackedServes(s.running, IdSet(s.running), StartPass(s), budget);
    var r := Schedule(s);
    assert r.s.running == s.running + r.s.running[n..];
    IdSetConcat(s.running, r.s.running[n..]);
    TablesBuild(s, r);
    assert ServedAt(r, n);
  }

  // ----- A finished sequence that was evicted -----

  ghost predicate OnlyFor(batch: seq<Scheduled>, id: SequenceId) {
    forall k :: 0 <= k < |batch| ==> batch[k].id == id
  }

  /** What the two states of an evicted finished sequence share: `front` runs, and only it holds tables. */
  ghost predicate Behind(front: seq<Sequence>, b: Sequence, p: Pass) {
    && Consistent(p.s.cache) && p.s.cache.pool.blockSize > 0 && AllFit(p.s) && NoDuplicates(Ids(Order(p.s)))
    && p.s.cache.tables.Keys == IdSet(front)
    && b.state.Finished? && b.computed > 0 && OnlyFor(p.scheduled, b.id)
  }

  /** `b` is at the head of the queue, still finished. */
  ghost predicate Ousted(front: seq<Sequence>, b: Sequence, p: Pass) {
    && Behind(front, b, p)
    && p.s.running == front && p.s.waiting != [] && p.s.waiting[0] == b
    && forall i :: 0 < i < |p.s.waiting| ==> Queued(p.s.waiting[i])
  }

  /** `b` has joined the running set again, scheduled but without a table. */
  ghost predicate Rejoined(front: seq<Sequence>, b: Sequence, p: Pass) {
    && Behind(front, b, p)
    && p.s.running == front + [b] && p.scheduled != [] && |p.s.running| <= p.s.config.maxNumSeqs
    && forall i :: 0 <= i < |p.s.waiting| ==> Queued(p.s.waiting[i])
  }

  lemma {:induction false} AdmitExtendsBatch(p: Pass, budget: nat)
    requires p.s.cache.WellFormed()
    ensures p.scheduled <= Admit(p, budget).scheduled
    decreases SaturatingSub(budget, p.used), |p.s.running|
  {
    hide AdmitRound;
    AdmitRoundProgress(p, budget);
    AdmitRoundExtendsBatch(p, budget);
    match AdmitRound(p, budget)
    case Done(q) =>
    case Again(q) => AdmitExtendsBatch(q, budget);
  }

  lemma AdmitRoundExtendsBatch(p: Pass, budget: nat)
    requires p.s.cache.WellFormed()
    ensures p.scheduled <= AdmitRound(p, budget).p.scheduled
  {
    hide Allocated, Freed, CeilDiv, AdmittedSequence;
    PreemptOneWellFormed(p);
  }

  /** A pass that schedules a resident without a table does not get its batch built. */
  lemma TablelessFails(p: Pass, k: nat, i: nat)
    requires k < |p.scheduled| && i < |p.s.running| && p.scheduled[k].id == p.s.running[i].id
    requires p.s.running[i].id !in p.s.cache.tables
    ensures BuildBatch(p.s, p.scheduled).None?
  {
    hide BuildBatch;
    BatchBuildsExactly(p.s, p.scheduled);
    assert Position(p.s.running, p.scheduled[k].id) < |p.s.running| by {
      SomewhereRunning(p.s.running, i);
    }
    assert !EntryBuilds(p.s, p.scheduled[k]);
  }

  lemma {:induction false} SomewhereRunning(list: seq<Sequence>, i: nat)
    requires i < |list|
    ensures Position(list, list[i].id) <= i
  {
    if list[0].id != list[i].id {
      SomewhereRunning(list[1..], i - 1);
    }
  }

  lemma DistinctFront(front: seq<Sequence>, b: Sequence, p: Pass)
    requires Behind(front, b, p) && front + [b] == p.s.running
    ensures b.id !in IdSet(front) && b.id !in p.s.cache.tables
  {
    hide Consistent, AllFit, Order;
    IdsAreDistinct(p.s);
    forall i | 0 <= i < |front| ensures front[i].id != b.id {
      assert p.s.running[i] == front[i] && p.s.running[|front|] == b;
    }
    NotInIdSet(front, b.id);
  }

  /** Back at the head: it blocks the queue if its prompt is through, and else it joins again. */
  lemma OustedRound(front: seq<Sequence>, b: Sequence, p: Pass, budget: nat) returns (now: Sequence)
    requires Ousted(front, b, p) && p.s.config.chunkedPrefill && p.s.cache.WellFormed()
    ensures AdmitRound(p, budget).Done? ==> AdmitRound(p, budget).p == p
    ensures AdmitRound(p, budget).Again? ==> now.id == b.id && Rejoined(front, now, AdmitRound(p, budget).p)
    ensures CanRun(p, budget) && !b.PrefillComplete() ==> AdmitRound(p, budget).Again?
  {
    hide Consistent, Allocated, CeilDiv, AllFit, NoDuplicates, IdSet, Queued, Order;
    now := b;
    if CanRun(p, budget) && !b.PrefillComplete() {
      var chunk := Min(b.RemainingPrefill(), budget - p.used);
      var q := AdmitHead(p, p.s.cache, chunk);
      assert AdmitRound(p, budget) == Again(q);
      now := AdmittedSequence(b, chunk);
      AdmitHeadKeepsOrder(p, p.s.cache, chunk);
      AllFitKept(p.s, q.s);
      assert forall i :: 0 <= i < |q.s.waiting| ==> q.s.waiting[i] == p.s.waiting[i + 1];
    }
  }

  /** Joined again: an eviction puts it back at the head; a head that fits is stacked on top of it. */
  lemma RejoinedRound(front: seq<Sequence>, b: Sequence, p: Pass, budget: nat)
    requires Rejoined(front, b, p) && p.s.config.chunkedPrefill && p.s.cache.WellFormed() && CanRun(p, budget)
    ensures AdmitRound(p, budget).Again?
    ensures CanAllocate(p.s.cache, |p.s.waiting[0].prompt|) ==> Stacked(front + [b], IdSet(front), p, budget)
    ensures !CanAllocate(p.s.cache, |p.s.waiting[0].prompt|) ==> Ousted(front, b, AdmitRound(p, budget).p)
  {
    hide Consistent, AllFit, NoDuplicates, IdSet, Queued, Order, AdmitRound, CanAllocate;
    DistinctFront(front, b, p);
    IdSetPush(front, b);
    var n := |front|;
    if CanAllocate(p.s.cache, |p.s.waiting[0].prompt|) {
      NotInAny(p.s.running[n + 1..]);
      assert p.s.running[..n + 1] == front + [b];
      StackedAdmits(front + [b], IdSet(front), p, budget);
    } else {
      NoRoomEvicts(p, budget);
      var q := AdmitRound(p, budget).p;
      assert p.s.running[..n] == front && p.s.running[n] == b;
      FinishedStays(b);
      AllFitKept(p.s, q.s);
      assert p.s.cache.tables - {b.id} == p.s.cache.tables;
      assert forall i :: 0 < i < |q.s.waiting| ==> q.s.waiting[i] == p.s.waiting[i - 1];
    }
  }

  lemma FinishedStays(q: Sequence)
    requires q.state.Finished?
    ensures q.Preempt() == q
  {
  }

  /** Once evicted, a finished sequence spoils the pass: nothing resident is scheduled, or the batch cannot be built. */
  lemma {:induction false} OustedSpoils(front: seq<Sequence>, b: Sequence, p: Pass, budget: nat)
    requires Ousted(front, b, p) || Rejoined(front, b, p)
    requires p.s.config.chunkedPrefill && p.s.cache.WellFormed()
    ensures !Progresses(Admit(p, budget))
    decreases SaturatingSub(budget, p.used), |p.s.running|
  {
    hide AdmitRound, CanAllocate, BuildBatch, Behind, Stacked;
    AdmitRoundProgress(p, budget);
    var next := AdmitRound(p, budget);
    if Ousted(front, b, p) {
      var now := OustedRound(front, b, p, budget);
      if next.Again? {
        OustedSpoils(front, now, next.p, budget);
      } else {
        OustedIsAbsent(front, b, p);
      }
    } else if !CanRun(p, budget) {
      AdmitRoundStops(p, budget);
      DistinctFrontOf(front, b, p);
      TablelessFails(p, 0, |front|);
    } else {
      RejoinedRound(front, b, p, budget);
      if CanAllocate(p.s.cache, |p.s.waiting[0].prompt|) {
        RejoinedUnderStack(front, b, p, budget);
      } else {
        OustedSpoils(front, b, next.p, budget);
      }
    }
  }

  lemma OustedIsAbsent(front: seq<Sequence>, b: Sequence, p: Pass)
    requires Ousted(front, b, p)
    ensures !SchedulesResident(p)
  {
    hide Consistent, AllFit, Order, Queued;
    IdsAreDistinct(p.s);
  }

  lemma DistinctFrontOf(front: seq<Sequence>, b: Sequence, p: Pass)
    requires Rejoined(front, b, p)
    ensures b.id !in p.s.cache.tables && p.scheduled[0].id == b.id
  {
    hide Consistent, AllFit, Order, Queued;
    DistinctFront(front, b, p);
  }

  lemma RejoinedUnderStack(front: seq<Sequence>, b: Sequence, p: Pass, budget: nat)
    requires Rejoined(front, b, p) && Stacked(front + [b], IdSet(front), p, budget)
    requires p.s.config.chunkedPrefill && p.s.cache.WellFormed()
    ensures BuildBatch(Admit(p, budget).s, Admit(p, budget).scheduled).None?
  {
    hide Consistent, AllFit, Order, Queued, IdSet, ServedAt, FitsAt, BuildBatch;
    var n, r := |front|, Admit(p, budget);
    DistinctFrontOf(front, b, p);
    StackedServes(front + [b], IdSet(front), p, budget);
    AdmitExtendsBatch(p, budget);
    StackedParts(front + [b], IdSet(front), r, budget);
    assert r.s.running[n] == r.s.running[..n + 1][n] == b;
    assert r.scheduled[0] == p.scheduled[0];
    DistinctFront(front, b, p);
    NotInIdSet(r.s.running[n + 1..], b.id);
    TablelessFails(r, 0, n);
  }

  lemma CrowdedPassIsSpoiled(s: State)
    requires Outstanding(s) && s.running != []
    requires |s.running| >= s.config.maxNumSeqs || !CanAllocate(s.cache, |s.waiting[0].prompt|)
    ensures s.cache.WellFormed() && !Progresses(Schedule(s))
  {
    hide Consistent, AllFit, NoDuplicates, Queued, IdSet, Order, BuildBatch, Schedule, CanAllocate, AdmitRound, Ousted;
    HealthyIsWellFormed(s);
    OnlyAdmission(s);
    var start, budget, n := StartPass(s), s.config.maxBatchedTokens, |s.running| - 1;
    if |s.running| >= s.config.maxNumSeqs {
      AdmitEnds(start, budget);
    } else {
      NoRoomEvicts(start, budget);
      var front, b, q := s.running[..n], s.running[n], AdmitRound(start, budget).p;
      EvictedIsOusted(s, q);
      AdmitRoundProgress(start, budget);
      OustedSpoils(front, b, q, budget);
    }
  }

  lemma EvictedIsOusted(s: State, q: Pass)
    requires Outstanding(s) && s.running != [] && NewestLeft(StartPass(s), q)
    ensures var n := |s.running| - 1; Ousted(s.running[..n], s.running[n], q)
  {
    hide Consistent, AllFit, NoDuplicates, Queued, Order, Ids;
    var n := |s.running| - 1;
    var front, b := s.running[..n], s.running[n];
    assert Resident(b) && b.state.Finished?;
    FinishedStays(b);
    AllFitKept(s, q.s);
    assert s.running == front + [b];
    IdSetPush(front, b);
    IdsAreDistinct(s);
    NotInIdSet(front, b.id);
    assert forall i :: 0 < i < |q.s.waiting| ==> q.s.waiting[i] == s.waiting[i - 1];
  }

  /**
   * Exactly when a pass over finished sequences makes progress: there is a free place and the
   * head of the queue fits as things are. Otherwise the pass has to evict a finished
   * sequence, which then stands in the way.
   */
  lemma FinishedRunningProgress(s: State)
    requires Outstanding(s) && s.running != []
    ensures s.cache.WellFormed()
    ensures Progresses(Schedule(s)) <==> |s.running| < s.config.maxNumSeqs && CanAllocate(s.cache, |s.waiting[0].prompt|)
  {
    hide Progresses, Schedule, CanAllocate, Healthy, AllFit;
    HealthyIsWellFormed(s);
    if |s.running| < s.config.maxNumSeqs && CanAllocate(s.cache, |s.waiting[0].prompt|) {
      FittingHeadIsServed(s);
    } else {
      CrowdedPassIsSpoiled(s);
    }
  }

  // ----- A finished sequence with its prompt through -----

  /** There is no free place, or the head of the queue does not fit as things are. */
  predicate Crowded(s: State)
    requires s.waiting != [] && s.cache.pool.blockSize > 0
  {
    |s.running| >= s.config.maxNumSeqs || !CanAllocate(s.cache, |s.waiting[0].prompt|)
  }

  /** Nothing is scheduled; nothing moves, or only the newest sequence, which goes to the queue as it is. */
  ghost predicate NewestMakesWay(s: State, r: Pass)
    requires s.running != []
  {
    var b := s.running[|s.running| - 1];
    if |s.running| >= s.config.maxNumSeqs then r == StartPass(s)
    else NewestLeft(StartPass(s), r) && r.s.waiting == [b] + s.waiting
  }

  /**
   * While only finished sequences run, the newest of them with its prompt through, a pass
   * schedules nothing exactly when there is no free place or the head does not fit. At most
   * that newest sequence moves: evicted to the head of the queue, it stands in the way.
   */
  lemma FinishedVictimStopsThePass(s: State)
    requires Outstanding(s) && s.running != [] && s.running[|s.running| - 1].PrefillComplete()
    ensures s.cache.WellFormed()
    ensures Schedule(s).scheduled == [] <==> Crowded(s)
    ensures Crowded(s) ==> NewestMakesWay(s, Schedule(s))
  {
    hide Consistent, AllFit, NoDuplicates, Queued, IdSet, Order, BuildBatch, Schedule, CanAllocate, AdmitRound, NewestLeft;
    HealthyIsWellFormed(s);
    if Crowded(s) {
      OnlyAdmission(s);
      var start, budget := StartPass(s), s.config.maxBatchedTokens;
      if |s.running| >= s.config.maxNumSeqs {
        AdmitEnds(start, budget);
      } else {
        NoRoomEvicts(start, budget);
        NewestAtHead(s, AdmitRound(start, budget).p);
        AdmitRoundProgress(start, budget);
        AdmitEnds(AdmitRound(start, budget).p, budget);
      }
    } else {
      FinishedRunningProgress(s);
    }
  }

  lemma NewestAtHead(s: State, q: Pass)
    requires s.running != [] && NewestLeft(StartPass(s), q)
    requires s.running[|s.running| - 1].state.Finished? && s.running[|s.running| - 1].PrefillComplete()
    ensures q.s.waiting == [s.running[|s.running| - 1]] + s.waiting && q.s.waiting[0].RemainingPrefill() == 0
    ensures q.scheduled == []
  {
    hide Consistent, Order;
    FinishedStays(s.running[|s.running| - 1]);
  }
}
