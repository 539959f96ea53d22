// What a timeout of the running sequences costs: engine steps after the deadline.
module TimeoutSteps {
  import opened Prelude
  import opened Arithmetic
  import opened KvCache
  import opened KvConservation
  import opened Sequences
  import opened Scheduling
  import opened SchedulerOrder
  import opened SchedulerInvariant
  import opened EngineSteps
  import opened NoStall
  import Drain
  import opened BatchBuilding
  import opened SmallPasses
  import opened FinishedRunning

  // ----- The expiry keeps a healthy scheduler healthy -----

  lemma ExpiredFits(s: State, late: set<SequenceId>)
    requires s.cache.pool.blockSize > 0 && AllFit(s)
    ensures AllFit(Expired(s, late).0)
  {
    hide Fits;
    var after := Expired(s, late).0;
    RejectedIsWithout(s.waiting, late);
    forall i | 0 <= i < |Order(after)| ensures Fits(after.cache, Order(after)[i]) {
      if i < |s.running| {
        FitsByPrompt(s.cache, Order(s)[i], Order(after)[i]);
      } else {
        var q := after.waiting[i - |s.running|];
        var j :| 0 <= j < |s.waiting| && s.waiting[j] == q;
        assert Order(s)[|s.running| + j] == Core(q) == Order(after)[i];
      }
    }
  }

  lemma FitsByPrompt(m: Manager, q: Sequence, r: Sequence)
    requires m.pool.blockSize > 0 && Fits(m, q) && r.prompt == q.prompt
    ensures Fits(m, r)
  {
  }

  lemma ExpiredIsOutstanding(s: State, late: set<SequenceId>)
    requires Healthy(s) && RunsWell(s.config) && |s.running| <= s.config.maxNumSeqs
    requires s.cache.pool.blockSize > 0 && AllFit(s)
    requires forall i :: 0 <= i < |s.running| ==> s.running[i].id in late || s.running[i].state.Finished?
    requires Rejected(s.waiting, late) != []
    ensures Outstanding(Expired(s, late).0)
  {
    hide Healthy, AllFit, Order;
    ExpireHealthy(s, late);
    ExpiredFits(s, late);
  }

  lemma {:induction false} RejectedConcat(a: seq<Sequence>, b: seq<Sequence>, late: set<SequenceId>)
    ensures Rejected(a + b, late) == Rejected(a, late) + Rejected(b, late)
  {
    if b == [] {
      assert a + b == a;
    } else {
      RejectedConcat(a, b[..|b| - 1], late);
      assert (a + b)[..|a + b| - 1] == a + b[..|b| - 1];
    }
  }

  lemma RejectedFirst(q: Sequence, rest: seq<Sequence>, late: set<SequenceId>)
    ensures q.id in late ==> Rejected([q] + rest, late) == Rejected(rest, late)
    ensures q.id !in late ==> Rejected([q] + rest, late) == [q] + Rejected(rest, late)
  {
    RejectedConcat([q], rest, late);
    assert [q][..0] == [];
    assert Rejected([q], late) == if q.id in late then [] else [q];
  }

  // ----- The newest times out with its prompt through -----

  /**
   * Everything that runs is about to time out or has finished, and for the first request that
   * will still wait there is no place or there are no blocks.
   */
  ghost predicate LateInTheWay(s: State, late: set<SequenceId>) {
    var rest := Rejected(s.waiting, late);
    && Healthy(s) && RunsWell(s.config) && |s.running| <= s.config.maxNumSeqs && s.cache.pool.blockSize > 0 && AllFit(s)
    && s.running != [] && rest != []
    && (forall i :: 0 <= i < |s.running| ==> s.running[i].id in late || s.running[i].state.Finished?)
    && (|s.running| == s.config.maxNumSeqs || !CanAllocate(s.cache, |rest[0].prompt|))
  }

  lemma LateExpires(s: State, late: set<SequenceId>)
    requires LateInTheWay(s, late)
    ensures var after := Expired(s, late).0;
            && Outstanding(after) && after.waiting == Rejected(s.waiting, late) && Crowded(after)
            && |after.running| == |s.running| && after.cache == s.cache && after.config == s.config
            && (forall i :: 0 <= i < |s.running| ==> after.running[i] == s.running[i].Finish(Timeout))
            && |after.waiting[0].prompt| > 0
  {
    hide Healthy, AllFit, Order;
    ExpiredIsOutstanding(s, late);
    HeadFits(Expired(s, late).0);
    HeadHasTokens(s.cache, Expired(s, late).0.waiting[0]);
  }

  /** A step that schedules nothing lets the late requests go and reaps. */
  lemma EmptyStep(e: EngineState, input: StepInput)
    requires e.s.cache.WellFormed()
    requires var s := Expired(e.s, input.late).0; s.cache.WellFormed() && Schedule(s).scheduled == []
    ensures var (f, r) := Stepped(e, input);
            r == Ok(0) && f.s == Reaped(Schedule(Expired(e.s, input.late).0).s).0
  {
    hide ExpiredRequests, Expired, Schedule, Reaped;
    ExpiredRequestsKeepCache(e, input.late, input.closed);
    var expired := ExpiredRequests(e, input.late, input.closed);
    var p := Schedule(expired.s);
    NotifiedAllKeepState(e.(s := Reaped(p.s).0), Reaped(p.s).1, input.closed);
    ReapedState(expired.(s := p.s), input.closed);
  }

  lemma ReapedState(e: EngineState, closed: set<SequenceId>)
    ensures ReapedRequests(e, closed).s == Reaped(e.s).0
  {
    var (s, finished) := Reaped(e.s);
    NotifiedAllKeepState(e.(s := s), finished, closed);
  }

  lemma {:induction false} FinishedAreReaped(list: seq<Sequence>)
    requires forall i :: 0 <= i < |list| ==> list[i].state.Finished?
    ensures Unfinished(list) == [] && FinishedOnly(list) == list
  {
    if list != [] {
      FinishedAreReaped(list[..|list| - 1]);
    }
  }

  /** Once the finished ones are reaped, nothing runs and nothing is held. */
  lemma NothingIsLeft(s: State, r: Pass)
    requires Outstanding(s) && s.running != [] && NewestMakesWay(s, r)
    ensures var t := Reaped(r.s).0;
            && t.running == [] && t.waiting == r.s.waiting && t.config == s.config
            && SamePool(s, t) && Consistent(t.cache) && t.cache.tables == map[]
  {
    hide Consistent, AllFit, NoDuplicates, Order, FreedAll, IdSet, Resident, Queued;
    var n := |s.running| - 1;
    FinishedAreReaped(r.s.running);
    FreedAllConserves(r.s.cache, r.s.running);
    if |s.running| < s.config.maxNumSeqs {
      assert s.running == s.running[..n] + [s.running[n]];
      IdSetPush(s.running[..n], s.running[n]);
    }
    assert r.s.cache.tables - IdSet(r.s.running) == map[];
  }

  /** With nothing running and nothing held, whoever still waits after the expiry is served. */
  lemma EmptySchedulerServes(s: State, late: set<SequenceId>)
    requires Healthy(s) && RunsWell(s.config) && s.running == [] && s.cache.pool.blockSize > 0 && AllFit(s)
    requires Rejected(s.waiting, late) != []
    ensures var t := Expired(s, late).0; t.cache.WellFormed() && Progresses(Schedule(t))
  {
    hide Healthy, AllFit, Order, Schedule, BuildBatch, SchedulesResident;
    ExpireHealthy(s, late);
    ExpiredFits(s, late);
    var t := Expired(s, late).0;
    HealthyIsWellFormed(t);
    WorkNeverStalls(t);
    BatchAlwaysBuilds(t);
  }

  /**
   * When the newest of several sequences times out with its prompt through, and everything
   * else that runs is late or finished too, one step is lost. That step schedules nothing,
   * reaps what still runs, and leaves the newest at the head of the queue if it was evicted.
   * The next step drops it with the late requests, and serves the first request that is not
   * late.
   */
  lemma TimedOutVictimCostsOneStep(e: EngineState, first: StepInput, second: StepInput)
    requires e.s.cache.WellFormed() && LateInTheWay(e.s, first.late) && Newest(e.s).PrefillComplete()
    requires |e.s.running| < e.s.config.maxNumSeqs ==> Newest(e.s).id in second.late
    requires Rejected(Rejected(e.s.waiting, first.late), second.late) != []
    ensures var (f, r) := Stepped(e, first);
            var s, evicted := Expired(f.s, second.late).0, |e.s.running| < e.s.config.maxNumSeqs;
            && r == Ok(0) && f.s.running == [] && f.s.cache.tables == map[]
            && f.s.waiting == (if evicted then [Newest(e.s).Finish(Timeout)] else []) + Rejected(e.s.waiting, first.late)
            && s.waiting == Rejected(Rejected(e.s.waiting, first.late), second.late)
            && s.cache.WellFormed() && Progresses(Schedule(s))
  {
    hide Healthy, AllFit, Order, Schedule, Progresses, CanAllocate, Consistent, Expired, Stepped, Reaped, NewestMakesWay;
    LateExpires(e.s, first.late);
    var s1, b := Expired(e.s, first.late).0, Newest(e.s).Finish(Timeout);
    HealthyIsWellFormed(s1);
    FinishedVictimStopsThePass(s1);
    EmptyStep(e, first);
    NothingIsLeft(s1, Schedule(s1));
    WhoWaits(s1, Schedule(s1));
    var t := Reaped(Schedule(s1).s).0;
    WithoutVictims(s1, t);
    var u := t.(waiting := s1.waiting);
    EmptySchedulerServes(u, second.late);
    if |e.s.running| < e.s.config.maxNumSeqs {
      DropsVictim(t, u, b, second.late);
    } else {
      assert t == u;
      ExpiredQueue(u, second.late);
    }
  }

  function Newest(s: State): Sequence
    requires s.running != []
  {
    s.running[|s.running| - 1]
  }

  lemma WhoWaits(s: State, r: Pass)
    requires s.running != [] && NewestMakesWay(s, r)
    ensures r.s.waiting == if |s.running| < s.config.maxNumSeqs then [Newest(s)] + s.waiting else s.waiting
  {
  }

  lemma ExpiredQueue(s: State, late: set<SequenceId>)
    ensures Expired(s, late).0.waiting == Rejected(s.waiting, late)
  {
  }

  /** The queue without those that ran is healthy again. */
  lemma WithoutVictims(s: State, t: State)
    requires Healthy(s) && s.cache.pool.blockSize > 0 && AllFit(s)
    requires t.running == [] && t.config == s.config && SamePool(s, t) && Consistent(t.cache) && t.cache.tables == map[]
    ensures var u := t.(waiting := s.waiting); Healthy(u) && AllFit(u)
  {
    hide Consistent, Fits, Queued, Resident;
    var u, n := t.(waiting := s.waiting), |s.running|;
    NotInAny(u.running);
    assert forall i :: 0 <= i < |Order(u)| ==> Order(u)[i] == Order(s)[n + i];
    forall i | 0 <= i < |Order(u)| ensures Fits(u.cache, Order(u)[i]) {
      Drain.FitsSamePool(s.cache, u.cache, Order(s)[n + i]);
    }
    forall i, j | 0 <= i < j < |Ids(Order(u))| ensures Ids(Order(u))[i] != Ids(Order(u))[j] {
      assert Ids(Order(s))[n + i] != Ids(Order(s))[n + j];
    }
  }

  lemma DropsVictim(t: State, u: State, b: Sequence, late: set<SequenceId>)
    requires t.running == [] && t.waiting == [b] + u.waiting && u == t.(waiting := u.waiting) && b.id in late
    ensures Expired(t, late).0 == Expired(u, late).0
    ensures Expired(t, late).0.waiting == Rejected(u.waiting, late)
  {
    RejectedFirst(b, u.waiting, late);
  }

  // ----- The newest times out in mid-prefill -----

  /** Everything has finished, the newest in mid-prefill; there is a place, but no room for the head of the queue. */
  ghost predicate MidPrefillInTheWay(s: State) {
    && Outstanding(s) && s.running != [] && |s.running| < s.config.maxNumSeqs
    && !Newest(s).PrefillComplete() && !CanAllocate(s.cache, |s.waiting[0].prompt|)
  }

  /** Once the newest has made way, it takes the whole budget to join again, or the head of the queue fits beside it. */
  predicate RejoinsForGood(s: State)
    requires s.running != [] && s.waiting != [] && s.cache.pool.blockSize > 0
    requires Freed(s.cache, Newest(s).id).pool.blockSize > 0
  {
    || Newest(s).RemainingPrefill() >= s.config.maxBatchedTokens
    || CanAllocate(Freed(s.cache, Newest(s).id), |s.waiting[0].prompt|)
  }

  lemma FreedKeepsSize(m: Manager, id: SequenceId)
    requires Consistent(m) && m.pool.blockSize > 0
    ensures Freed(m, id).pool.blockSize > 0
  {
    hide Freed, Consistent;
    FreeingConserves(m, id);
  }

  /** The eviction of the newest. */
  lemma MakesWay(s: State) returns (q: Pass)
    requires MidPrefillInTheWay(s)
    ensures s.cache.WellFormed() && q.s.cache.WellFormed()
    ensures Schedule(s) == Admit(q, s.config.maxBatchedTokens)
    ensures Ousted(s.running[..|s.running| - 1], Newest(s), q)
    ensures q.s.config == s.config && q.used == 0 && q.s.waiting == [Newest(s)] + s.waiting
    ensures q.s.cache == Freed(s.cache, Newest(s).id)
  {
    hide Consistent, AllFit, NoDuplicates, IdSet, Order, Schedule, Admit, CanAllocate, Ousted, Freed, Queued, NewestLeft;
    HealthyIsWellFormed(s);
    OnlyAdmission(s);
    var start, budget := StartPass(s), s.config.maxBatchedTokens;
    HeadFits(s);
    HeadHasTokens(s.cache, s.waiting[0]);
    HeadIsQueued(s);
    AdmitEvicts(start, budget);
    NewestLeaves(start);
    q := PreemptOne(start).value;
    EvictedIsOusted(s, q);
    FinishedStays(Newest(s));
  }

  lemma HeadIsQueued(s: State)
    requires Healthy(s) && s.waiting != []
    ensures s.waiting[0].computed == 0
  {
    assert Queued(s.waiting[0]);
  }

  /** It joins again at its old progress, without a table. */
  lemma JoinsAgain(front: seq<Sequence>, b: Sequence, p: Pass, budget: nat) returns (now: Sequence)
    requires Ousted(front, b, p) && p.s.config.chunkedPrefill && p.s.cache.WellFormed()
    requires CanRun(p, budget) && !b.PrefillComplete()
    ensures var q := AdmitRound(p, budget).p;
            && AdmitRound(p, budget) == Again(q) && q.s.cache == p.s.cache && q.s.config == p.s.config
            && q.s.waiting == p.s.waiting[1..] && q.used == p.used + Min(b.RemainingPrefill(), budget - p.used)
            && Rejoined(front, now, q) && now.id == b.id
            && (b.RemainingPrefill() < budget - p.used ==> now.PrefillComplete())
  {
    hide Consistent, Allocated, CeilDiv, AllFit, NoDuplicates, IdSet, Queued, Order;
    now := AdmittedSequence(b, Min(b.RemainingPrefill(), budget - p.used));
    var chunk := Min(b.RemainingPrefill(), budget - p.used);
    var q := AdmitHead(p, p.s.cache, chunk);
    assert AdmitRound(p, budget) == Again(q);
    AdmitHeadKeepsOrder(p, p.s.cache, chunk);
    AllFitKept(p.s, q.s);
    assert forall i :: 0 <= i < |q.s.waiting| ==> q.s.waiting[i] == p.s.waiting[i + 1];
  }

  lemma {:induction false} AbsentBatch(s: State, batch: seq<Scheduled>, id: SequenceId)
    requires OnlyFor(batch, id) && Position(s.running, id) == |s.running|
    ensures BuildBatch(s, batch) == Some([])
  {
    hide Position;
    if batch != [] {
      AbsentBatch(s, batch[..|batch| - 1], id);
      assert batch[|batch| - 1].id == id;
    }
  }

  lemma OustedBatchIsEmpty(front: seq<Sequence>, b: Sequence, p: Pass)
    requires Ousted(front, b, p)
    ensures BuildBatch(p.s, p.scheduled) == Some([])
  {
    hide Consistent, AllFit, Order, Queued, IdSet, BuildBatch;
    IdsAreDistinct(p.s);
    AbsentBatch(p.s, p.scheduled, b.id);
  }

  lemma OustedEnds(front: seq<Sequence>, b: Sequence, p: Pass, budget: nat)
    requires Ousted(front, b, p) && b.PrefillComplete() && p.s.cache.WellFormed()
    ensures Admit(p, budget) == p
  {
    hide Behind;
    AdmitEnds(p, budget);
  }

  /**
   * When the newest of any number of finished sequences is in mid-prefill and makes way, the
   * batch of the pass cannot be built if and only if it joins again for good. Otherwise it is
   * evicted a second time, and the batch, with entries for it alone, is built without a row.
   */
  lemma MidPrefillVictimSpoilsTheBatch(s: State)
    requires MidPrefillInTheWay(s)
    ensures s.cache.WellFormed() && Freed(s.cache, Newest(s).id).pool.blockSize > 0
    ensures var r := Schedule(s);
            && r.scheduled != []
            && (RejoinsForGood(s) ==> BuildBatch(r.s, r.scheduled) == None)
            && (!RejoinsForGood(s) ==> BuildBatch(r.s, r.scheduled) == Some([]))
  {
    hide Consistent, AllFit, NoDuplicates, Queued, IdSet, Order, BuildBatch, Schedule, CanAllocate, AdmitRound, Ousted,
      Rejoined, Stacked, Freed;
    HealthyIsWellFormed(s);
    FreedKeepsSize(s.cache, Newest(s).id);
    var budget, front := s.config.maxBatchedTokens, s.running[..|s.running| - 1];
    var q := MakesWay(s);
    OustedRuns(front, Newest(s), q);
    var now := JoinsAgain(front, Newest(s), q, budget);
    var p := AdmitRound(q, budget).p;
    AdmitRoundProgress(q, budget);
    assert Admit(q, budget) == Admit(p, budget);
    RejoinedHasEntry(front, now, p);
    AdmitExtendsBatch(p, budget);
    if p.used >= budget {
      AdmitRoundStops(p, budget);
      DistinctFrontOf(front, now, p);
      RejoinedLast(front, now, p);
      TablelessFails(p, 0, |front|);
    } else {
      RejoinedRound(front, now, p, budget);
      if CanAllocate(p.s.cache, |p.s.waiting[0].prompt|) {
        RejoinedUnderStack(front, now, p, budget);
      } else {
        var last := AdmitRound(p, budget).p;
        AdmitRoundProgress(p, budget);
        OustedEnds(front, now, last, budget);
        OustedBatchIsEmpty(front, now, last);
      }
    }
  }

  lemma OustedRuns(front: seq<Sequence>, b: Sequence, p: Pass)
    requires Ousted(front, b, p)
    ensures p.s.running == front && p.s.waiting != [] && p.s.waiting[0] == b
  {
  }

  lemma RejoinedHasEntry(front: seq<Sequence>, b: Sequence, p: Pass)
    requires Rejoined(front, b, p)
    ensures p.scheduled != [] && p.s.cache.pool.blockSize > 0
  {
  }

  lemma RejoinedLast(front: seq<Sequence>, b: Sequence, p: Pass)
    requires Rejoined(front, b, p)
    ensures p.s.running == front + [b]
  {
  }

  /** Alone, it always does: every block is free once it has made way. */
  lemma LoneVictimRejoins(s: State)
    requires MidPrefillInTheWay(s) && |s.running| == 1
    ensures Freed(s.cache, Newest(s).id).pool.blockSize > 0 && RejoinsForGood(s)
  {
    hide Consistent, NoDuplicates, Order, Freed, CeilDiv, AllFit;
    FreeingConserves(s.cache, Newest(s).id);
    assert s.running == [Newest(s)];
    IdSetOne(Newest(s));
    assert Freed(s.cache, Newest(s).id).tables == map[];
    NoTablesAllFree(Freed(s.cache, Newest(s).id));
    HeadFits(s);
    HeadHasTokens(s.cache, s.waiting[0]);
  }

  /**
   * When the newest of several sequences times out in mid-prefill, and everything else that
   * runs is late or finished too: the step fails, whatever the model would have done, if
   * there is a free place and the newest joins again for good, as it does when it is alone.
   * Otherwise the step returns zero, for a model that answers a batch without rows with none.
   */
  lemma MidPrefillTimeoutFailsTheStep(e: EngineState, input: StepInput)
    requires e.s.cache.WellFormed() && LateInTheWay(e.s, input.late) && !Newest(e.s).PrefillComplete()
    ensures var s := Expired(e.s, input.late).0;
            && s.running != [] && s.waiting != [] && s.cache.pool.blockSize > 0
            && Freed(s.cache, Newest(s).id).pool.blockSize > 0
            && var fails := |s.running| < s.config.maxNumSeqs && RejoinsForGood(s);
               && (fails ==> Stepped(e, input).1 == Err(Internal))
               && (!fails && (|s.running| < s.config.maxNumSeqs ==> input.forward == Some([])) ==> Stepped(e, input).1 == Ok(0))
               && (|s.running| == 1 < s.config.maxNumSeqs ==> fails)
  {
    hide Healthy, AllFit, Order, Schedule, CanAllocate, Consistent, Expired, BuildBatch, ExpiredRequests, RejoinsForGood, Freed,
      Reaped, ReapedRequests, CommitAll;
    LateExpires(e.s, input.late);
    var s := Expired(e.s, input.late).0;
    OutstandingParts(s);
    FreedKeepsSize(s.cache, Newest(s).id);
    ExpiredRequestsKeepCache(e, input.late, input.closed);
    if |s.running| < s.config.maxNumSeqs {
      MidPrefillVictimSpoilsTheBatch(s);
      if |s.running| == 1 {
        LoneVictimRejoins(s);
      }
      assert EmittedRows(ExpiredRequests(e, input.late, input.closed).(s := Schedule(s).s), [], input.closed).1;
    } else {
      OnlyAdmission(s);
      AdmitEnds(StartPass(s), s.config.maxBatchedTokens);
    }
  }

  lemma OutstandingParts(s: State)
    requires Outstanding(s)
    ensures Consistent(s.cache) && s.cache.WellFormed() && s.config.prioritizeDecode
  {
  }
}
