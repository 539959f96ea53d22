// Every caller is answered by the model as it is: it rejects a decode without a slot, and the step fails.
module ModelDrain {
  import opened Prelude
  import opened KvCache
  import opened KvConservation
  import opened Sequences
  import opened Scheduling
  import opened SchedulerOrder
  import opened SchedulerInvariant
  import opened NoStall
  import opened Drain
  import opened SlotDrain
  import opened EngineSteps
  import opened StreamProtocol
  import opened BatchBuilding
  import opened EngineDrain
  import opened KvStores
  import opened Transformer
  import opened BatchAcceptance

  // ----- Requests within the model's bounds -----

  /** Tokens in the vocabulary, and a length within the rotary tables. */
  ghost predicate FamiliarTo(q: Sequence, vocabulary: nat, context: nat) {
    && (forall t :: t in q.prompt ==> t < vocabulary) && (forall t :: t in q.output ==> t < vocabulary)
    && |q.prompt| + q.params.maxTokens <= context
  }

  ghost predicate Familiar(s: State, vocabulary: nat, context: nat) {
    forall i :: 0 <= i < |Order(s)| ==> FamiliarTo(Order(s)[i], vocabulary, context)
  }

  lemma FamiliarMembers(s: State, vocabulary: nat, context: nat)
    requires Familiar(s, vocabulary, context)
    ensures forall i :: 0 <= i < |s.running| ==> FamiliarTo(s.running[i], vocabulary, context)
    ensures forall i :: 0 <= i < |s.waiting| ==> FamiliarTo(s.waiting[i], vocabulary, context)
  {
    forall i | 0 <= i < |s.running| ensures FamiliarTo(s.running[i], vocabulary, context) {
      assert Order(s)[i] == Core(s.running[i]);
    }
    forall i | 0 <= i < |s.waiting| ensures FamiliarTo(s.waiting[i], vocabulary, context) {
      assert Order(s)[|s.running| + i] == Core(s.waiting[i]);
    }
  }

  lemma MembersFamiliar(s: State, vocabulary: nat, context: nat)
    requires forall i :: 0 <= i < |s.running| ==> FamiliarTo(s.running[i], vocabulary, context)
    requires forall i :: 0 <= i < |s.waiting| ==> FamiliarTo(s.waiting[i], vocabulary, context)
    ensures Familiar(s, vocabulary, context)
  {
    forall i | 0 <= i < |Order(s)| ensures FamiliarTo(Order(s)[i], vocabulary, context) {
      if i < |s.running| {
        assert FamiliarTo(s.running[i], vocabulary, context);
      } else {
        assert FamiliarTo(s.waiting[i - |s.running|], vocabulary, context);
      }
    }
  }

  // ----- When the model accepts the batch of a pass -----

  lemma TableBlocksExist(m: Manager, id: SequenceId, i: nat)
    requires Consistent(m) && id in m.tables && i < |m.tables[id].blocks|
    ensures m.tables[id].blocks[i] < |m.pool.blocks|
  {
    TableBlocksHeld(m.tables, id, m.tables[id].blocks[i]);
  }

  lemma SupportedCovers(s: State)
    requires Consistent(s.cache) && Supported(s)
    ensures TablesCover(s)
  {
    hide Consistent;
    PoolHasSize(s.cache);
    forall id, i | id in s.cache.tables && 0 <= i < |s.cache.tables[id].blocks|
      ensures s.cache.tables[id].blocks[i] < |s.cache.pool.blocks|
    {
      TableBlocksExist(s.cache, id, i);
    }
    forall i | 0 <= i < |s.running| && s.running[i].id in s.cache.tables
      ensures |s.running[i].prompt| <= |s.cache.tables[s.running[i].id].blocks| * s.cache.pool.blockSize
    {
      TableSpans(s.cache, s.running[i].id);
    }
  }

  lemma PoolHasSize(m: Manager)
    requires Consistent(m)
    ensures m.pool.blockSize > 0
  {
  }

  /** For a familiar sequence an entry runs exactly when it has its slot. */
  lemma FamiliarEntryRuns(s: State, p: Pass, m: Model, k: nat)
    requires Paced(s, p) && k < |p.scheduled| && EntriesFit(Order(p.s), p.scheduled) && DistinctIds(p.s.running)
    requires forall i :: 0 <= i < |p.s.running| ==>
               FamiliarTo(p.s.running[i], |m.embed.rows|, |m.cos|) && p.s.running[i].id in p.s.cache.tables
               && |p.s.running[i].prompt| > 0 && |p.s.running[i].output| < p.s.running[i].params.maxTokens
    ensures EntryRuns(p.s, m, p.scheduled[k]) <==> Placed(p.s, p.scheduled[k])
  {
    hide Order, EntryFits, PacedAt, JoinedAt, Count, FamiliarTo, EntryTokens, DecodeEntry, DistinctIds;
    var e := p.scheduled[k];
    var pos := Position(p.s.running, e.id);
    if pos < |p.s.running| {
      var q := p.s.running[pos];
      EntryInPrompt(p.s, pos, e);
      if !e.isPrefill {
        DecodeStartsBelow(s, p, e, pos);
      }
      FamiliarTokens(q, e, |m.embed.rows|, |m.cos|);
    }
  }

  lemma FamiliarTokens(q: Sequence, e: Scheduled, vocabulary: nat, context: nat)
    requires FamiliarTo(q, vocabulary, context) && |q.prompt| > 0 && e.numTokens > 0
    requires e.isPrefill ==> e.startPosition + e.numTokens <= |q.prompt|
    requires !e.isPrefill ==> e.startPosition + 1 <= |q.prompt| + q.params.maxTokens
    ensures var tokens := EntryTokens(q, e);
            && tokens != [] && e.startPosition + |tokens| <= context
            && forall j :: 0 <= j < |tokens| ==> tokens[j] < vocabulary
  {
    var tokens := EntryTokens(q, e);
    if e.isPrefill {
      assert tokens == q.prompt[e.startPosition..e.startPosition + e.numTokens];
      forall j | 0 <= j < |tokens| ensures tokens[j] < vocabulary {
        assert tokens[j] == q.prompt[e.startPosition + j];
        assert tokens[j] in q.prompt;
      }
    } else if q.output != [] {
      assert q.output[|q.output| - 1] in q.output;
    } else {
      assert q.prompt[|q.prompt| - 1] in q.prompt;
    }
  }

  /** A decode is placed below the length its request may reach. */
  lemma DecodeStartsBelow(s: State, p: Pass, e: Scheduled, pos: nat)
    requires Paced(s, p) && DecodeEntry(s, e) && pos < |p.s.running| && DistinctIds(p.s.running)
    requires p.s.running[pos].id == e.id && |p.s.running[pos].output| < p.s.running[pos].params.maxTokens
    ensures e.startPosition + 1 <= |p.s.running[pos].prompt| + p.s.running[pos].params.maxTokens
  {
    hide Count;
    var j :| 0 <= j < |s.running| && s.running[j].id == e.id && s.running[j].state.Decoding?
             && e.startPosition == s.running[j].TotalLen();
    assert PacedAt(s, p, j);
    SameIdSamePlace(p.s.running, pos, j);
  }

  /** Reservations with room for the lags, tables behind every prompt, and requests within the model's bounds. */
  ghost predicate Poised(s: State, m: Model, d: Dims, room: nat, ahead: nat) {
    && Reserved(s, room, ahead) && Supported(s) && ahead + LagTotal(s) <= room
    && Familiar(s, |m.embed.rows|, |m.cos|) && |m.embed.rows| > 0 && SameBlocks(s, d)
  }

  /** The batch of such a pass is built, and the model accepts it exactly when every decode has its slot. */
  lemma AcceptedExactlyWhenPlaced(s: State, m: Model, d: Dims, room: nat, ahead: nat)
    requires Poised(s, m, d, room, ahead) && d.blockSize > 0
    ensures s.cache.WellFormed()
    ensures var p := Schedule(s);
            && BuildBatch(p.s, p.scheduled).Some?
            && (Runs(m, d, Flat(BuildBatch(p.s, p.scheduled).value)) <==> AllPlaced(p))
  {
    hide Healthy, NoneFinished, AllFit, Order, Schedule, PassFunded, Paced, Familiar, Supported, EntriesFit, TablesCover, BuildBatch,
      Runs, RowAccepted, EntryRuns, Placed, EntryBuilds, LagTotal, ReservationsFit;
    ReservedSchedules(s, room, ahead);
    SchedulePaces(s, room, ahead);
    ScheduleFunded(s, room, ahead);
    PassLags(s, room, ahead);
    ScheduleKeepsPool(s, room, ahead);
    var p := Schedule(s);
    FamiliarPass(s, p, m, room, ahead);
    PassFundedIsWellFormed(p, room, ahead);
    SupportedCovers(p.s);
    BuiltWhole(p);
    BatchBuildsExactly(p.s, p.scheduled);
    FitKinds(p.s, p.scheduled);
    forall k | 0 <= k < |p.scheduled| ensures EntryRuns(p.s, m, p.scheduled[k]) <==> Placed(p.s, p.scheduled[k]) {
      FamiliarEntryRuns(s, p, m, k);
    }
    BatchRunsExactly(p.s, m, d, p.scheduled);
    ForwardAcceptsExactly(m, d, BuildBatch(p.s, p.scheduled).value);
  }

  lemma BuiltWhole(p: Pass)
    requires BatchOk(p.s, p.scheduled) && Built(p.s, p.scheduled, |p.scheduled|)
    ensures BuildBatch(p.s, p.scheduled).Some? && EntriesFit(Order(p.s), p.scheduled)
  {
    assert p.scheduled[..|p.scheduled|] == p.scheduled;
  }

  lemma FitKinds(s: State, batch: seq<Scheduled>)
    requires EntriesFit(Order(s), batch)
    ensures forall k :: 0 <= k < |batch| ==> batch[k].isPrefill || batch[k].numTokens == 1
  {
  }

  /** The pass leaves what the model asks of the requests. */
  lemma FamiliarPass(s: State, p: Pass, m: Model, room: nat, ahead: nat)
    requires s.cache.WellFormed() && p == Schedule(s) && Familiar(s, |m.embed.rows|, |m.cos|) && PassFunded(p, room, ahead)
    ensures Familiar(p.s, |m.embed.rows|, |m.cos|) && DistinctIds(p.s.running)
    ensures forall i :: 0 <= i < |p.s.running| ==>
              FamiliarTo(p.s.running[i], |m.embed.rows|, |m.cos|) && p.s.running[i].id in p.s.cache.tables
              && |p.s.running[i].prompt| > 0 && |p.s.running[i].output| < p.s.running[i].params.maxTokens
  {
    hide Schedule, Order, PassOk, ReservationsFit, Granted, FamiliarTo;
    ScheduleKeepsOrder(s);
    assert Familiar(p.s, |m.embed.rows|, |m.cos|);
    FamiliarMembers(p.s, |m.embed.rows|, |m.cos|);
    RunningHaveTables(p, room, ahead);
    assert forall i :: 0 <= i < |p.s.running| ==> Servable(p.s, p.s.running[i]);
  }

  // ----- The size of the pool -----

  lemma {:induction false} AdmitKeepsPool(p: Pass, budget: nat, room: nat, ahead: nat)
    requires PassFunded(p, room, ahead) && p.s.config.chunkedPrefill
    ensures p.s.cache.WellFormed() && SamePool(p.s, Admit(p, budget).s)
    decreases SaturatingSub(budget, p.used), |p.s.running|
  {
    hide AdmitRound, PassFunded, Allocated;
    AdmitRoundFunded(p, budget, room, ahead);
    AdmitRoundProgress(p, budget);
    PassFundedIsWellFormed(p, room, ahead);
    if CanRun(p, budget) {
      AdmitRoundIsHead(p, budget, room, ahead);
      AllocationTables(p.s.cache, p.s.waiting[0].id, p.s.waiting[0].prompt);
      AdmitKeepsPool(AdmitRound(p, budget).p, budget, room, ahead);
    } else {
      AdmitRoundStops(p, budget);
    }
  }

  lemma ScheduleKeepsPool(s: State, room: nat, ahead: nat)
    requires Reserved(s, room, ahead)
    ensures s.cache.WellFormed() && SamePool(s, Schedule(s).s)
  {
    hide PassFunded, Decodes, Partials, Admit, DecodeCandidates, PartialCandidates, PartialsMatch, Consistent, DistinctIds, Order,
      AllServable, ReservationsFit, NoneFinished, AllFit;
    HealthyIsWellFormed(s);
    var start, budget := StartPass(s), s.config.maxBatchedTokens;
    DecodePassPaces(s, room, ahead);
    DecodesShape(start, DecodeCandidates(s.running), budget);
    var p := DecodePass(start, budget);
    RunningHaveTables(p, room, ahead);
    PartialCandidatesFrom(p.s.running, |p.s.running|);
    assert p.s.running[..|p.s.running|] == p.s.running;
    var candidates := PartialCandidates(p.s.running);
    PartialsFunded(p, candidates, budget, room, ahead);
    PartialsConfig(p, candidates, budget);
    AdmitKeepsPool(Partials(p, candidates, budget), budget, room, ahead);
  }

  // ----- After a round, and after a pass whose batch was rejected -----

  lemma RoundStaysFamiliar(s: State, draw: Draw, eosIds: seq<TokenId>, vocabulary: nat, context: nat, room: nat, ahead: nat)
    requires Reserved(s, room, ahead) && s.cache.WellFormed() && Familiar(s, vocabulary, context)
    requires DrawsWithin(draw, |Schedule(s).scheduled|, vocabulary)
    ensures Familiar(NextRound(s, draw, eosIds), vocabulary, context) && SamePool(s, NextRound(s, draw, eosIds))
  {
    hide Schedule, EmitAll, CommitAll, PassFunded, AllServable, ReservationsFit, AllFit, NoneFinished, Healthy, Order, FamiliarTo, Emitting,
      FreedAll, Unfinished, FinishedOnly, Consistent;
    ScheduleFunded(s, room, ahead);
    ScheduleWithinBudgets(s);
    ScheduleKeepsOrder(s);
    ScheduleKeepsPool(s, room, ahead);
    var p := Schedule(s);
    FundedStates(p, room, ahead);
    FundedIsEmitting(p, room, ahead);
    EmitAllWork(p.s, p.scheduled, draw, eosIds, ahead);
    EmitAllKeepsCache(p.s, p.scheduled, draw, eosIds);
    var e := EmitAll(p.s, p.scheduled, draw, eosIds);
    EmittingIsHealthy(e, ahead);
    CommitAllKeeps(e, p.scheduled);
    var c := CommitAll(e, p.scheduled);
    FamiliarMembers(p.s, vocabulary, context);
    EmittedFamiliar(p.s, p.scheduled, draw, eosIds, vocabulary, context);
    var after := Reaped(c).0;
    UnfinishedSplits(c.running);
    HealthyConsistent(c);
    FreedAllConserves(c.cache, FinishedOnly(c.running));
    forall i | 0 <= i < |after.running| ensures FamiliarTo(after.running[i], vocabulary, context) {
      assert after.running[i] in c.running;
    }
    MembersFamiliar(after, vocabulary, context);
  }

  lemma HealthyConsistent(s: State)
    requires Healthy(s)
    ensures Consistent(s.cache)
  {
  }

  lemma EmittedFamiliar(s: State, batch: seq<Scheduled>, draw: Draw, eosIds: seq<TokenId>, vocabulary: nat, context: nat)
    requires Healthy(s) && DrawsWithin(draw, |batch|, vocabulary)
    requires forall i :: 0 <= i < |s.running| ==> FamiliarTo(s.running[i], vocabulary, context)
    ensures var e := EmitAll(s, batch, draw, eosIds);
            forall i :: 0 <= i < |e.running| ==> FamiliarTo(e.running[i], vocabulary, context)
  {
    hide EmitAll, Healthy, Extended, FamiliarTo, DistinctIds;
    HealthyIsDistinct(s);
    if s.running == [] {
      NobodyEmitted(s, batch, draw, eosIds);
    } else {
      EmitAllExtends(s, batch, draw, eosIds, vocabulary, 0);
    }
    var e := EmitAll(s, batch, draw, eosIds);
    forall i | 0 <= i < |e.running| ensures FamiliarTo(e.running[i], vocabulary, context) {
      EmitAllExtends(s, batch, draw, eosIds, vocabulary, i);
      ExtendedFamiliar(s.running[i], e.running[i], Count(batch, s.running[i].id), vocabulary, context);
    }
  }

  lemma ExtendedFamiliar(q: Sequence, r: Sequence, most: nat, vocabulary: nat, context: nat)
    requires Extended(q, r, most, vocabulary) && FamiliarTo(q, vocabulary, context)
    ensures FamiliarTo(r, vocabulary, context)
  {
  }

  /** A round: nobody lags more, and the work shrinks. */
  lemma RoundStaysPoised(s: State, draw: Draw, eosIds: seq<TokenId>, m: Model, d: Dims, room: nat, ahead: nat)
    requires Poised(s, m, d, room, ahead) && s.cache.WellFormed()
    requires DrawsWithin(draw, |Schedule(s).scheduled|, |m.embed.rows|)
    ensures Poised(NextRound(s, draw, eosIds), m, d, room, ahead)
    ensures LagTotal(NextRound(s, draw, eosIds)) <= LagTotal(s) && Work(NextRound(s, draw, eosIds)) <= Work(s)
    ensures s.running + s.waiting != [] ==> Work(NextRound(s, draw, eosIds)) < Work(s)
  {
    hide Reserved, Supported, LagTotal, Familiar, NextRound, Work, Schedule;
    RoundMakesProgress(s, draw, eosIds, room, ahead);
    RoundLags(s, draw, eosIds, |m.embed.rows|, room, ahead);
    RoundStaysFamiliar(s, draw, eosIds, |m.embed.rows|, |m.cos|, room, ahead);
  }

  /** A rejected batch: no work is done, tables are one further ahead, and somebody lags less. */
  lemma RejectionStaysPoised(s: State, m: Model, d: Dims, room: nat, ahead: nat)
    requires Poised(s, m, d, room, ahead) && s.cache.WellFormed() && !AllPlaced(Schedule(s))
    ensures Poised(Schedule(s).s, m, d, room, ahead + 1)
    ensures LagTotal(Schedule(s).s) < LagTotal(s) && Work(Schedule(s).s) <= Work(s)
  {
    hide Supported, LagTotal, Familiar, Work, Schedule, PassFunded, Reserved, AllPlaced;
    PassLags(s, room, ahead);
    ScheduleFunded(s, room, ahead);
    ScheduleKeepsOrder(s);
    ScheduleKeepsPool(s, room, ahead);
    FamiliarPass(s, Schedule(s), m, room, ahead);
    RejectedStaysReserved(s, room, ahead);
  }

  lemma RejectedStaysReserved(s: State, room: nat, ahead: nat)
    requires Reserved(s, room, ahead) && s.cache.WellFormed() && ahead < room
    ensures Reserved(Schedule(s).s, room, ahead + 1)
  {
    hide Schedule, AllServable, ReservationsFit, Consistent, Order, NoDuplicates;
    ScheduleFunded(s, room, ahead);
    ScheduleWithinBudgets(s);
    ScheduleKeepsPool(s, room, ahead);
    ScheduleKeepsOrder(s);
    var p := Schedule(s);
    AllServableFits(p.s);
    FundedStates(p, room, ahead);
    forall i | 0 <= i < |p.s.running| ensures Backed(p.s, p.s.running[i]) <= p.s.running[i].TotalLen() + ahead + 1 {
      assert Granted(p, p.s.running[i], ahead);
    }
  }

  // ----- Steps -----

  predicate TokensWithin(rows: seq<Row>, vocabulary: nat) {
    forall i :: 0 <= i < |rows| && rows[i].token.Some? ==> rows[i].token.value < vocabulary
  }

  /** Nobody is late; the model runs the batch if it accepts it, every row is sampled and taken, and else the step fails. */
  predicate Judged(e: EngineState, input: StepInput, m: Model, d: Dims)
    requires e.s.cache.WellFormed() && d.blockSize > 0
  {
    var p := Schedule(e.s);
    && input.late == {}
    && match BuildBatch(p.s, p.scheduled)
       case None => true
       case Some(batch) =>
         if Runs(m, d, Flat(batch))
         then input.forward.Some? && Gives(input.forward.value, batch) && TokensWithin(input.forward.value, |m.embed.rows|)
         else input.forward == None
  }

  lemma DrawnWithin(draw: Draw, input: StepInput, n: nat, vocabulary: nat)
    requires DrawnFrom(draw, input) && vocabulary > 0 && input.forward.Some? && TokensWithin(input.forward.value, vocabulary)
    ensures DrawsWithin(draw, n, vocabulary)
  {
  }

  lemma NothingScheduledIsPlaced(p: Pass)
    requires p.scheduled == []
    ensures AllPlaced(p)
  {
  }

  /** A step the model rejects leaves the pass behind, and every caller as it was. */
  lemma RejectedStep(e: EngineState, input: StepInput)
    requires e.s.cache.WellFormed() && input.late == {} && input.forward == None && Schedule(e.s).scheduled != []
    ensures Stepped(e, input).0 == e.(s := Schedule(e.s).s)
  {
    hide Schedule, BuildBatch, ExpiredRequests, Expired;
    NobodyExpires(e, input.closed);
  }

  /** A step decided by the model. */
  lemma JudgedStep(e: EngineState, input: StepInput, m: Model, d: Dims, room: nat, ahead: nat) returns (next: nat)
    requires Protocol(e) && e.s.cache.WellFormed() && d.blockSize > 0
    requires Poised(e.s, m, d, room, ahead) && Judged(e, input, m, d)
    ensures var f := Stepped(e, input).0;
            && Poised(f.s, m, d, room, next)
            && Work(f.s) <= Work(e.s)
            && LagTotal(f.s) + (if AllPlaced(Schedule(e.s)) then 0 else 1) <= LagTotal(e.s)
            && (e.s.running + e.s.waiting != [] ==> Work(f.s) + LagTotal(f.s) < Work(e.s) + LagTotal(e.s))
            && forall id :: Kept(e, id) && id !in input.closed ==> Kept(f, id)
  {
    hide Protocol, Poised, Work, LagTotal, Stepped, Schedule, BuildBatch, Runs, NextRound, AllPlaced, Gives, Kept, Flat, Reserved,
      TokensWithin, DrawnFrom, DrawsWithin;
    AcceptedExactlyWhenPlaced(e.s, m, d, room, ahead);
    PoisedParts(e.s, m, d, room, ahead);
    var p := Schedule(e.s);
    if AllPlaced(p) {
      var draw := StepIsRound(e, input, room, ahead);
      DrawnWithin(draw, input, |p.scheduled|, |m.embed.rows|);
      RoundStaysPoised(e.s, draw, e.eosIds, m, d, room, ahead);
      next := ahead;
      forall id | Kept(e, id) && id !in input.closed ensures Kept(Stepped(e, input).0, id) {
        StepAnswers(e, input, id, room, ahead);
      }
    } else {
      if p.scheduled == [] {
        NothingScheduledIsPlaced(p);
      }
      RejectionStaysPoised(e.s, m, d, room, ahead);
      RejectedStep(e, input);
      next := ahead + 1;
      KeptCallers(e, p.s);
    }
  }

  lemma KeptCallers(e: EngineState, s: State)
    ensures forall id :: Kept(e, id) ==> Kept(e.(s := s), id)
  {
  }

  lemma PoisedParts(s: State, m: Model, d: Dims, room: nat, ahead: nat)
    requires Poised(s, m, d, room, ahead)
    ensures Reserved(s, room, ahead) && |m.embed.rows| > 0
  {
  }

  // ----- Runs -----

  ghost predicate JudgedRun(e: EngineState, calls: seq<Call>, m: Model, d: Dims)
    requires Protocol(e) && d.blockSize > 0
    decreases |calls|
  {
    if calls == [] then true
    else
      CallKeeps(e, calls[0]);
      calls[0].Step? && Judged(e, calls[0].input, m, d) && JudgedRun(Called(e, calls[0]), calls[1..], m, d)
  }

  lemma {:induction false} JudgedStepsDrain(e: EngineState, calls: seq<Call>, m: Model, d: Dims, room: nat, ahead: nat)
    requires Protocol(e) && d.blockSize > 0 && Poised(e.s, m, d, room, ahead) && JudgedRun(e, calls, m, d)
    requires |calls| >= Work(e.s) + LagTotal(e.s)
    ensures var f := RunEngine(e, calls); f.s.running == [] && f.s.waiting == []
    decreases |calls|
  {
    hide Serves, Poised, Reserved, Work, LagTotal, Stepped, Judged, Kept, Extends;
    PoisedParts(e.s, m, d, room, ahead);
    if e.s.running + e.s.waiting != [] {
      RequestsAreWork(e.s, room, ahead);
    } else {
      NoWork(e.s);
      NoLag(e.s);
    }
    if calls != [] {
      CallKeeps(e, calls[0]);
      var next := JudgedStep(e, calls[0].input, m, d, room, ahead);
      JudgedStepsDrain(Called(e, calls[0]), calls[1..], m, d, room, next);
    }
  }

  lemma NoLag(s: State)
    requires s.running + s.waiting == []
    ensures LagTotal(s) == 0
  {
  }

  lemma {:induction false} JudgedStepsAnswer(e: EngineState, calls: seq<Call>, id: SequenceId, m: Model, d: Dims, room: nat, ahead: nat)
    requires Protocol(e) && d.blockSize > 0 && Poised(e.s, m, d, room, ahead) && JudgedRun(e, calls, m, d)
    requires Kept(e, id) && KeepsOpen(calls, id)
    ensures Kept(RunEngine(e, calls), id)
    decreases |calls|
  {
    hide Serves, Poised, Work, LagTotal, Stepped, Judged, Kept, Extends;
    if calls != [] {
      CallKeeps(e, calls[0]);
      assert id !in calls[0].input.closed;
      var next := JudgedStep(e, calls[0].input, m, d, room, ahead);
      JudgedStepsAnswer(Called(e, calls[0]), calls[1..], id, m, d, room, next);
    }
  }

  /**
   * Every caller is answered by the model as it is, though it rejects the batch of every step
   * in which a decode falls outside its table: in addition to a step for each prompt and
   * output token, as many steps as the tables lag behind their sequences are enough, one for
   * each new request. The reservations need room for that many tokens besides.
   */
  lemma TheModelAnswersEveryCaller(e: EngineState, calls: seq<Call>, m: Model, d: Dims, room: nat, ahead: nat)
    requires Protocol(e) && d.blockSize > 0 && Poised(e.s, m, d, room, ahead) && JudgedRun(e, calls, m, d)
    requires |calls| >= TokenTotal(e.s.running) + TokenTotal(e.s.waiting) + LagTotal(e.s)
    ensures var f := RunEngine(e, calls);
            && f.s.running == [] && f.s.waiting == [] && f.active == map[]
            && forall id :: id in e.active && KeepsOpen(calls, id) ==> id in f.clients && Answered(f.clients[id])
  {
    hide Poised, Protocol, JudgedRun, RunEngine, Extends, Answered, LagTotal;
    WorkAtMostTokens(e.s.running);
    WorkAtMostTokens(e.s.waiting);
    JudgedStepsDrain(e, calls, m, d, room, ahead);
    var f := RunEngine(e, calls);
    IdleHasNoActive(f);
    forall id | id in e.active && KeepsOpen(calls, id) ensures id in f.clients && Answered(f.clients[id]) {
      ActiveHasClient(e, id);
      JudgedStepsAnswer(e, calls, id, m, d, room, ahead);
    }
  }

  /** Among requests that have generated nothing and wait, each lags by one. */
  lemma {:induction false} NewRequestsLagByOne(s: State, list: seq<Sequence>)
    requires forall i :: 0 <= i < |list| ==> list[i].state.Waiting? && list[i].output == []
    ensures LagSum(s, list) == |list|
  {
    if list != [] {
      NewRequestsLagByOne(s, list[..|list| - 1]);
    }
  }

  // ----- Rejected steps -----

  /** The steps of a run that the model rejects. */
  ghost function Rejections(e: EngineState, calls: seq<Call>, m: Model, d: Dims): nat
    requires Protocol(e) && d.blockSize > 0
    decreases |calls|
  {
    if calls == [] then 0
    else
      CallKeeps(e, calls[0]);
      (if AllPlaced(Schedule(e.s)) then 0 else 1) + Rejections(Called(e, calls[0]), calls[1..], m, d)
  }

  /** At most as many steps are rejected as the tables lag behind at the start. */
  lemma {:induction false} FewStepsAreRejected(e: EngineState, calls: seq<Call>, m: Model, d: Dims, room: nat, ahead: nat)
    requires Protocol(e) && d.blockSize > 0 && Poised(e.s, m, d, room, ahead) && JudgedRun(e, calls, m, d)
    ensures Rejections(e, calls, m, d) <= LagTotal(e.s)
    decreases |calls|
  {
    hide Serves, Poised, LagTotal, Stepped, Judged, Kept, Extends, Work, AllPlaced;
    if calls != [] {
      CallKeeps(e, calls[0]);
      var next := JudgedStep(e, calls[0].input, m, d, room, ahead);
      FewStepsAreRejected(Called(e, calls[0]), calls[1..], m, d, room, next);
    }
  }
}
