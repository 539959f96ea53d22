// Every engine run is a scheduler run: what holds over scheduler runs holds under the engine.
module EngineRuns {
  import opened Prelude
  import opened KvConservation
  import opened Sequences
  import opened Scheduling
  import opened SchedulerInvariant
  import opened EngineSteps
  import opened StreamProtocol
  import opened SchedulerRuns
  import opened SchedulerCacheRuns
  import P = PrefixSoundness

  // ----- The scheduler operations of each engine call -----

  /** A sampled token is appended; if its caller is gone the request is cancelled. */
  function RowOps(e: EngineState, row: Row): seq<Op> {
    var pos := Position(e.s.running, row.id);
    if pos == |e.s.running| || !e.s.running[pos].PrefillComplete() || !row.hasLogits || row.id !in e.active || row.token.None?
    then []
    else [OpToken(row.id, row.token.value, e.eosIds)] + if row.taken then [] else [OpCancel(row.id)]
  }

  function RowsOps(e: EngineState, rows: seq<Row>, closed: set<SequenceId>): seq<Op>
    decreases |rows|
  {
    if rows == [] then []
    else
      var (next, ok) := EmittedRow(e, rows[0], closed);
      RowOps(e, rows[0]) + if ok then RowsOps(next, rows[1..], closed) else []
  }

  function CommitOps(batch: seq<Scheduled>): seq<Op>
    decreases |batch|
  {
    if batch == [] then []
    else (if batch[0].isPrefill then [Op.OpCommit(batch[0].id)] else []) + CommitOps(batch[1..])
  }

  function ConcludeOps(e: EngineState, scheduled: seq<Scheduled>, rows: seq<Row>, closed: set<SequenceId>): seq<Op> {
    RowsOps(e, rows, closed) + if EmittedRows(e, rows, closed).1 then CommitOps(scheduled) + [OpReap] else []
  }

  /** A step expires, schedules, and then emits, publishes and reaps as far as it gets. */
  function InputOps(e: EngineState, input: StepInput): seq<Op>
    requires e.s.cache.WellFormed()
  {
    ExpiredRequestsKeepCache(e, input.late, input.closed);
    var expired := ExpiredRequests(e, input.late, input.closed);
    var p := Schedule(expired.s);
    [OpExpire(input.late), OpSchedule]
    + if p.scheduled == [] then [OpReap]
      else if BuildBatch(p.s, p.scheduled) == None || input.forward == None then []
      else ConcludeOps(expired.(s := p.s), p.scheduled, input.forward.value, input.closed)
  }

  function CallOps(e: EngineState, call: Call): seq<Op>
    requires e.s.cache.WellFormed()
  {
    match call
    case Submit(prompt, params) => if ValidParams(params) then [OpAdd(NewSequence(e.nextId, prompt, params))] else []
    case Cancel(id, closed) => [OpCancel(id)]
    case Step(input) => InputOps(e, input)
  }

  // ----- Each call follows its operations -----

  lemma RowFollows(v: Life, e: EngineState, row: Row, closed: set<SequenceId>)
    requires v.s == e.s && e.s.cache.WellFormed()
    ensures EmittedRow(e, row, closed).0.s.cache.WellFormed()
    ensures RunLife(v, RowOps(e, row)) == v.(s := EmittedRow(e, row, closed).0.s)
  {
    hide Position, CancelledState, WithToken, FinishedRequest, RunLife, Tokened;
    EmittedRowWellFormed(e, row, closed);
    assert RunLife(v, []) == v by { RunLifeNothing(v); }
    if RowOps(e, row) != [] {
      var token := OpToken(row.id, row.token.value, e.eosIds);
      RunLifeOne(v, token);
      RunLifeTwo(v, token, OpCancel(row.id));
      FinishingKeepsState(e, row, closed);
      assert [token] + [] == [token];
      assert [token] + [OpCancel(row.id)] == [token, OpCancel(row.id)];
    }
  }

  /** Telling the caller does not touch the scheduler. */
  lemma FinishingKeepsState(e: EngineState, row: Row, closed: set<SequenceId>)
    ensures forall f: EngineState, reason {:trigger FinishedRequest(f, row.id, reason, closed)} ::
              FinishedRequest(f, row.id, reason, closed).s == f.s
  {
  }

  lemma {:induction false} RowsFollow(v: Life, e: EngineState, rows: seq<Row>, closed: set<SequenceId>)
    requires v.s == e.s && e.s.cache.WellFormed()
    ensures RunLife(v, RowsOps(e, rows, closed)) == v.(s := EmittedRows(e, rows, closed).0.s)
    decreases |rows|
  {
    hide EmittedRow, RowOps, RunLife;
    if rows == [] {
      RunLifeNothing(v);
    } else {
      RowFollows(v, e, rows[0], closed);
      var (next, ok) := EmittedRow(e, rows[0], closed);
      var first := RowOps(e, rows[0]);
      if ok {
        RowsFollow(v.(s := next.s), next, rows[1..], closed);
        RunLifeConcat(v, first, RowsOps(next, rows[1..], closed));
      } else {
        assert first + [] == first;
      }
    }
  }

  lemma {:induction false} CommitsFollow(v: Life, batch: seq<Scheduled>)
    requires v.s.cache.WellFormed()
    ensures RunLife(v, CommitOps(batch)) == v.(s := CommitAll(v.s, batch))
    decreases |batch|
  {
    hide CommittedState, RunLife;
    if batch == [] {
      RunLifeNothing(v);
    } else {
      CommittedStateWellFormed(v.s, batch[0].id);
      RunLifeOne(v, Op.OpCommit(batch[0].id));
      RunLifeNothing(v);
      var next := if batch[0].isPrefill then CommittedState(v.s, batch[0].id) else v.s;
      var first := if batch[0].isPrefill then [Op.OpCommit(batch[0].id)] else [];
      CommitsFollow(v.(s := next), batch[1..]);
      RunLifeConcat(v, first, CommitOps(batch[1..]));
    }
  }

  lemma ReapRequestsFollows(v: Life, e: EngineState, closed: set<SequenceId>)
    requires v.s == e.s && e.s.cache.WellFormed()
    ensures RunLife(v, [OpReap]) == v.(s := ReapedRequests(e, closed).s)
  {
    hide Reaped, RunLife;
    RunLifeOne(v, OpReap);
    var (s, finished) := Reaped(e.s);
    NotifiedAllKeepState(e.(s := s), finished, closed);
  }

  lemma ConcludeFollows(v: Life, e: EngineState, scheduled: seq<Scheduled>, rows: seq<Row>, closed: set<SequenceId>)
    requires v.s == e.s && e.s.cache.WellFormed()
    ensures RunLife(v, ConcludeOps(e, scheduled, rows, closed)) == v.(s := Concluded(e, scheduled, rows, closed).0.s)
  {
    hide EmittedRows, RowsOps, CommitAll, CommitOps, ReapedRequests, RunLife;
    RowsFollow(v, e, rows, closed);
    EmittedRowsWellFormed(e, rows, closed);
    var (emitted, ok) := EmittedRows(e, rows, closed);
    var first := RowsOps(e, rows, closed);
    if ok {
      var u := v.(s := emitted.s);
      var published := emitted.(s := CommitAll(emitted.s, scheduled));
      CommitsFollow(u, scheduled);
      CommitAllWellFormed(emitted.s, scheduled);
      ReapRequestsFollows(u.(s := published.s), published, closed);
      RunLifeConcat(v, first, CommitOps(scheduled) + [OpReap]);
      RunLifeConcat(u, CommitOps(scheduled), [OpReap]);
    } else {
      assert first + [] == first;
    }
  }

  lemma {:induction false} CommitAllWellFormed(s: State, batch: seq<Scheduled>)
    requires s.cache.WellFormed()
    ensures CommitAll(s, batch).cache.WellFormed()
    decreases |batch|
  {
    hide CommittedState;
    if batch != [] {
      CommittedStateWellFormed(s, batch[0].id);
      CommitAllWellFormed(if batch[0].isPrefill then CommittedState(s, batch[0].id) else s, batch[1..]);
    }
  }

  lemma InputFollows(v: Life, e: EngineState, input: StepInput)
    requires v.s == e.s && e.s.cache.WellFormed()
    ensures RunLife(v, InputOps(e, input)) == v.(s := Stepped(e, input).0.s)
  {
    hide ExpiredRequests, Expired, Schedule, BuildBatch, ReapedRequests, Concluded, ConcludeOps, RunLife;
    ExpiredRequestsKeepCache(e, input.late, input.closed);
    var expired := ExpiredRequests(e, input.late, input.closed);
    var p := Schedule(expired.s);
    RunLifeTwo(v, OpExpire(input.late), OpSchedule);
    var start, u, scheduled := [OpExpire(input.late), OpSchedule], v.(s := p.s), expired.(s := p.s);
    assert RunLife(v, start) == u;
    if p.scheduled == [] {
      ReapRequestsFollows(u, scheduled, input.closed);
      RunLifeConcat(v, start, [OpReap]);
    } else if BuildBatch(p.s, p.scheduled) == None || input.forward == None {
      assert start + [] == start;
    } else {
      var ops := ConcludeOps(scheduled, p.scheduled, input.forward.value, input.closed);
      ConcludeFollows(u, scheduled, p.scheduled, input.forward.value, input.closed);
      RunLifeConcat(v, start, ops);
    }
  }

  // ----- Runs -----

  /** The engine's next id has never been given out. */
  ghost predicate Tracks(v: Life, e: EngineState) {
    v.s == e.s && forall x :: x in v.seen ==> x < e.nextId
  }

  lemma CallFollows(v: Life, e: EngineState, call: Call)
    requires Protocol(e) && Tracks(v, e) && e.s.cache.WellFormed()
    ensures Tracks(RunLife(v, CallOps(e, call)), Called(e, call))
  {
    hide RunLife, Stepped, InputOps, CancelledState, AddCheck, Serves;
    RunLifeNothing(v);
    CallKeeps(e, call);
    match call
    case Submit(prompt, params) =>
      if ValidParams(params) {
        RunLifeOne(v, OpAdd(NewSequence(e.nextId, prompt, params)));
      }
    case Cancel(id, closed) =>
      RunLifeOne(v, OpCancel(id));
      UnknownIsNotCancelled(e.s, id);
    case Step(input) => InputFollows(v, e, input);
  }

  lemma UnknownIsNotCancelled(s: State, id: SequenceId)
    ensures !CancelledState(s, id).1 ==> CancelledState(s, id).0 == s
  {
  }

  lemma {:induction false} RunEnginePush(e: EngineState, calls: seq<Call>, call: Call)
    requires Protocol(e)
    ensures RunEngine(e, calls + [call]) == Called(RunEngine(e, calls), call)
    decreases |calls|
  {
    hide Serves, Called, Extends;
    if calls == [] {
      CallKeeps(e, call);
      assert [] + [call] == [call] && [call][1..] == [];
      assert RunEngine(Called(e, call), []) == Called(e, call);
    } else {
      CallKeeps(e, calls[0]);
      RunEnginePush(Called(e, calls[0]), calls[1..], call);
      assert (calls + [call])[1..] == calls[1..] + [call];
    }
  }

  /** The scheduler operations of an engine run. */
  ghost function EngineOps(e: EngineState, calls: seq<Call>): seq<Op>
    requires Protocol(e)
    decreases |calls|
  {
    if calls == [] then []
    else
      CallKeeps(e, calls[0]);
      CallOps(e, calls[0]) + EngineOps(Called(e, calls[0]), calls[1..])
  }

  lemma {:induction false} EngineFollows(v: Life, e: EngineState, calls: seq<Call>)
    requires Protocol(e) && Tracks(v, e) && v.s.cache.WellFormed()
    ensures Tracks(RunLife(v, EngineOps(e, calls)), RunEngine(e, calls))
    decreases |calls|
  {
    hide Serves, Tracks, RunLife, CallOps, Called;
    if calls == [] {
      RunLifeNothing(v);
    } else {
      CallKeeps(e, calls[0]);
      TracksIsWellFormed(v, e);
      CallFollows(v, e, calls[0]);
      var u := RunLife(v, CallOps(e, calls[0]));
      EngineFollows(u, Called(e, calls[0]), calls[1..]);
      RunLifeConcat(v, CallOps(e, calls[0]), EngineOps(Called(e, calls[0]), calls[1..]));
    }
  }

  lemma TracksIsWellFormed(v: Life, e: EngineState)
    requires Tracks(v, e) && v.s.cache.WellFormed()
    ensures e.s.cache.WellFormed()
  {
  }

  /** The operations of a run of calls on a fresh engine. */
  ghost function FreshOps(config: Config, numBlocks: nat, blockSize: nat, prefixCaching: bool, eosIds: seq<TokenId>,
                          calls: seq<Call>): seq<Op>
    requires blockSize > 0
  {
    FreshEngineServes(config, numBlocks, blockSize, prefixCaching, eosIds);
    EngineOps(FreshEngine(config, numBlocks, blockSize, prefixCaching, eosIds), calls)
  }

  /** A fresh engine after a run of calls. */
  ghost function EngineAfter(config: Config, numBlocks: nat, blockSize: nat, prefixCaching: bool, eosIds: seq<TokenId>,
                             calls: seq<Call>): (e: EngineState)
    requires blockSize > 0
    ensures Protocol(e) && Arises(e)
  {
    FreshEngineServes(config, numBlocks, blockSize, prefixCaching, eosIds);
    RunEngine(FreshEngine(config, numBlocks, blockSize, prefixCaching, eosIds), calls)
  }

  /**
   * Whatever requests, cancellations, timeouts, forward results, sampling failures and lost
   * callers a run of the engine meets, its scheduler is the scheduler after the run of
   * operations that the calls stand for.
   */
  lemma EngineRunsTheScheduler(config: Config, numBlocks: nat, blockSize: nat, prefixCaching: bool, eosIds: seq<TokenId>,
                               calls: seq<Call>)
    requires blockSize > 0
    ensures EngineAfter(config, numBlocks, blockSize, prefixCaching, eosIds, calls).s
            == After(config, numBlocks, blockSize, prefixCaching,
                     FreshOps(config, numBlocks, blockSize, prefixCaching, eosIds, calls))
  {
    hide RunLife, RunEngine, EngineOps, Serves;
    NewLifeAgrees(config, numBlocks, blockSize, prefixCaching);
    FreshEngineServes(config, numBlocks, blockSize, prefixCaching, eosIds);
    EngineFollows(NewLife(config, numBlocks, blockSize, prefixCaching),
                  FreshEngine(config, numBlocks, blockSize, prefixCaching, eosIds), calls);
  }

  /** Over every engine run: counts are exact, only running sequences hold blocks, and none leaks. */
  lemma EngineLeaksNoBlocks(config: Config, numBlocks: nat, blockSize: nat, prefixCaching: bool, eosIds: seq<TokenId>,
                            calls: seq<Call>)
    requires blockSize > 0
    ensures var s := EngineAfter(config, numBlocks, blockSize, prefixCaching, eosIds, calls).s;
            && Consistent(s.cache) && s.cache.tables.Keys <= IdSet(s.running)
            && (s.running == [] ==> |s.cache.pool.freeList| == |s.cache.pool.blocks|)
  {
    hide Consistent, EngineAfter, After, FreshOps;
    EngineRunsTheScheduler(config, numBlocks, blockSize, prefixCaching, eosIds, calls);
    OnlyRunningHoldBlocks(config, numBlocks, blockSize, prefixCaching,
                          FreshOps(config, numBlocks, blockSize, prefixCaching, eosIds, calls));
  }

  /** Prefix-cache soundness for the whole engine: in any state it reaches, a prompt adopts only its own history. */
  lemma EngineAdoptsOwnHistory(config: Config, numBlocks: nat, blockSize: nat, prefixCaching: bool, eosIds: seq<TokenId>,
                               calls: seq<Call>, s: SequenceId, prompt: seq<TokenId>)
    requires blockSize > 0
    requires var ops := FreshOps(config, numBlocks, blockSize, prefixCaching, eosIds, calls);
             P.Unambiguous(P.Prompts(CacheRun(config, numBlocks, blockSize, prefixCaching, ops)) + {prompt}, blockSize)
    ensures var ops := FreshOps(config, numBlocks, blockSize, prefixCaching, eosIds, calls);
            var h := P.StateAfter(numBlocks, blockSize, prefixCaching, CacheRun(config, numBlocks, blockSize, prefixCaching, ops));
            && h.m == EngineAfter(config, numBlocks, blockSize, prefixCaching, eosIds, calls).s.cache
            && P.AdoptsOwnHistory(h, s, prompt)
  {
    hide P.Tracked, P.Unambiguous, P.AdoptsOwnHistory, CacheRun, P.StateAfter, After, EngineAfter, FreshOps;
    EngineRunsTheScheduler(config, numBlocks, blockSize, prefixCaching, eosIds, calls);
    SchedulerAdoptsOwnHistory(config, numBlocks, blockSize, prefixCaching,
                              FreshOps(config, numBlocks, blockSize, prefixCaching, eosIds, calls), s, prompt);
  }
}
