// The engine serves requests in the order of their ids, and its prefill chunks tile.
module EngineOrder {
  import opened Prelude
  import opened Sequences
  import opened Scheduling
  import opened SchedulerInvariant
  import opened SchedulerRuns
  import opened ArrivalOrder
  import opened ChunkTiling
  import opened EngineSteps
  import opened StreamProtocol
  import opened EngineRuns

  predicate Ascending(ids: seq<SequenceId>) {
    forall i, j :: 0 <= i < j < |ids| ==> ids[i] < ids[j]
  }

  // ----- Only submissions admit anyone -----

  ghost predicate NoAdds(ops: seq<Op>) {
    forall k :: 0 <= k < |ops| ==> !ops[k].OpAdd?
  }

  lemma {:induction false} RowsAddNobody(e: EngineState, rows: seq<Row>, closed: set<SequenceId>)
    ensures NoAdds(RowsOps(e, rows, closed))
    decreases |rows|
  {
    hide EmittedRow;
    if rows != [] {
      var (next, ok) := EmittedRow(e, rows[0], closed);
      RowsAddNobody(next, rows[1..], closed);
    }
  }

  lemma {:induction false} CommitsAddNobody(batch: seq<Scheduled>)
    ensures NoAdds(CommitOps(batch))
    decreases |batch|
  {
    if batch != [] {
      CommitsAddNobody(batch[1..]);
    }
  }

  lemma StepAddsNobody(e: EngineState, input: StepInput)
    requires e.s.cache.WellFormed()
    ensures NoAdds(InputOps(e, input))
  {
    hide ExpiredRequests, Schedule, BuildBatch, EmittedRows, RowsOps, CommitOps;
    ExpiredRequestsKeepCache(e, input.late, input.closed);
    var expired := ExpiredRequests(e, input.late, input.closed);
    var p := Schedule(expired.s);
    CommitsAddNobody(p.scheduled);
    if input.forward.Some? {
      RowsAddNobody(expired.(s := p.s), input.forward.value, input.closed);
    }
  }

  lemma {:induction false} NobodyArrives(v: Life, ops: seq<Op>)
    requires v.s.cache.WellFormed() && NoAdds(ops)
    ensures Arrivals(v, ops) == []
    decreases |ops|
  {
    hide StepLife;
    if ops != [] {
      StepLifeWellFormed(v, ops[0]);
      NobodyArrives(StepLife(v, ops[0]), ops[1..]);
    }
  }

  lemma {:induction false} ArrivalsConcat(v: Life, a: seq<Op>, b: seq<Op>)
    requires v.s.cache.WellFormed()
    ensures Arrivals(v, a + b) == Arrivals(v, a) + Arrivals(RunLife(v, a), b)
    decreases |a|
  {
    hide StepLife, ComeIn;
    if a == [] {
      assert a + b == b;
    } else {
      StepLifeWellFormed(v, a[0]);
      ArrivalsConcat(StepLife(v, a[0]), a[1..], b);
      assert (a + b)[1..] == a[1..] + b;
    }
  }

  /** Whom a call admits: at most one request, under the next id, which is then used up. */
  lemma CallArrivals(v: Life, e: EngineState, call: Call)
    requires Protocol(e) && v.s.cache.WellFormed() && e.s.cache.WellFormed()
    ensures Arrivals(v, CallOps(e, call)) == []
            || (Arrivals(v, CallOps(e, call)) == [e.nextId] && Called(e, call).nextId > e.nextId)
  {
    hide AddCheck, InputOps, Stepped, CancelledRequest, Serves, StepLife;
    match call
    case Submit(prompt, params) =>
      if ValidParams(params) {
        var op := OpAdd(NewSequence(e.nextId, prompt, params));
        StepLifeWellFormed(v, op);
        assert Arrivals(StepLife(v, op), []) == [];
      }
    case Cancel(id, closed) => NobodyArrives(v, CallOps(e, call));
    case Step(input) =>
      StepAddsNobody(e, input);
      NobodyArrives(v, CallOps(e, call));
  }

  lemma {:induction false} EngineArrivals(v: Life, e: EngineState, calls: seq<Call>)
    requires Protocol(e) && Tracks(v, e) && v.s.cache.WellFormed()
    ensures Ascending(Arrivals(v, EngineOps(e, calls)))
    ensures forall x :: x in Arrivals(v, EngineOps(e, calls)) ==> x >= e.nextId
    decreases |calls|
  {
    hide Serves, Tracks, RunLife, CallOps, Called, Arrivals, Extends;
    if calls == [] {
      NobodyArrives(v, []);
    } else {
      CallKeeps(e, calls[0]);
      TracksIsWellFormed(v, e);
      CallFollows(v, e, calls[0]);
      CallArrivals(v, e, calls[0]);
      var first, u, next := CallOps(e, calls[0]), RunLife(v, CallOps(e, calls[0])), Called(e, calls[0]);
      EngineArrivals(u, next, calls[1..]);
      ArrivalsConcat(v, first, EngineOps(next, calls[1..]));
      NextIdGrows(e, next);
      LaterAscend(Arrivals(v, first), Arrivals(u, EngineOps(next, calls[1..])), e.nextId, next.nextId);
    }
  }

  lemma NextIdGrows(e: EngineState, f: EngineState)
    requires Extends(e, f)
    ensures e.nextId <= f.nextId
  {
  }

  lemma LaterAscend(first: seq<SequenceId>, later: seq<SequenceId>, now: nat, next: nat)
    requires first == [] || (first == [now] && next > now)
    requires Ascending(later) && now <= next && forall x :: x in later ==> x >= next
    ensures Ascending(first + later) && forall x :: x in first + later ==> x >= now
  {
    assert forall i :: |first| <= i < |first + later| ==> (first + later)[i] == later[i - |first|] && later[i - |first|] in later;
  }

  lemma AscendingWithout(ids: seq<SequenceId>, gone: set<SequenceId>)
    requires Ascending(ids)
    ensures Ascending(Without(ids, gone))
  {
    hide Without;
    forall i, j | 0 <= i < j < |Without(ids, gone)| ensures Without(ids, gone)[i] < Without(ids, gone)[j] {
      WithoutKeepsOrder(ids, gone, i, j);
    }
  }

  /**
   * Over every run of the engine, whatever times out, fails, is evicted or cancelled: running
   * followed by waiting is in the order of the ids, which are given out in order of
   * submission, and at most the configured number run.
   */
  lemma EngineServesInOrder(config: Config, numBlocks: nat, blockSize: nat, prefixCaching: bool, eosIds: seq<TokenId>,
                            calls: seq<Call>)
    requires blockSize > 0
    ensures var s := EngineAfter(config, numBlocks, blockSize, prefixCaching, eosIds, calls).s;
            && Ascending(Ids(s.running) + Ids(s.waiting)) && |s.running| <= config.maxNumSeqs
  {
    hide EngineAfter, EngineOps, Arrivals, Departures, Without, Serves, After;
    var ops, v := FreshOps(config, numBlocks, blockSize, prefixCaching, eosIds, calls),
                  NewLife(config, numBlocks, blockSize, prefixCaching);
    EngineRunsTheScheduler(config, numBlocks, blockSize, prefixCaching, eosIds, calls);
    ArrivalOrderIsKept(config, numBlocks, blockSize, prefixCaching, ops);
    FreshEngineServes(config, numBlocks, blockSize, prefixCaching, eosIds);
    EngineArrivals(v, FreshEngine(config, numBlocks, blockSize, prefixCaching, eosIds), calls);
    AscendingWithout(Arrivals(v, ops), Departures(v, ops));
  }

  // ----- The prefill chunks of the engine -----

  lemma ConcatUnbegun(a: seq<Op>, b: seq<Op>)
    requires ArriveUnbegun(a) && ArriveUnbegun(b)
    ensures ArriveUnbegun(a + b)
  {
  }

  lemma CallUnbegun(e: EngineState, call: Call)
    requires e.s.cache.WellFormed()
    ensures ArriveUnbegun(CallOps(e, call))
  {
    hide InputOps;
    if call.Step? {
      StepAddsNobody(e, call.input);
    }
  }

  lemma {:induction false} EngineUnbegun(e: EngineState, calls: seq<Call>)
    requires Protocol(e)
    ensures ArriveUnbegun(EngineOps(e, calls))
    decreases |calls|
  {
    hide Serves, CallOps, Called, ArriveUnbegun, Extends;
    if calls == [] {
      NothingUnbegun();
    } else {
      CallKeeps(e, calls[0]);
      CallUnbegun(e, calls[0]);
      EngineUnbegun(Called(e, calls[0]), calls[1..]);
      ConcatUnbegun(CallOps(e, calls[0]), EngineOps(Called(e, calls[0]), calls[1..]));
    }
  }

  lemma NothingUnbegun()
    ensures ArriveUnbegun([])
  {
  }

  /** All batch entries of a run of the engine. */
  ghost function EngineBatches(config: Config, numBlocks: nat, blockSize: nat, prefixCaching: bool, eosIds: seq<TokenId>,
                               calls: seq<Call>): seq<Scheduled>
    requires blockSize > 0
  {
    NewLifeIsEmpty(config, numBlocks, blockSize, prefixCaching);
    Batches(NewLife(config, numBlocks, blockSize, prefixCaching),
            FreshOps(config, numBlocks, blockSize, prefixCaching, eosIds, calls))
  }

  /** The chunks of each running sequence of the engine tile its progress, through every early exit of a step. */
  lemma EngineChunksTile(config: Config, numBlocks: nat, blockSize: nat, prefixCaching: bool, eosIds: seq<TokenId>,
                         calls: seq<Call>)
    requires blockSize > 0
    ensures var log := EngineBatches(config, numBlocks, blockSize, prefixCaching, eosIds, calls);
            var s := EngineAfter(config, numBlocks, blockSize, prefixCaching, eosIds, calls).s;
            && Contiguous(log)
            && forall i :: 0 <= i < |s.running| ==> Coverage(log, s.running[i].id) == s.running[i].computed
  {
    hide EngineAfter, EngineOps, Batches, Serves, After, Contiguous, Coverage, ArriveUnbegun;
    FreshEngineServes(config, numBlocks, blockSize, prefixCaching, eosIds);
    EngineUnbegun(FreshEngine(config, numBlocks, blockSize, prefixCaching, eosIds), calls);
    EngineRunsTheScheduler(config, numBlocks, blockSize, prefixCaching, eosIds, calls);
    ChunksTile(config, numBlocks, blockSize, prefixCaching,
               FreshOps(config, numBlocks, blockSize, prefixCaching, eosIds, calls));
  }
}
