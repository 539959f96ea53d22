// The counts in the last events of cancelled and timed-out requests.
module LastEvents {
  import opened Prelude
  import opened Arithmetic
  import opened KvCache
  import opened KvConservation
  import opened Sequences
  import opened Scheduling
  import opened SchedulerOrder
  import opened EngineSteps
  import opened StreamProtocol
  import opened EngineRuns
  import opened SmallPasses
  import NoStall
  import DecodePlacement
  import FinishedRunning

  // ----- What the last event says -----

  predicate Runs(e: EngineState, id: SequenceId) {
    Position(e.s.running, id) < |e.s.running|
  }

  /** An active request has received exactly the output of its one sequence, which is not finished. */
  lemma ActiveHasReceived(e: EngineState, id: SequenceId) returns (q: Sequence)
    requires Protocol(e) && id in e.active
    ensures q in Order(e.s) && q.id == id && id in e.clients && e.active[id] == |q.prompt|
    ensures |e.clients[id].received| == |q.output|
  {
    hide Order, NoDuplicates, Good, Unstopped;
    assert Live(Order(e.s), id);
    q :| q in Order(e.s) && q.id == id && !q.state.Finished?;
    assert Known(e, q);
  }

  lemma ExpiredOutputIsExact(s: State, late: set<SequenceId>, q: Sequence)
    requires NoDuplicates(Ids(Order(s))) && q in Order(s)
    ensures OutputLen(Expired(s, late).0, q.id) == if Position(s.running, q.id) < |s.running| then |q.output| else 0
  {
    hide Selected, Rejected, Order, FinishIn, NoDuplicates;
    var t := Expired(s, late).0;
    FinishInMembers(s.running, late);
    SamePosition(s.running, t.running, q.id);
    var pos := Position(s.running, q.id);
    if pos < |s.running| {
      MembersOfOrder(s);
      UniqueById(Order(s), q, Core(s.running[pos]));
    }
  }

  /** The step goes on from its expiry without touching the requests it let go. */
  lemma StepExtendsExpiry(e: EngineState, input: StepInput)
    requires Protocol(e) && e.s.cache.WellFormed()
    ensures Extends(ExpiredRequests(e, input.late, input.closed), Stepped(e, input).0)
  {
    hide Serves, Extends, ExpiredRequests, Schedule, BuildBatch, ReapedRequests, Concluded;
    ExpireKeeps(e, input.late, input.closed);
    var expired := ExpiredRequests(e, input.late, input.closed);
    var p := Schedule(expired.s);
    ScheduleKeepsOrder(expired.s);
    SameOrderServes(expired, p.s);
    var scheduled := expired.(s := p.s);
    if p.scheduled == [] {
      ReapKeeps(scheduled, input.closed);
      ExtendsTransitive(expired, scheduled, ReapedRequests(scheduled, input.closed));
    } else if BuildBatch(p.s, p.scheduled) != None && input.forward != None {
      ConcludeKeeps(scheduled, p.scheduled, input.forward.value, input.closed);
      ExtendsTransitive(expired, scheduled, Concluded(scheduled, p.scheduled, input.forward.value, input.closed).0);
    }
  }

  ghost predicate EndsWith(before: Client, after: Client, last: Event) {
    after.received == before.received + [last]
  }

  lemma ExpiryEnds(e: EngineState, id: SequenceId, late: set<SequenceId>, closed: set<SequenceId>)
    requires Protocol(e) && id in e.active && id in late && id !in closed
    ensures var f := ExpiredRequests(e, late, closed);
            && id in e.clients && id in f.clients && id !in f.active
            && EndsWith(e.clients[id], f.clients[id],
                        Event.Done(Timeout, e.active[id], if Runs(e, id) then |e.clients[id].received| else 0))
  {
    hide Expired, Order, NoDuplicates, OutputLen, Serves;
    var q := ActiveHasReceived(e, id);
    var (s, ids) := Expired(e.s, late);
    ProtocolIsDistinct(e);
    ExpiredIds(e.s, late);
    InIds(Order(e.s), q);
    ExpiredOutputIsExact(e.s, late, q);
    FinishedAllEffect(e.(s := s), ids, Timeout, closed);
  }

  lemma ProtocolIsDistinct(e: EngineState)
    requires Protocol(e)
    ensures NoDuplicates(Ids(Order(e.s)))
  {
  }

  /**
   * A request that times out: its stream ends in the step with a Timeout event, whose count
   * is the number of tokens sent if and only if the request was running or none was sent.
   */
  lemma TimeoutCountIsExactIff(e: EngineState, id: SequenceId, input: StepInput)
    requires Protocol(e) && id in e.active && id in input.late && id !in input.closed
    ensures id in e.clients && e.s.cache.WellFormed()
    ensures var f, sent := Stepped(e, input).0, |e.clients[id].received|;
            var count := if Runs(e, id) then sent else 0;
            && id in f.clients && EndsWith(e.clients[id], f.clients[id], Event.Done(Timeout, e.active[id], count))
            && (count == sent <==> Runs(e, id) || sent == 0)
  {
    hide Serves, Stepped, ExpiredRequests;
    ExpiryEnds(e, id, input.late, input.closed);
    StepExtendsExpiry(e, input);
  }

  /**
   * A request that is cancelled: its stream ends with a Cancelled event that counts zero, so
   * the count is the number of tokens sent if and only if none was sent, running or not.
   */
  lemma CancelCountIsExactIff(e: EngineState, id: SequenceId, closed: set<SequenceId>)
    requires Protocol(e) && id in e.active && id !in closed
    ensures id in e.clients
    ensures var f, last := CancelledRequest(e, id, closed), Event.Done(Cancelled, e.active[id], 0);
            && id in f.clients && EndsWith(e.clients[id], f.clients[id], last)
            && (last.completionTokens == |e.clients[id].received| <==> e.clients[id].received == [])
  {
    hide Serves, Freed;
    var q := ActiveHasReceived(e, id);
    LiveIsFound(e.s, q);
  }

  lemma LiveIsFound(s: State, q: Sequence)
    requires q in Order(s)
    ensures CancelledState(s, q.id).1
  {
    hide Freed, RemoveAt;
    var i :| 0 <= i < |Order(s)| && Order(s)[i] == q;
    if i < |s.running| {
      FinishedRunning.SomewhereRunning(s.running, i);
    } else {
      FinishedRunning.SomewhereRunning(s.waiting, i - |s.running|);
    }
  }

  // ----- A run that undercounts -----

  /** Whole prompts only, two tokens a step. */
  const WHOLE := Config(2, 2, None, false, 4, true)
  const FIRST := NewSequence(0, [0, 0], PlainParams(2))
  const SECOND := NewSequence(1, [1], PlainParams(2))

  function FirstWith(output: seq<TokenId>): Sequence {
    FIRST.(computed := 2, state := Decoding, output := output)
  }

  /**
   * One block of four tokens. The first request gets a token; the second arrives, for which
   * no block is free; a step evicts the first; then its deadline passes.
   */
  const UNDERCOUNT: seq<Call> := [
    Submit(FIRST.prompt, FIRST.params), Step(StepInput({}, Some([Row(0, true, Some(0), true)]), {})),
    Submit(SECOND.prompt, SECOND.params), Step(StepInput({}, Some([]), {})), Step(StepInput({0}, None, {}))]

  /** The engine after the first k calls. */
  ghost function After(k: nat): (e: EngineState)
    requires k <= |UNDERCOUNT|
    ensures Protocol(e) && e.s.cache.WellFormed()
  {
    FreshEngineServes(WHOLE, 1, 4, false, []);
    EngineAfter(WHOLE, 1, 4, false, [], UNDERCOUNT[..k])
  }

  lemma AfterNext(k: nat)
    requires k < |UNDERCOUNT|
    ensures After(k + 1) == Called(After(k), UNDERCOUNT[k])
  {
    hide Called, RunEngine, Serves;
    FreshEngineServes(WHOLE, 1, 4, false, []);
    assert UNDERCOUNT[..k + 1] == UNDERCOUNT[..k] + [UNDERCOUNT[k]];
    RunEnginePush(FreshEngine(WHOLE, 1, 4, false, []), UNDERCOUNT[..k], UNDERCOUNT[k]);
  }

  lemma AfterNothing()
    ensures After(0) == FreshEngine(WHOLE, 1, 4, false, [])
  {
    hide Serves;
    FreshEngineServes(WHOLE, 1, 4, false, []);
  }

  /** The first request holds the only block, with room in it for `4 - backed` tokens. */
  ghost predicate HoldsTheBlock(s: State, output: seq<TokenId>, waiting: seq<Sequence>) {
    && s.config == WHOLE && s.running == [FirstWith(output)] && s.waiting == waiting
    && Consistent(s.cache) && |s.cache.pool.blocks| == 1 && s.cache.pool.blockSize == 4 && !s.cache.prefixCaching
    && s.cache.tables.Keys == {0} && s.cache.tables[0].numTokens == 2 && s.cache.pool.freeList == []
  }

  lemma FirstArrives()
    ensures var e := After(1);
            && e.s == State(WHOLE, [FIRST], [], NewManager(1, 4, false))
            && e.active == map[0 := 2] && e.clients == map[0 := Client([0, 0], FIRST.params, [])]
            && e.nextId == 1 && e.eosIds == []
  {
    hide After;
    AfterNothing();
    AfterNext(0);
    assert CeilDiv(2, 4) == 1;
  }

  lemma FirstIsAdmitted(s: State)
    requires s == State(WHOLE, [FIRST], [], NewManager(1, 4, false))
    ensures s.cache.WellFormed()
    ensures HoldsTheBlock(Schedule(s).s, [], []) && Schedule(s).scheduled == [Scheduled(0, 2, 0, true)]
  {
    hide Consistent, Schedule, Admit, Allocated;
    NewManagerConsistent(1, 4, false);
    NoStall.ConsistentIsWellFormed(s.cache);
    assert CeilDiv(2, 4) == 1;
    FreshAllocation(s.cache, 0, [0, 0]);
    AllocationIsExact(s.cache, 0, [0, 0]);
    OnlyAdmission(s);
    var p := StartPass(s);
    AllocatedWellFormed(s.cache, 0, [0, 0]);
    var q := AdmitHead(p, Allocated(s.cache, 0, [0, 0]).0, 2);
    assert AdmitRound(p, 2) == Again(q);
    assert Admit(p, 2) == Admit(q, 2) by { AdmitsAgain(p, q, 2); }
    AdmitEnds(q, 2);
  }

  lemma AdmitsAgain(p: Pass, q: Pass, budget: nat)
    requires p.s.cache.WellFormed() && AdmitRound(p, budget) == Again(q)
    ensures q.s.cache.WellFormed() && Admit(p, budget) == Admit(q, budget)
  {
    hide AdmitRound;
    AdmitRoundProgress(p, budget);
  }

  /** The first request decodes with so much output, and its caller has received so much. */
  ghost predicate FirstAlone(e: EngineState, output: seq<TokenId>, received: seq<Event>) {
    && HoldsTheBlock(e.s, output, [])
    && e.active == map[0 := 2] && e.clients == map[0 := Client([0, 0], FIRST.params, received)]
    && e.nextId == 1 && e.eosIds == []
  }

  lemma FirstGetsToken(e: EngineState, rows: seq<Row>)
    requires FirstAlone(e, [], []) && rows == [Row(0, true, Some(0), true)]
    ensures EmittedRows(e, rows, {}).1 && FirstAlone(EmittedRows(e, rows, {}).0, [0], [Token(0, 0)])
  {
    hide Consistent;
    assert [] + [0] == [0];
    assert WithToken(FirstWith([]), 0, []) == (FirstWith([0]), None);
    assert [] + [Token(0, 0)] == [Token(0, 0)];
    assert Position(e.s.running, 0) == 0;
    var f := EmittedRow(e, rows[0], {}).0;
    assert f.clients == map[0 := Client([0, 0], FIRST.params, [Token(0, 0)])];
    assert FirstAlone(f, [0], [Token(0, 0)]);
    assert rows[1..] == [];
    assert EmittedRows(f, [], {}) == (f, true);
  }

  /** Neither the publishing, which is off, nor the reaping changes anything. */
  lemma NothingFurther(e: EngineState, batch: seq<Scheduled>)
    requires FirstAlone(e, [0], [Token(0, 0)]) && e.s.cache.WellFormed() && |batch| == 1
    ensures ReapedRequests(e.(s := CommitAll(e.s, batch)), {}) == e
  {
    hide Consistent;
    assert batch[1..] == [];
    assert CommitAll(e.s, []) == e.s;
    assert CommitAll(e.s, batch) == e.s;
    assert e.s.running[..0] == [];
    assert Unfinished([]) == [] && FinishedOnly([]) == [];
    assert Unfinished(e.s.running) == e.s.running && FinishedOnly(e.s.running) == [];
    assert FreedAll(e.s.cache, []) == e.s.cache;
    assert NotifiedAll(e, [], {}) == e;
  }

  /** A step that nobody is late for, and whose batch is built and run. */
  lemma StepConcludes(e: EngineState, rows: seq<Row>)
    requires e.s.cache.WellFormed()
    requires var p := Schedule(e.s); p.scheduled != [] && BuildBatch(p.s, p.scheduled).Some?
    ensures Stepped(e, StepInput({}, Some(rows), {})).0 == Concluded(e.(s := Schedule(e.s).s), Schedule(e.s).scheduled, rows, {}).0
  {
    hide Schedule, BuildBatch, ExpiredRequests, Concluded, Expired;
    NobodyExpires(e, {});
  }

  lemma FirstStep()
    ensures FirstAlone(After(2), [0], [Token(0, 0)])
  {
    hide After, Schedule, EmittedRows, ReapedRequests, CommitAll, HoldsTheBlock, Stepped, BuildBatch, Protocol;
    FirstArrives();
    AfterNext(1);
    var e := After(1);
    FirstIsAdmitted(e.s);
    var p := Schedule(e.s);
    BatchOfOne(p);
    var rows := [Row(0, true, Some(0), true)];
    StepConcludes(e, rows);
    FirstGetsToken(e.(s := p.s), rows);
    EmittedRowsWellFormed(e.(s := p.s), rows, {});
    NothingFurther(EmittedRows(e.(s := p.s), rows, {}).0, p.scheduled);
  }

  lemma BatchOfOne(p: Pass)
    requires HoldsTheBlock(p.s, [], []) && p.scheduled == [Scheduled(0, 2, 0, true)]
    ensures BuildBatch(p.s, p.scheduled).Some?
  {
    hide Consistent;
    assert p.scheduled[..0] == [];
    assert BuildBatch(p.s, []) == Some([]);
    assert Position(p.s.running, 0) == 0;
  }

  /** Evicted with its token out: the first request waits before the second. */
  ghost predicate FirstIsEvicted(e: EngineState) {
    && e.s.running == [] && e.s.waiting == [FirstWith([0]).Preempt(), SECOND]
    && 0 in e.active && e.active[0] == 2 && 0 in e.clients && e.clients[0].received == [Token(0, 0)]
  }

  lemma SecondIsQueued(e: EngineState)
    requires FirstAlone(e, [0], [Token(0, 0)]) && e.s.cache.WellFormed()
    ensures var f := Submitted(e, SECOND.prompt, SECOND.params).0;
            && HoldsTheBlock(f.s, [0], [SECOND])
            && 0 in f.active && f.active[0] == 2 && 0 in f.clients && f.clients[0].received == [Token(0, 0)]
  {
    hide Consistent;
    assert CeilDiv(1, 4) == 1;
  }

  lemma SecondArrives()
    ensures var e := After(3);
            && HoldsTheBlock(e.s, [0], [SECOND])
            && 0 in e.active && e.active[0] == 2 && 0 in e.clients && e.clients[0].received == [Token(0, 0)]
  {
    hide After, Protocol, Submitted, FirstAlone;
    FirstStep();
    AfterNext(2);
    SecondIsQueued(After(2));
  }

  /** The first decodes its next token; then the second needs its block, and what is left of the budget is too little for the first. */
  lemma FirstMakesWay(s: State)
    requires s.cache.WellFormed() && HoldsTheBlock(s, [0], [SECOND])
    ensures Schedule(s).scheduled == [Scheduled(0, 1, 3, false)]
    ensures Schedule(s).s.running == [] && Schedule(s).s.waiting == [FirstWith([0]).Preempt(), SECOND]
  {
    hide Consistent, Appended, Partials, Admit, Freed;
    AppendingIsExact(s.cache, 0);
    OneDecode(s, FirstWith([0]));
    var p := DecodePass(StartPass(s), 2);
    assert Partials(p, [], 2) == p by { DecodePlacement.PartialsOfNothing(p, 2); }
    PreemptOneWellFormed(p);
    var q := PreemptOne(p).value;
    assert CeilDiv(1, 4) == 1;
    assert AdmitRound(p, 2) == Again(q);
    AdmitsAgain(p, q, 2);
    assert AdmitRound(q, 2) == Round.Done(q);
    assert Admit(q, 2) == q by { AdmitStops(q, 2); }
  }

  lemma AdmitStops(p: Pass, budget: nat)
    requires p.s.cache.WellFormed() && AdmitRound(p, budget) == Round.Done(p)
    ensures Admit(p, budget) == p
  {
    hide AdmitRound;
  }

  lemma SecondStep()
    ensures FirstIsEvicted(After(4))
  {
    hide After, Schedule, Concluded, HoldsTheBlock, Stepped, BuildBatch, Protocol;
    SecondArrives();
    AfterNext(3);
    var e := After(3);
    FirstMakesWay(e.s);
    var p := Schedule(e.s);
    NothingRuns(e.(s := p.s), p.scheduled);
    StepConcludes(e, []);
  }

  /** The batch is empty: there is nothing to run, to publish or to reap. */
  lemma NothingRuns(e: EngineState, batch: seq<Scheduled>)
    requires e.s.cache.WellFormed() && e.s.running == [] && |batch| == 1 && !batch[0].isPrefill
    ensures BuildBatch(e.s, batch) == Some([]) && Concluded(e, batch, [], {}).0 == e
  {
    assert batch[..0] == [];
    assert BuildBatch(e.s, []) == Some([]);
    assert batch[1..] == [];
    assert CommitAll(e.s, []) == e.s;
    assert EmittedRows(e, [], {}) == (e, true);
    assert Unfinished([]) == [] && FinishedOnly([]) == [];
    assert FreedAll(e.s.cache, []) == e.s.cache;
    assert NotifiedAll(e, [], {}) == e;
  }

  /** One token was sent, and the last event counts none: the request timed out after an eviction. */
  lemma EvictedTimeoutUndercounts()
    ensures var e := EngineAfter(WHOLE, 1, 4, false, [], UNDERCOUNT);
            0 in e.clients && e.clients[0].received == [Token(0, 0), Event.Done(Timeout, 2, 0)]
  {
    hide After, Stepped, Protocol, EngineAfter;
    SecondStep();
    AfterNext(4);
    TimeoutCountIsExactIff(After(4), 0, StepInput({0}, None, {}));
    WholeRun();
  }

  lemma WholeRun()
    ensures After(|UNDERCOUNT|) == EngineAfter(WHOLE, 1, 4, false, [], UNDERCOUNT)
  {
    hide EngineAfter;
    assert UNDERCOUNT[..|UNDERCOUNT|] == UNDERCOUNT;
  }
}
