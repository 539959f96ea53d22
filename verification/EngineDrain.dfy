// Every caller is answered: the drain of the scheduler, carried over to the steps of the engine.
module EngineDrain {
  import opened Prelude
  import opened KvConservation
  import opened Sequences
  import opened Scheduling
  import opened SchedulerOrder
  import opened SchedulerInvariant
  import opened NoStall
  import opened Drain
  import opened EngineSteps
  import opened StreamProtocol
  import opened BatchBuilding

  // ----- A step that serves its batch -----

  /** One output row for each row of the batch, sampled and taken by its caller. */
  predicate Gives(rows: seq<Row>, batch: seq<BatchRow>) {
    && |rows| == |batch|
    && forall i :: 0 <= i < |rows| ==>
         rows[i].id == batch[i].id && rows[i].hasLogits && rows[i].token.Some? && rows[i].taken
  }

  /** Nobody is late, and what was scheduled is run. */
  predicate Attends(e: EngineState, input: StepInput)
    requires e.s.cache.WellFormed()
  {
    var p := Schedule(e.s);
    && input.late == {}
    && (p.scheduled != [] ==>
          match BuildBatch(p.s, p.scheduled)
          case None => true
          case Some(batch) => input.forward.Some? && Gives(input.forward.value, batch))
  }

  // ----- The rows of the batch and its entries -----

  /** Everything that runs is resident and has its table, and the entries of the batch carry tokens. */
  ghost predicate BatchOk(s: State, batch: seq<Scheduled>) {
    Healthy(s) && NoneFinished(s) && EntriesFit(Order(s), batch)
  }

  /** An entry makes a row exactly when its sequence still runs. */
  lemma EntryMakesRow(s: State, batch: seq<Scheduled>, k: nat)
    requires BatchOk(s, batch) && k < |batch|
    ensures if Position(s.running, batch[k].id) < |s.running|
            then RowFor(s, batch[k]).Run? && RowFor(s, batch[k]).row.id == batch[k].id
            else RowFor(s, batch[k]).Skip?
  {
    hide Consistent, NoDuplicates, Order, EntryFits;
    var pos := Position(s.running, batch[k].id);
    if pos < |s.running| {
      assert Resident(s.running[pos]) && !s.running[pos].state.Finished?;
      assert s.running[pos].id in IdSet(s.running);
      EntryInPrompt(s, pos, batch[k]);
    }
  }

  ghost predicate Built(s: State, batch: seq<Scheduled>, k: nat) {
    k <= |batch| && BuildBatch(s, batch[..k]).Some?
  }

  /** The rows made by the first k entries. */
  ghost function RowsMade(s: State, batch: seq<Scheduled>, k: nat): seq<BatchRow>
    requires Built(s, batch, k)
  {
    BuildBatch(s, batch[..k]).value
  }

  lemma NextRow(s: State, batch: seq<Scheduled>, k: nat)
    requires BatchOk(s, batch) && k < |batch| && Built(s, batch, k)
    ensures Built(s, batch, k + 1)
    ensures if Position(s.running, batch[k].id) < |s.running|
            then RowFor(s, batch[k]).Run? && RowsMade(s, batch, k + 1) == RowsMade(s, batch, k) + [RowFor(s, batch[k]).row]
            else RowsMade(s, batch, k + 1) == RowsMade(s, batch, k)
  {
    hide BatchOk, RowFor;
    EntryMakesRow(s, batch, k);
    assert batch[..k + 1][..k] == batch[..k];
  }

  lemma {:induction false} RowsBuilt(s: State, batch: seq<Scheduled>, k: nat, n: nat)
    requires BatchOk(s, batch) && k <= n <= |batch|
    ensures Built(s, batch, k) && Built(s, batch, n) && RowsMade(s, batch, k) <= RowsMade(s, batch, n)
    decreases n
  {
    hide BatchOk, RowFor;
    if n == 0 {
      assert batch[..0] == [];
    } else if k == n {
      RowsBuilt(s, batch, n - 1, n - 1);
      NextRow(s, batch, n - 1);
    } else {
      RowsBuilt(s, batch, k, n - 1);
      NextRow(s, batch, n - 1);
    }
  }

  /** The tokens of the step, as the drain of the scheduler counts them: by entries still to come. */
  ghost function DrawOf(s: State, batch: seq<Scheduled>, rows: seq<Row>): Draw {
    (n: nat) =>
      if n <= |batch| && Built(s, batch, |batch| - n)
         && |RowsMade(s, batch, |batch| - n)| < |rows| && rows[|RowsMade(s, batch, |batch| - n)|].token.Some?
      then rows[|RowsMade(s, batch, |batch| - n)|].token.value
      else 0
  }

  // ----- Emission -----

  lemma KnownRunning(e: EngineState, pos: nat)
    requires Protocol(e) && pos < |e.s.running|
    ensures e.s.running[pos].id in e.active <==> !e.s.running[pos].state.Finished?
  {
    hide NoDuplicates, Order, Good, Open;
    MembersOfOrder(e.s);
    assert Known(e, Core(e.s.running[pos]));
  }

  /** A row does to the scheduler what the entry of its sequence does, and the step goes on. */
  lemma RowEmits(e: EngineState, c: Scheduled, row: Row, closed: set<SequenceId>)
    requires Protocol(e) && row.id == c.id && row.hasLogits && row.token.Some? && row.taken
    ensures var (f, ok) := EmittedRow(e, row, closed);
            ok && f.s == Emit(e.s, c, row.token.value, e.eosIds)
  {
    hide Protocol, WithToken;
    var pos := Position(e.s.running, c.id);
    if pos < |e.s.running| {
      KnownRunning(e, pos);
    }
  }

  lemma EmitKeepsIds(s: State, c: Scheduled, token: TokenId, eosIds: seq<TokenId>)
    ensures Ids(Emit(s, c, token, eosIds).running) == Ids(s.running)
  {
    hide Position;
  }

  /** The rows from entry k on do what the entries do. */
  lemma {:induction false} RowsEmit(s: State, batch: seq<Scheduled>, rows: seq<Row>, e: EngineState, k: nat, closed: set<SequenceId>)
    requires BatchOk(s, batch) && k <= |batch| && Built(s, batch, k) && Built(s, batch, |batch|)
    requires Gives(rows, RowsMade(s, batch, |batch|)) && |RowsMade(s, batch, k)| <= |rows|
    requires Protocol(e) && Ids(e.s.running) == Ids(s.running)
    ensures var (f, ok) := EmittedRows(e, rows[|RowsMade(s, batch, k)|..], closed);
            ok && f.s == EmitAll(e.s, batch[k..], DrawOf(s, batch, rows), e.eosIds)
    decreases |batch| - k
  {
    hide BatchOk, Protocol, EmittedRow, Emit, RowFor, BuildBatch;
    var r := |RowsMade(s, batch, k)|;
    if k == |batch| {
      assert rows[r..] == [];
    } else {
      NextRow(s, batch, k);
      RowsBuilt(s, batch, k + 1, |batch|);
      SamePosition(e.s.running, s.running, batch[k].id);
      var c, draw := batch[k], DrawOf(s, batch, rows);
      assert batch[k..][1..] == batch[k + 1..];
      if Position(s.running, c.id) < |s.running| {
        EntryMakesRow(s, batch, k);
        assert RowsMade(s, batch, |batch|)[r] == RowsMade(s, batch, k + 1)[r] == RowFor(s, c).row;
        RowEmits(e, c, rows[r], closed);
        EmitKeepsIds(e.s, c, rows[r].token.value, e.eosIds);
        RowKeeps(e, rows[r], closed);
        assert draw(|batch[k..]|) == rows[r].token.value;
        assert rows[r..][1..] == rows[r + 1..];
        RowsEmit(s, batch, rows, EmittedRow(e, rows[r], closed).0, k + 1, closed);
      } else {
        NobodyEmits(e.s, c, draw(|batch[k..]|), e.eosIds);
        RowsEmit(s, batch, rows, e, k + 1, closed);
      }
    }
  }

  lemma NobodyEmits(s: State, c: Scheduled, token: TokenId, eosIds: seq<TokenId>)
    requires Position(s.running, c.id) == |s.running|
    ensures Emit(s, c, token, eosIds) == s
  {
  }

  // ----- The step -----

  lemma FundedIsHealthy(p: Pass, room: nat, ahead: nat)
    requires PassFunded(p, room, ahead)
    ensures Healthy(p.s) && NoneFinished(p.s)
  {
    hide Consistent, NoDuplicates, ReserveSum, AllServable;
  }

  lemma ReservedSchedules(s: State, room: nat, ahead: nat)
    requires Reserved(s, room, ahead)
    ensures s.cache.WellFormed()
    ensures var p := Schedule(s); BatchOk(p.s, p.scheduled) && Built(p.s, p.scheduled, |p.scheduled|)
  {
    hide Healthy, NoneFinished, NoDuplicates, Order, EntriesFit, AllServable, Schedule, PassFunded, Work, BuildBatch;
    HealthyIsWellFormed(s);
    HealthyIds(s);
    ScheduleFunded(s, room, ahead);
    FundedIsHealthy(Schedule(s), room, ahead);
    ScheduleKeepsOrder(s);
    ScheduleFits(s);
    BatchAlwaysBuilds(s);
    var p := Schedule(s);
    assert p.scheduled[..|p.scheduled|] == p.scheduled;
  }

  /** Every token drawn is zero or that of some row. */
  ghost predicate DrawnFrom(draw: Draw, input: StepInput) {
    forall n: nat :: draw(n) == 0 ||
      (input.forward.Some? && exists k :: 0 <= k < |input.forward.value| && input.forward.value[k].token == Some(draw(n)))
  }

  lemma DrawIsFrom(s: State, batch: seq<Scheduled>, input: StepInput)
    requires input.forward.Some?
    ensures DrawnFrom(DrawOf(s, batch, input.forward.value), input)
  {
    hide Built, RowsMade;
  }

  /** A step that attends to its batch is a round of the scheduler. */
  lemma StepIsRound(e: EngineState, input: StepInput, room: nat, ahead: nat) returns (draw: Draw)
    requires Protocol(e) && Reserved(e.s, room, ahead) && e.s.cache.WellFormed() && Attends(e, input)
    ensures Stepped(e, input).1.Ok? && Stepped(e, input).0.s == NextRound(e.s, draw, e.eosIds)
    ensures DrawnFrom(draw, input)
  {
    hide Serves, Reserved, Schedule, BuildBatch, EmittedRows, ReapedRequests, CommitAll, ExpiredRequests, EmitAll, Reaped,
      BatchOk, Extends, Expired, DrawOf;
    NobodyExpires(e, input.closed);
    ReservedSchedules(e.s, room, ahead);
    ScheduleKeepsOrder(e.s);
    var p := Schedule(e.s);
    var scheduled := e.(s := p.s);
    SameOrderServes(e, p.s);
    if p.scheduled == [] {
      draw := n => 0;
      NothingEmitted(p.s, draw, e.eosIds);
      ReapTellsNobody(scheduled, input.closed);
    } else {
      FromTheStart(p.s, p.scheduled);
      var rows := input.forward.value;
      draw := DrawOf(p.s, p.scheduled, rows);
      DrawIsFrom(p.s, p.scheduled, input);
      RowsBuilt(p.s, p.scheduled, 0, |p.scheduled|);
      assert rows[0..] == rows;
      RowsEmit(p.s, p.scheduled, rows, scheduled, 0, input.closed);
      RowsKeep(scheduled, rows, input.closed);
      var emitted := EmittedRows(scheduled, rows, input.closed).0;
      CommitAllKeepsOrder(emitted.s, p.scheduled);
      SameOrderServes(emitted, CommitAll(emitted.s, p.scheduled));
      ReapTellsNobody(emitted.(s := CommitAll(emitted.s, p.scheduled)), input.closed);
    }
  }

  lemma NothingEmitted(s: State, draw: Draw, eosIds: seq<TokenId>)
    requires s.cache.WellFormed()
    ensures EmitAll(s, [], draw, eosIds) == s && CommitAll(s, []) == s
  {
  }

  lemma FromTheStart(s: State, batch: seq<Scheduled>)
    ensures batch[0..] == batch && batch[..|batch|] == batch
    ensures Built(s, batch, 0) && RowsMade(s, batch, 0) == []
  {
    assert batch[..0] == [];
  }

  // ----- The answer -----

  /** The stream has ended by itself. */
  predicate Answered(c: Client) {
    c.received != [] && var last := c.received[|c.received| - 1];
      last.Done? && last.reason in {FinishReason.Stop, Length}
  }

  /** The request is still served, or has its answer. */
  predicate Kept(e: EngineState, id: SequenceId) {
    id in e.clients && (id in e.active || Answered(e.clients[id]))
  }

  lemma RowAnswers(e: EngineState, row: Row, closed: set<SequenceId>, id: SequenceId)
    requires Protocol(e) && Kept(e, id) && id !in closed && row.taken
    ensures Kept(EmittedRow(e, row, closed).0, id)
  {
    hide Serves, Position, Order;
    RowKeeps(e, row, closed);
    var f := EmittedRow(e, row, closed).0;
    if id in e.active && id !in f.active {
      assert row.id == id;
    }
  }

  lemma {:induction false} RowsAnswer(e: EngineState, rows: seq<Row>, closed: set<SequenceId>, id: SequenceId)
    requires Protocol(e) && Kept(e, id) && id !in closed && forall i :: 0 <= i < |rows| ==> rows[i].taken
    ensures Kept(EmittedRows(e, rows, closed).0, id)
    decreases |rows|
  {
    hide Protocol, EmittedRow, Kept, Extends;
    if rows != [] {
      RowAnswers(e, rows[0], closed, id);
      RowKeeps(e, rows[0], closed);
      var (next, ok) := EmittedRow(e, rows[0], closed);
      if ok {
        RowsAnswer(next, rows[1..], closed, id);
      }
    }
  }

  lemma StepAnswers(e: EngineState, input: StepInput, id: SequenceId, room: nat, ahead: nat)
    requires Protocol(e) && Reserved(e.s, room, ahead) && e.s.cache.WellFormed() && Attends(e, input)
    requires Kept(e, id) && id !in input.closed
    ensures Kept(Stepped(e, input).0, id)
  {
    hide Serves, Reserved, Schedule, BuildBatch, EmittedRows, ReapedRequests, CommitAll, ExpiredRequests, Reaped, BatchOk,
      Extends, Expired, Answered;
    NobodyExpires(e, input.closed);
    ReservedSchedules(e.s, room, ahead);
    ScheduleKeepsOrder(e.s);
    var p := Schedule(e.s);
    var scheduled := e.(s := p.s);
    SameOrderServes(e, p.s);
    if p.scheduled == [] {
      ReapTellsNobody(scheduled, input.closed);
    } else {
      FromTheStart(p.s, p.scheduled);
      var rows := input.forward.value;
      RowsAnswer(scheduled, rows, input.closed, id);
      RowsKeep(scheduled, rows, input.closed);
      var (emitted, ok) := EmittedRows(scheduled, rows, input.closed);
      CommitAllKeepsOrder(emitted.s, p.scheduled);
      SameOrderServes(emitted, CommitAll(emitted.s, p.scheduled));
      ReapTellsNobody(emitted.(s := CommitAll(emitted.s, p.scheduled)), input.closed);
    }
  }

  // ----- Runs that keep their reservations -----

  /** A valid request is affordable when its prompt is not empty and its reservation fits beside the others. */
  ghost predicate Affordable(e: EngineState, prompt: seq<TokenId>, params: SamplingParams, room: nat) {
    var size := e.s.cache.pool.blockSize;
    ValidParams(params) ==>
      && prompt != [] && size > 0
      && ReserveSum(e.s.running, size, room) + ReserveSum(e.s.waiting, size, room)
         + Reserve(NewSequence(e.nextId, prompt, params), size, room)
         <= |e.s.cache.pool.blocks|
  }

  ghost predicate Sustained(e: EngineState, call: Call, room: nat)
    requires Protocol(e)
  {
    match call
    case Submit(prompt, params) => Affordable(e, prompt, params, room)
    case Cancel(_, _) => false
    case Step(input) => Attends(e, input)
  }

  /** Affordable requests and steps that attend to their batches, in any order. */
  ghost predicate SustainedRun(e: EngineState, calls: seq<Call>, room: nat)
    requires Protocol(e)
    decreases |calls|
  {
    if calls == [] then true
    else
      CallKeeps(e, calls[0]);
      Sustained(e, calls[0], room) && SustainedRun(Called(e, calls[0]), calls[1..], room)
  }

  lemma SubmissionStaysReserved(e: EngineState, prompt: seq<TokenId>, params: SamplingParams, room: nat, ahead: nat)
    requires Protocol(e) && Reserved(e.s, room, ahead) && Affordable(e, prompt, params, room)
    ensures Reserved(Submitted(e, prompt, params).0.s, room, ahead)
  {
    hide Reserved, AddCheck, Order, ReserveSum, Reserve, Good, Owed;
    var q := NewSequence(e.nextId, prompt, params);
    if ValidParams(params) {
      forall i | 0 <= i < |Order(e.s)| ensures Order(e.s)[i].id != q.id {
        assert Known(e, Order(e.s)[i]);
      }
      AdmissionReserves(e.s, q, room, ahead);
    }
  }

  lemma CallStaysReserved(e: EngineState, call: Call, room: nat, ahead: nat)
    requires Protocol(e) && Reserved(e.s, room, ahead) && Sustained(e, call, room)
    ensures Reserved(Called(e, call).s, room, ahead)
    ensures call.Step? ==> Work(Called(e, call).s) <= Work(e.s)
    ensures call.Step? && e.s.running + e.s.waiting != [] ==> Work(Called(e, call).s) < Work(e.s)
  {
    hide Serves, Reserved, Stepped, Submitted, Attends, NextRound, Affordable, Work;
    match call
    case Submit(prompt, params) => SubmissionStaysReserved(e, prompt, params, room, ahead);
    case Step(input) =>
      var draw := StepIsRound(e, input, room, ahead);
      RoundMakesProgress(e.s, draw, e.eosIds, room, ahead);
  }

  /** From a fresh engine on, reservations are kept through affordable requests and attentive steps. */
  lemma {:induction false} StaysReserved(e: EngineState, calls: seq<Call>, room: nat, ahead: nat)
    requires Protocol(e) && Reserved(e.s, room, ahead) && SustainedRun(e, calls, room)
    ensures Reserved(RunEngine(e, calls).s, room, ahead)
    decreases |calls|
  {
    hide Serves, Reserved, Sustained, Called, Extends, Work;
    if calls != [] {
      CallKeeps(e, calls[0]);
      CallStaysReserved(e, calls[0], room, ahead);
      StaysReserved(Called(e, calls[0]), calls[1..], room, ahead);
    }
  }

  lemma FreshEngineIsReserved(config: Config, numBlocks: nat, blockSize: nat, prefixCaching: bool, eosIds: seq<TokenId>,
                            room: nat, ahead: nat)
    requires RunsWell(config) && blockSize > 0 && ahead <= room
    ensures Protocol(FreshEngine(config, numBlocks, blockSize, prefixCaching, eosIds))
    ensures Reserved(FreshEngine(config, numBlocks, blockSize, prefixCaching, eosIds).s, room, ahead)
  {
    hide Reserved, Serves;
    FreshEngineServes(config, numBlocks, blockSize, prefixCaching, eosIds);
    NewStateReserved(config, numBlocks, blockSize, prefixCaching, room, ahead);
  }

  // ----- Steps until nothing is left -----

  predicate AllSteps(calls: seq<Call>) {
    forall k :: 0 <= k < |calls| ==> calls[k].Step?
  }

  /** No step finds the channel of the request closed. */
  predicate KeepsOpen(calls: seq<Call>, id: SequenceId) {
    forall k :: 0 <= k < |calls| && calls[k].Step? ==> id !in calls[k].input.closed
  }

  lemma {:induction false} StepsDrain(e: EngineState, calls: seq<Call>, room: nat, ahead: nat)
    requires Protocol(e) && Reserved(e.s, room, ahead) && SustainedRun(e, calls, room) && AllSteps(calls) && |calls| >= Work(e.s)
    ensures var f := RunEngine(e, calls); f.s.running == [] && f.s.waiting == []
    decreases |calls|
  {
    hide Serves, Reserved, Work, Called, Sustained, Extends;
    if e.s.running + e.s.waiting != [] {
      RequestsAreWork(e.s, room, ahead);
    } else {
      NoWork(e.s);
    }
    if calls != [] {
      CallKeeps(e, calls[0]);
      CallStaysReserved(e, calls[0], room, ahead);
      StepsDrain(Called(e, calls[0]), calls[1..], room, ahead);
    }
  }

  lemma NoWork(s: State)
    requires s.running + s.waiting == []
    ensures Work(s) == 0
  {
  }

  lemma {:induction false} StepsAnswer(e: EngineState, calls: seq<Call>, id: SequenceId, room: nat, ahead: nat)
    requires Protocol(e) && Reserved(e.s, room, ahead) && SustainedRun(e, calls, room) && AllSteps(calls)
    requires Kept(e, id) && KeepsOpen(calls, id)
    ensures Kept(RunEngine(e, calls), id)
    decreases |calls|
  {
    hide Serves, Reserved, Stepped, Attends, Kept, Extends, Work;
    if calls != [] {
      CallKeeps(e, calls[0]);
      CallStaysReserved(e, calls[0], room, ahead);
      StepAnswers(e, calls[0].input, id, room, ahead);
      StepsAnswer(Called(e, calls[0]), calls[1..], id, room, ahead);
    }
  }

  /**
   * Every caller is answered when reservations fit. Nobody is late, and every scheduled row
   * is run, sampled and taken: then within as many engine steps as there are prompt and
   * output tokens, whatever the tokens are, the engine is idle, and the stream of each
   * request that was active, its channel open, has ended by itself.
   */
  lemma EveryCallerIsAnswered(e: EngineState, calls: seq<Call>, room: nat, ahead: nat)
    requires Protocol(e) && Reserved(e.s, room, ahead) && SustainedRun(e, calls, room) && AllSteps(calls)
    requires |calls| >= TokenTotal(e.s.running) + TokenTotal(e.s.waiting)
    ensures var f := RunEngine(e, calls);
            && f.s.running == [] && f.s.waiting == [] && f.active == map[]
            && forall id :: id in e.active && KeepsOpen(calls, id) ==> id in f.clients && Answered(f.clients[id])
  {
    hide Reserved, Protocol, SustainedRun, RunEngine, Extends, Answered;
    WorkAtMostTokens(e.s.running);
    WorkAtMostTokens(e.s.waiting);
    StepsDrain(e, calls, room, ahead);
    var f := RunEngine(e, calls);
    IdleHasNoActive(f);
    forall id | id in e.active && KeepsOpen(calls, id) ensures id in f.clients && Answered(f.clients[id]) {
      ActiveHasClient(e, id);
      StepsAnswer(e, calls, id, room, ahead);
    }
  }

  lemma IdleHasNoActive(e: EngineState)
    requires Protocol(e) && e.s.running == [] && e.s.waiting == []
    ensures e.active == map[]
  {
    assert Order(e.s) == [];
    assert forall id :: id in e.active ==> Live(Order(e.s), id);
  }

  lemma ActiveHasClient(e: EngineState, id: SequenceId)
    requires Protocol(e) && id in e.active
    ensures id in e.clients
  {
    assert Live(Order(e.s), id);
    var q :| q in Order(e.s) && q.id == id && !q.state.Finished?;
    assert Known(e, q);
  }
}
