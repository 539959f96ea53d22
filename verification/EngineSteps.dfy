// One step of the engine, as functions of its state: schedule, forward, sample, emit, reap.
//
// The model's forward pass, the sampler and the receiving ends of the callers' channels are
// inputs of a step, and may behave in any way at all.
module EngineSteps {
  import opened Prelude
  import opened KvCache
  import opened Sequences
  import opened Scheduling

  /** What the engine streams to a caller. */
  datatype Event =
    | Token(token: TokenId, index: nat)
    | Done(reason: FinishReason, promptTokens: nat, completionTokens: nat)

  /** A caller: what it asked for and what reached it. */
  datatype Client = Client(prompt: seq<TokenId>, params: SamplingParams, received: seq<Event>)

  /** `active` holds the prompt length of every request whose caller is still owed events. */
  datatype EngineState = EngineState(
    s: State,
    active: map<SequenceId, nat>,
    clients: map<SequenceId, Client>,
    nextId: nat,
    eosIds: seq<TokenId>)

  /** One row of the model's output: the token sampled from it, if sampling works, and whether the caller takes it. */
  datatype Row = Row(id: SequenceId, hasLogits: bool, token: Option<TokenId>, taken: bool)

  /** What a step meets: requests past their deadline, the forward pass, callers that refuse a last event. */
  datatype StepInput = StepInput(late: set<SequenceId>, forward: Option<seq<Row>>, closed: set<SequenceId>)

  function NewEngine(s: State, eosIds: seq<TokenId>): EngineState {
    EngineState(s, map[], map[], 0, eosIds)
  }

  // ----- Submission and cancellation -----

  /** Every valid request takes a new id; only an admitted one gets a caller. */
  function Submitted(e: EngineState, prompt: seq<TokenId>, params: SamplingParams): (EngineState, Result<SequenceId>)
    requires e.s.cache.WellFormed()
  {
    if !ValidParams(params) then (e, Err(InvalidRequest))
    else
      var q, id := NewSequence(e.nextId, prompt, params), e.nextId;
      match AddCheck(e.s, q)
      case Some(err) => (e.(nextId := id + 1), Err(err))
      case None =>
        (e.(s := Added(e.s, q), active := e.active[id := |prompt|],
            clients := e.clients[id := Client(prompt, params, [])], nextId := id + 1), Ok(id))
  }

  function Delivered(clients: map<SequenceId, Client>, id: SequenceId, event: Event): map<SequenceId, Client> {
    if id in clients then clients[id := clients[id].(received := clients[id].received + [event])] else clients
  }

  /** Drops an active request, telling its caller unless the channel is closed. */
  function Retired(e: EngineState, id: SequenceId, reason: FinishReason, completion: nat, closed: set<SequenceId>): EngineState {
    if id !in e.active then e
    else
      e.(active := e.active - {id},
         clients := if id in closed then e.clients
                    else Delivered(e.clients, id, Event.Done(reason, e.active[id], completion)))
  }

  function CancelledRequest(e: EngineState, id: SequenceId, closed: set<SequenceId>): EngineState {
    var (s, found) := CancelledState(e.s, id);
    if found then Retired(e.(s := s), id, Cancelled, 0, closed) else e
  }

  // ----- Finishing -----

  function OutputLen(s: State, id: SequenceId): nat {
    var pos := Position(s.running, id);
    if pos < |s.running| then |s.running[pos].output| else 0
  }

  function FinishedRequest(e: EngineState, id: SequenceId, reason: FinishReason, closed: set<SequenceId>): EngineState {
    Retired(e, id, reason, OutputLen(e.s, id), closed)
  }

  function FinishedAll(e: EngineState, ids: seq<SequenceId>, reason: FinishReason, closed: set<SequenceId>): EngineState
    decreases |ids|
  {
    if ids == [] then e else FinishedAll(FinishedRequest(e, ids[0], reason, closed), ids[1..], reason, closed)
  }

  function ExpiredRequests(e: EngineState, late: set<SequenceId>, closed: set<SequenceId>): EngineState {
    var (s, ids) := Expired(e.s, late);
    FinishedAll(e.(s := s), ids, Timeout, closed)
  }

  function NotifiedAll(e: EngineState, finished: seq<Sequence>, closed: set<SequenceId>): EngineState
    decreases |finished|
  {
    if finished == [] then e
    else
      var q := finished[0];
      var reason := if q.finishReason.Some? then q.finishReason.value else FinishReason.Stop;
      NotifiedAll(Retired(e, q.id, reason, |q.output|, closed), finished[1..], closed)
  }

  function ReapedRequests(e: EngineState, closed: set<SequenceId>): EngineState {
    var (s, finished) := Reaped(e.s);
    NotifiedAll(e.(s := s), finished, closed)
  }

  // ----- The batch -----

  /** What one sequence brings to the forward pass. */
  datatype BatchRow = BatchRow(id: SequenceId, tokens: seq<TokenId>, startPosition: nat, contextLen: nat, table: seq<BlockId>)

  datatype RowResult = Skip | Fail | Run(row: BatchRow)

  /** The prompt slice of a chunk, or the last token; a slice out of the prompt's range fails. */
  function RowFor(s: State, c: Scheduled): RowResult {
    var pos := Position(s.running, c.id);
    if pos == |s.running| then Skip
    else if c.id !in s.cache.tables then Fail
    else
      var q := s.running[pos];
      if c.isPrefill && c.startPosition > |q.prompt| then Fail
      else
        var tokens :=
          if c.isPrefill then q.prompt[c.startPosition..Min(c.startPosition + c.numTokens, |q.prompt|)]
          else if q.output != [] then [q.output[|q.output| - 1]]
          else if q.prompt != [] then [q.prompt[|q.prompt| - 1]]
          else [];
        if tokens == [] then Skip
        else Run(BatchRow(c.id, tokens, c.startPosition, c.startPosition + |tokens|, s.cache.tables[c.id].blocks))
  }

  function BuildBatch(s: State, scheduled: seq<Scheduled>): Option<seq<BatchRow>> {
    if scheduled == [] then Some([])
    else
      match BuildBatch(s, scheduled[..|scheduled| - 1])
      case None => None
      case Some(rows) =>
        match RowFor(s, scheduled[|scheduled| - 1])
        case Skip => Some(rows)
        case Fail => None
        case Run(row) => Some(rows + [row])
  }

  // ----- Sampling and emission -----

  /** A request whose caller is gone, dropped without a word. */
  function Abandoned(e: EngineState, id: SequenceId): EngineState {
    e.(s := CancelledState(e.s, id).0, active := e.active - {id})
  }

  /** One sampled token for a running sequence, streamed to its caller. */
  function Streamed(e: EngineState, q: Sequence, token: TokenId, taken: bool, closed: set<SequenceId>): EngineState
    requires q.id in e.active
  {
    var index := SaturatingSub(q.TotalLen(), e.active[q.id]);
    var (s, reason) := Tokened(e.s, q.id, token, e.eosIds);
    if !taken then Abandoned(e.(s := s), q.id)
    else
      var told := e.(s := s, clients := Delivered(e.clients, q.id, Token(token, index)));
      if reason.Some? then FinishedRequest(told, q.id, reason.value, closed) else told
  }

  /** One output row; the flag says whether the step goes on. */
  function EmittedRow(e: EngineState, row: Row, closed: set<SequenceId>): (EngineState, bool) {
    var pos := Position(e.s.running, row.id);
    if pos < |e.s.running| && !e.s.running[pos].PrefillComplete() then (e, true)
    else if !row.hasLogits then (e, false)
    else if pos == |e.s.running| || row.id !in e.active then (e, true)
    else
      match row.token
      case None => (e, false)
      case Some(token) => (Streamed(e, e.s.running[pos], token, row.taken, closed), true)
  }

  function EmittedRows(e: EngineState, rows: seq<Row>, closed: set<SequenceId>): (EngineState, bool)
    decreases |rows|
  {
    if rows == [] then (e, true)
    else
      var (next, ok) := EmittedRow(e, rows[0], closed);
      if ok then EmittedRows(next, rows[1..], closed) else (next, false)
  }

  // ----- The step -----

  /** After the forward pass: emit, publish the completed prefills, reap. */
  function Concluded(e: EngineState, scheduled: seq<Scheduled>, rows: seq<Row>, closed: set<SequenceId>): (EngineState, Result<nat>)
    requires e.s.cache.WellFormed()
  {
    var (emitted, ok) := EmittedRows(e, rows, closed);
    if !ok then (emitted, Err(Internal))
    else
      EmittedRowsWellFormed(e, rows, closed);
      (ReapedRequests(emitted.(s := CommitAll(emitted.s, scheduled)), closed), Ok(|rows|))
  }

  function Stepped(e: EngineState, input: StepInput): (EngineState, Result<nat>)
    requires e.s.cache.WellFormed()
  {
    ExpiredRequestsKeepCache(e, input.late, input.closed);
    var expired := ExpiredRequests(e, input.late, input.closed);
    var p := Schedule(expired.s);
    var scheduled := expired.(s := p.s);
    if p.scheduled == [] then (ReapedRequests(scheduled, input.closed), Ok(0))
    else if BuildBatch(p.s, p.scheduled) == None || input.forward == None then (scheduled, Err(Internal))
    else Concluded(scheduled, p.scheduled, input.forward.value, input.closed)
  }

  lemma {:induction false} FinishedAllKeepState(e: EngineState, ids: seq<SequenceId>, reason: FinishReason, closed: set<SequenceId>)
    ensures FinishedAll(e, ids, reason, closed).s == e.s
    decreases |ids|
  {
    if ids != [] {
      FinishedAllKeepState(FinishedRequest(e, ids[0], reason, closed), ids[1..], reason, closed);
    }
  }

  lemma {:induction false} NotifiedAllKeepState(e: EngineState, finished: seq<Sequence>, closed: set<SequenceId>)
    ensures NotifiedAll(e, finished, closed).s == e.s
    decreases |finished|
  {
    if finished != [] {
      var q := finished[0];
      var reason := if q.finishReason.Some? then q.finishReason.value else FinishReason.Stop;
      NotifiedAllKeepState(Retired(e, q.id, reason, |q.output|, closed), finished[1..], closed);
    }
  }

  lemma ExpiredRequestsKeepCache(e: EngineState, late: set<SequenceId>, closed: set<SequenceId>)
    ensures ExpiredRequests(e, late, closed).s.cache == e.s.cache
    ensures ExpiredRequests(e, late, closed).s == Expired(e.s, late).0
  {
    var (s, ids) := Expired(e.s, late);
    FinishedAllKeepState(e.(s := s), ids, Timeout, closed);
  }

  lemma CancelledStateWellFormed(s: State, id: SequenceId)
    requires s.cache.WellFormed()
    ensures CancelledState(s, id).0.cache.WellFormed()
  {
    hide Position, Freed;
    FreedWellFormed(s.cache, id);
  }

  lemma EmittedRowWellFormed(e: EngineState, row: Row, closed: set<SequenceId>)
    requires e.s.cache.WellFormed()
    ensures EmittedRow(e, row, closed).0.s.cache.WellFormed()
  {
    hide Position, CancelledState, WithToken;
    if row.token.Some? {
      CancelledStateWellFormed(Tokened(e.s, row.id, row.token.value, e.eosIds).0, row.id);
    }
  }

  lemma {:induction false} EmittedRowsWellFormed(e: EngineState, rows: seq<Row>, closed: set<SequenceId>)
    requires e.s.cache.WellFormed()
    ensures EmittedRows(e, rows, closed).0.s.cache.WellFormed()
    decreases |rows|
  {
    hide EmittedRow;
    if rows != [] {
      EmittedRowWellFormed(e, rows[0], closed);
      var (next, ok) := EmittedRow(e, rows[0], closed);
      if ok {
        EmittedRowsWellFormed(next, rows[1..], closed);
      }
    }
  }

  lemma {:induction false} NobodyIsLate(list: seq<Sequence>)
    ensures Rejected(list, {}) == list && Selected(list, {}) == []
  {
    if list != [] {
      NobodyIsLate(list[..|list| - 1]);
    }
  }

  /** Without a late request the expiry changes nothing. */
  lemma NobodyExpires(e: EngineState, closed: set<SequenceId>)
    ensures ExpiredRequests(e, {}, closed) == e && Expired(e.s, {}).0 == e.s
  {
    NobodyIsLate(e.s.running);
    NobodyIsLate(e.s.waiting);
    assert FinishIn(e.s.running, {}, Timeout) == e.s.running;
    assert Ids(Selected(e.s.running, {})) + Ids(Selected(e.s.waiting, {})) == [];
  }
}
