// The engine object: a scheduler, the active requests, and the receiving end of each channel.
module Engines {
  import opened Prelude
  import opened KvCache
  import opened Sequences
  import opened Scheduling
  import opened Schedulers
  import opened EngineSteps

  class Engine {
    const scheduler: Scheduler
    const eosIds: seq<TokenId>
    var active: map<SequenceId, nat>
    var clients: map<SequenceId, Client>
    var nextId: nat

    ghost function Footprint(): set<object> {
      {this, scheduler, scheduler.waiting, scheduler.running, scheduler.cache, scheduler.cache.pool,
       scheduler.cache.prefixCache}
    }

    function View(): EngineState
      reads Footprint()
    {
      EngineState(scheduler.View(), active, clients, nextId, eosIds)
    }

    ghost predicate Valid()
      reads Footprint()
    {
      scheduler.Valid()
    }

    constructor (scheduler: Scheduler, eosIds: seq<TokenId>)
      requires scheduler.Valid()
      ensures Valid() && View() == NewEngine(scheduler.View(), eosIds) && this.scheduler == scheduler
    {
      this.scheduler := scheduler;
      this.eosIds := eosIds;
      active, clients, nextId := map[], map[], 0;
    }

    method Submit(prompt: seq<TokenId>, params: SamplingParams) returns (r: Result<SequenceId>)
      requires Valid()
      modifies this, scheduler.waiting
      ensures Valid() && (View(), r) == Submitted(old(View()), prompt, params)
    {
      var invalid := Validate(params);
      if invalid.Some? {
        return Err(invalid.value);
      }
      var q := NewSequence(nextId, prompt, params);
      nextId := nextId + 1;
      r := scheduler.AddRequest(q);
      if r.Ok? {
        active := active[q.id := |prompt|];
        clients := clients[q.id := Client(prompt, params, [])];
      }
    }

    /** Ends an active request with a last event, which a closed channel drops. */
    method Retire(id: SequenceId, reason: FinishReason, completion: nat, closed: set<SequenceId>)
      requires Valid()
      modifies this
      ensures Valid() && View() == Retired(old(View()), id, reason, completion, closed)
    {
      if id in active {
        if id !in closed {
          clients := Delivered(clients, id, Event.Done(reason, active[id], completion));
        }
        active := active - {id};
      }
    }

    method Cancel(id: SequenceId, closed: set<SequenceId>)
      requires Valid()
      modifies this, scheduler.waiting, scheduler.running, scheduler.cache, scheduler.cache.pool
      ensures Valid() && View() == CancelledRequest(old(View()), id, closed)
    {
      hide Retired, Position, RemoveAt, Freed;
      var found := scheduler.Cancel(id);
      if found {
        Retire(id, FinishReason.Cancelled, 0, closed);
      }
    }

    method FinishRequest(id: SequenceId, reason: FinishReason, closed: set<SequenceId>)
      requires Valid()
      modifies this
      ensures Valid() && View() == FinishedRequest(old(View()), id, reason, closed)
    {
      var q := scheduler.running.Get(id);
      Retire(id, reason, if q.Some? then |q.value.output| else 0, closed);
    }

    method ExpireTimeouts(late: set<SequenceId>, closed: set<SequenceId>)
      requires Valid()
      modifies this, scheduler.waiting, scheduler.running
      ensures Valid() && View() == ExpiredRequests(old(View()), late, closed)
    {
      hide Expired, FinishedRequest;
      var ids := scheduler.ExpireTimeouts(late);
      ghost var e := View();
      assert ids[0..] == ids;
      for i := 0 to |ids|
        invariant Valid()
        invariant FinishedAll(View(), ids[i..], Timeout, closed) == FinishedAll(e, ids, Timeout, closed)
      {
        assert ids[i..][1..] == ids[i + 1..];
        FinishRequest(ids[i], Timeout, closed);
      }
    }

    method Reap(closed: set<SequenceId>)
      requires Valid()
      modifies this, scheduler.running, scheduler.cache, scheduler.cache.pool
      ensures Valid() && View() == ReapedRequests(old(View()), closed)
    {
      hide Reaped, Retired;
      var finished := scheduler.ReapFinished();
      ghost var e := View();
      assert finished[0..] == finished;
      for i := 0 to |finished|
        invariant Valid()
        invariant NotifiedAll(View(), finished[i..], closed) == NotifiedAll(e, finished, closed)
      {
        assert finished[i..][1..] == finished[i + 1..];
        var q := finished[i];
        Retire(q.id, if q.finishReason.Some? then q.finishReason.value else FinishReason.Stop, |q.output|, closed);
      }
    }

    /** Assembles the batch row by row; None when the step must fail. */
    method CollectBatch(scheduled: seq<Scheduled>) returns (batch: Option<seq<BatchRow>>)
      ensures batch == BuildBatch(scheduler.View(), scheduled)
    {
      hide RowFor;
      var rows: seq<BatchRow> := [];
      for i := 0 to |scheduled|
        invariant BuildBatch(scheduler.View(), scheduled[..i]) == Some(rows)
      {
        assert scheduled[..i + 1][..i] == scheduled[..i];
        match RowFor(scheduler.View(), scheduled[i]) {
          case Skip =>
          case Fail =>
            FailureIsFinal(scheduler.View(), scheduled, i + 1);
            return None;
          case Run(row) => rows := rows + [row];
        }
      }
      assert scheduled[..|scheduled|] == scheduled;
      batch := Some(rows);
    }

    /** One output row: skip an unfinished prefill, else sample and stream. */
    method SampleAndEmit(row: Row, closed: set<SequenceId>) returns (ok: bool)
      requires Valid()
      modifies this, scheduler.waiting, scheduler.running, scheduler.cache, scheduler.cache.pool
      ensures Valid() && (View(), ok) == EmittedRow(old(View()), row, closed)
    {
      hide CancelledState, WithToken, FinishedRequest, Position;
      var q := scheduler.running.Get(row.id);
      if q.Some? && !q.value.PrefillComplete() {
        return true;
      }
      if !row.hasLogits {
        return false;
      }
      if q.None? || row.id !in active {
        return true;
      }
      if row.token.None? {
        return false;
      }
      var index := SaturatingSub(q.value.TotalLen(), active[row.id]);
      var reason := scheduler.OnToken(row.id, row.token.value, eosIds);
      ok := true;
      if !row.taken {
        var _ := scheduler.Cancel(row.id);
        active := active - {row.id};
        return;
      }
      clients := Delivered(clients, row.id, Token(row.token.value, index));
      if reason.Some? {
        FinishRequest(row.id, reason.value, closed);
      }
    }

    /** Runs one step and counts the rows that ran; an error leaves the rest of the step undone. */
    method Step(input: StepInput) returns (r: Result<nat>)
      requires Valid()
      modifies Footprint()
      ensures Valid() && (View(), r) == Stepped(old(View()), input)
    {
      hide ExpiredRequests, Schedule, BuildBatch, ReapedRequests, EmittedRow;
      ghost var e := View();
      ExpiredRequestsKeepCache(e, input.late, input.closed);
      ExpireTimeouts(input.late, input.closed);
      var scheduled, _, _ := scheduler.ScheduleStep();
      if scheduled == [] {
        Reap(input.closed);
        return Ok(0);
      }
      var batch := CollectBatch(scheduled);
      if batch.None? || input.forward.None? {
        return Err(Internal);
      }
      r := Conclude(scheduled, input.forward.value, input.closed);
    }

    method Conclude(scheduled: seq<Scheduled>, rows: seq<Row>, closed: set<SequenceId>) returns (r: Result<nat>)
      requires Valid()
      modifies Footprint()
      ensures Valid() && (View(), r) == Concluded(old(View()), scheduled, rows, closed)
    {
      hide ReapedRequests, EmittedRow, CommittedState;
      ghost var e := View();
      EmittedRowsWellFormed(e, rows, closed);
      assert rows[0..] == rows;
      for i := 0 to |rows|
        invariant Valid()
        invariant EmittedRows(View(), rows[i..], closed) == EmittedRows(e, rows, closed)
      {
        assert rows[i..][1..] == rows[i + 1..];
        var ok := SampleAndEmit(rows[i], closed);
        if !ok {
          return Err(Internal);
        }
      }
      CommitPrefills(scheduled);
      Reap(closed);
      r := Ok(|rows|);
    }

    method CommitPrefills(scheduled: seq<Scheduled>)
      requires Valid()
      modifies scheduler.cache.pool, scheduler.cache.prefixCache
      ensures Valid() && View() == old(View()).(s := CommitAll(old(scheduler.View()), scheduled))
    {
      hide CommittedState;
      ghost var s := scheduler.View();
      assert scheduled[0..] == scheduled;
      for i := 0 to |scheduled|
        invariant Valid()
        invariant CommitAll(scheduler.View(), scheduled[i..]) == CommitAll(s, scheduled)
      {
        assert scheduled[i..][1..] == scheduled[i + 1..];
        CommittedStateWellFormed(scheduler.View(), scheduled[i].id);
        if scheduled[i].isPrefill {
          scheduler.CommitPrefill(scheduled[i].id);
        }
      }
    }
  }

  /** A row that fails fails the whole batch. */
  lemma {:induction false} FailureIsFinal(s: State, scheduled: seq<Scheduled>, n: nat)
    requires n <= |scheduled| && BuildBatch(s, scheduled[..n]) == None
    ensures BuildBatch(s, scheduled) == None
    decreases |scheduled| - n
  {
    if n < |scheduled| {
      assert scheduled[..n + 1][..n] == scheduled[..n];
      FailureIsFinal(s, scheduled, n + 1);
    } else {
      assert scheduled[..n] == scheduled;
    }
  }
}
