// The queue can stall for good: a finished sequence at its head, and a run that puts it there.
module QueueStall {
  import opened Prelude
  import opened Arithmetic
  import opened PoolInvariant
  import opened KvCache
  import opened KvConservation
  import opened Sequences
  import opened Scheduling
  import opened SchedulerOrder
  import opened SchedulerInvariant
  import opened EngineSteps
  import opened StreamProtocol
  import opened NoStall
  import opened EngineRuns
  import opened BatchAcceptance
  import opened SmallPasses
  import opened TimeoutSteps
  import opened FinishedRunning
  import Drain

  // ----- A blocked engine stays blocked -----

  /** Nothing runs, and the head of the queue is a finished sequence with its prompt through. */
  ghost predicate Blocked(s: State) {
    s.running == [] && s.waiting != [] && s.waiting[0].state.Finished? && s.waiting[0].PrefillComplete()
  }

  /** Whatever the configuration, the pass does nothing. */
  lemma BlockedPassIsEmpty(s: State)
    requires s.cache.WellFormed() && Blocked(s)
    ensures Schedule(s) == StartPass(s)
  {
    var start, budget := StartPass(s), s.config.maxBatchedTokens;
    assert DecodeCandidates(s.running) == [] && PartialCandidates(s.running) == [];
    CompleteHeadBlocksTheQueue(start, budget);
  }

  ghost function TokenCount(received: seq<Event>): nat {
    if received == [] then 0
    else TokenCount(received[..|received| - 1]) + if received[|received| - 1].Token? then 1 else 0
  }

  /** No caller has received a token since. */
  ghost predicate NoNewTokens(e: EngineState, f: EngineState) {
    && (forall id :: id in e.clients ==> id in f.clients)
    && (forall id :: id in f.clients ==>
          TokenCount(f.clients[id].received) == if id in e.clients then TokenCount(e.clients[id].received) else 0)
  }

  lemma NoNewTokensTransitive(e: EngineState, f: EngineState, g: EngineState)
    requires NoNewTokens(e, f) && NoNewTokens(f, g)
    ensures NoNewTokens(e, g)
  {
  }

  lemma RetiredSendsNoToken(e: EngineState, id: SequenceId, reason: FinishReason, completion: nat, closed: set<SequenceId>)
    ensures NoNewTokens(e, Retired(e, id, reason, completion, closed))
  {
    if id in e.active && id in e.clients {
      var was := e.clients[id].received;
      var now := was + [Event.Done(reason, e.active[id], completion)];
      assert now[..|now| - 1] == was;
    }
  }

  lemma {:induction false} FinishedAllSendsNoToken(e: EngineState, ids: seq<SequenceId>, reason: FinishReason, closed: set<SequenceId>)
    ensures NoNewTokens(e, FinishedAll(e, ids, reason, closed))
    decreases |ids|
  {
    hide NoNewTokens, Retired;
    if ids == [] {
      SameClients(e, e);
    } else {
      var next := FinishedRequest(e, ids[0], reason, closed);
      RetiredSendsNoToken(e, ids[0], reason, OutputLen(e.s, ids[0]), closed);
      FinishedAllSendsNoToken(next, ids[1..], reason, closed);
      NoNewTokensTransitive(e, next, FinishedAll(next, ids[1..], reason, closed));
    }
  }

  lemma SameClients(e: EngineState, f: EngineState)
    requires f.clients == e.clients
    ensures NoNewTokens(e, f)
  {
  }

  /** The request at the head is neither cancelled nor late. */
  predicate Spares(call: Call, id: SequenceId) {
    match call
    case Submit(_, _) => true
    case Cancel(x, _) => x != id
    case Step(input) => id !in input.late
  }

  ghost predicate SameHead(s: State, t: State) {
    Blocked(s) && Blocked(t) && t.waiting[0] == s.waiting[0]
  }

  lemma BlockedExpiry(s: State, late: set<SequenceId>)
    requires Blocked(s) && s.waiting[0].id !in late
    ensures SameHead(s, Expired(s, late).0)
  {
    assert s.waiting == [s.waiting[0]] + s.waiting[1..];
    RejectedFirst(s.waiting[0], s.waiting[1..], late);
  }

  /** A step runs nobody and sends no token. */
  lemma BlockedStep(e: EngineState, input: StepInput)
    requires e.s.cache.WellFormed() && Blocked(e.s) && e.s.waiting[0].id !in input.late
    ensures var (f, r) := Stepped(e, input); r == Ok(0) && SameHead(e.s, f.s) && NoNewTokens(e, f)
  {
    hide Expired, Schedule, NoNewTokens, FinishedAll, Blocked;
    BlockedExpiry(e.s, input.late);
    ExpiredRequestsKeepCache(e, input.late, input.closed);
    var (s, ids) := Expired(e.s, input.late);
    var expired := ExpiredRequests(e, input.late, input.closed);
    BlockedPassIsEmpty(s);
    SameClients(e, e.(s := s));
    FinishedAllSendsNoToken(e.(s := s), ids, Timeout, input.closed);
    NoNewTokensTransitive(e, e.(s := s), expired);
    BlockedReap(expired, input.closed);
  }

  lemma BlockedReap(e: EngineState, closed: set<SequenceId>)
    requires Blocked(e.s)
    ensures ReapedRequests(e, closed) == e
  {
    assert Unfinished([]) == [] && FinishedOnly([]) == [];
    assert FreedAll(e.s.cache, []) == e.s.cache;
    assert NotifiedAll(e, [], closed) == e;
  }

  lemma BlockedSubmit(e: EngineState, prompt: seq<TokenId>, params: SamplingParams)
    requires Protocol(e) && e.s.cache.WellFormed() && Blocked(e.s)
    ensures var f := Submitted(e, prompt, params).0; SameHead(e.s, f.s) && NoNewTokens(e, f)
  {
    hide AddCheck;
  }

  lemma BlockedCancel(e: EngineState, id: SequenceId, closed: set<SequenceId>)
    requires Blocked(e.s) && e.s.waiting[0].id != id
    ensures var f := CancelledRequest(e, id, closed); SameHead(e.s, f.s) && NoNewTokens(e, f)
  {
    hide NoNewTokens, Freed;
    var (s, found) := CancelledState(e.s, id);
    SameClients(e, e.(s := s));
    SameClients(e, e);
    RetiredSendsNoToken(e.(s := s), id, Cancelled, 0, closed);
    NoNewTokensTransitive(e, e.(s := s), Retired(e.(s := s), id, Cancelled, 0, closed));
  }

  /**
   * Once blocked, an engine stays blocked through any calls that do not name the request at
   * the head, however many requests arrive: no caller receives another token. Without a
   * request timeout, only a cancellation of a request that has already finished would help.
   */
  lemma {:induction false} BlockedForGood(e: EngineState, calls: seq<Call>)
    requires Protocol(e) && Blocked(e.s)
    requires forall k :: 0 <= k < |calls| ==> Spares(calls[k], e.s.waiting[0].id)
    ensures var f := RunEngine(e, calls); SameHead(e.s, f.s) && NoNewTokens(e, f)
    decreases |calls|
  {
    hide NoNewTokens, Submitted, CancelledRequest, Stepped, Serves;
    if calls == [] {
      SameClients(e, e);
    } else {
      CallKeeps(e, calls[0]);
      assert Spares(calls[0], e.s.waiting[0].id);
      match calls[0] {
        case Submit(prompt, params) => BlockedSubmit(e, prompt, params);
        case Cancel(id, closed) => BlockedCancel(e, id, closed);
        case Step(input) => BlockedStep(e, input);
      }
      var next := Called(e, calls[0]);
      BlockedForGood(next, calls[1..]);
      NoNewTokensTransitive(e, next, RunEngine(next, calls[1..]));
    }
  }

  // ----- A run that blocks -----

  const PAIR := Config(2, 8, None, true, 4, true)

  /** One token, sampled greedily. */
  const ONE_TOKEN := PlainParams(1).(temperature := Some(0.0))

  function Started(id: SequenceId): Sequence {
    NewSequence(id, [id], ONE_TOKEN).(computed := 1, state := Decoding)
  }

  function Ended(): Sequence {
    Started(0).(output := [0], state := Finished, finishReason := Some(FinishReason.Length))
  }

  const LONG := NewSequence(2, [0, 0, 0, 0, 0], ONE_TOKEN)

  /** Two blocks of four tokens; so many tables are held. */
  ghost predicate Pooled(m: Manager, held: set<SequenceId>) {
    && Consistent(m) && |m.pool.blocks| == 2 && m.pool.blockSize == 4 && m.tables.Keys == held
    && (forall id :: id in held ==> m.tables[id].numTokens == 1)
  }

  lemma PooledIsWellFormed(m: Manager, held: set<SequenceId>)
    requires Pooled(m, held)
    ensures m.WellFormed()
  {
  }

  /** One table of one block leaves the other block free. */
  lemma OneTableHeld(m: Manager, id: SequenceId)
    requires Pooled(m, {id})
    ensures |m.pool.freeList| == 1
  {
    PooledIsWellFormed(m, {id});
    assert CeilDiv(1, 4) == 1;
    var b := m.tables[id].blocks[0];
    assert m.tables[id].blocks == [b];
    AllRefsOf(m.tables, id);
    assert m.tables - {id} == map[];
    assert AllRefs(m.tables) == multiset{b};
    assert Held(AllRefs(m.tables)) == {b};
    FreeBlocksExact(m);
  }

  lemma FirstIsAdmitted(p: Pass)
    requires p == StartPass(State(PAIR, [NewSequence(0, [0], ONE_TOKEN), NewSequence(1, [1], ONE_TOKEN)], [], NewManager(2, 4, false)))
    ensures p.s.cache.WellFormed() && RoomFor(p, 8) && Admissible(p.s)
    ensures var q := AdmittedFirst(p, 8);
            && q.s.config == PAIR && q.s.running == [Started(0)] && q.s.waiting == [NewSequence(1, [1], ONE_TOKEN)]
            && Pooled(q.s.cache, {0}) && q.used == 1 && q.scheduled == [Scheduled(0, 1, 0, true)]
  {
    hide Consistent, Allocated;
    NewManagerConsistent(2, 4, false);
    ConsistentIsWellFormed(p.s.cache);
    assert CeilDiv(1, 4) == 1;
    FreshAllocation(p.s.cache, 0, [0]);
  }

  lemma SecondIsAdmitted(q: Pass)
    requires q.s.config == PAIR && q.s.running == [Started(0)] && q.s.waiting == [NewSequence(1, [1], ONE_TOKEN)]
    requires Pooled(q.s.cache, {0}) && q.used == 1 && q.scheduled == [Scheduled(0, 1, 0, true)]
    ensures q.s.cache.WellFormed() && RoomFor(q, 8) && Admissible(q.s)
    ensures var r := AdmittedFirst(q, 8);
            && r.s.config == PAIR && r.s.running == [Started(0), Started(1)] && r.s.waiting == []
            && Pooled(r.s.cache, {0, 1})
            && r.scheduled == [Scheduled(0, 1, 0, true), Scheduled(1, 1, 0, true)]
  {
    hide Pooled, Allocated;
    SecondAllocates(q.s.cache);
  }

  lemma SecondAllocates(m: Manager)
    requires Pooled(m, {0})
    ensures m.WellFormed() && CanAllocate(m, 1) && Allocated(m, 1, [1]).1.Ok? && Pooled(Allocated(m, 1, [1]).0, {0, 1})
  {
    hide Consistent, Allocated;
    PooledIsWellFormed(m, {0});
    OneTableHeld(m, 0);
    assert CeilDiv(1, 4) == 1;
    AllocationIsExact(m, 1, [1]);
    hide CeilDiv;
    AllocationKeys(m, 1, [1]);
    AllocationKeepsTables(m, 1, [1]);
    Drain.AllocationTables(m, 1, [1]);
  }

  /** The pass over two new requests of one token each admits both. */
  lemma BothAreAdmitted(s: State)
    requires s == State(PAIR, [NewSequence(0, [0], ONE_TOKEN), NewSequence(1, [1], ONE_TOKEN)], [], NewManager(2, 4, false))
    ensures s.cache.WellFormed()
    ensures var r := Schedule(s);
            && r.s.config == PAIR && r.s.running == [Started(0), Started(1)] && r.s.waiting == []
            && Pooled(r.s.cache, {0, 1})
            && r.scheduled == [Scheduled(0, 1, 0, true), Scheduled(1, 1, 0, true)]
  {
    hide Admit, AdmittedFirst, Schedule, Pooled, RoomFor, Admissible;
    var p := StartPass(s);
    FirstIsAdmitted(p);
    OnlyAdmission(s);
    AdmitsHead(p, 8);
    var q := AdmittedFirst(p, 8);
    SecondIsAdmitted(q);
    AdmitsHead(q, 8);
    AdmitEnds(AdmittedFirst(q, 8), 8);
  }

  // ----- The calls -----

  /**
   * One row gives the only token its request wants. The next row has logits, but the greedy
   * sampler takes none of them, as when no logit is a number, so the step fails before it
   * reaps.
   */
  const HALF_DONE := StepInput({}, Some([Row(0, true, Some(0), true), Row(1, true, None, true)]), {})

  const QUIET := StepInput({}, None, {})

  const STALL: seq<Call> := [
    Submit([0], ONE_TOKEN), Submit([1], ONE_TOKEN), Step(HALF_DONE), Cancel(1, {}), Submit(LONG.prompt, ONE_TOKEN), Step(QUIET)]

  const FIRST := Client([0], ONE_TOKEN, [])
  const SECOND := Client([1], ONE_TOKEN, [])

  function OneRequest(): EngineState {
    EngineState(State(PAIR, [NewSequence(0, [0], ONE_TOKEN)], [], NewManager(2, 4, false)), map[0 := 1], map[0 := FIRST], 1, [])
  }

  function TwoRequests(): EngineState {
    EngineState(State(PAIR, [NewSequence(0, [0], ONE_TOKEN), NewSequence(1, [1], ONE_TOKEN)], [], NewManager(2, 4, false)),
                map[0 := 1, 1 := 1], map[0 := FIRST, 1 := SECOND], 2, [])
  }

  lemma TwoArrive()
    ensures var e := FreshEngine(PAIR, 2, 4, false, []);
            && Called(e, STALL[0]).s.cache.WellFormed()
            && Called(Called(e, STALL[0]), STALL[1]) == TwoRequests()
  {
    hide Called;
    FirstArrives();
    SecondArrives();
  }

  lemma FirstArrives()
    ensures Called(FreshEngine(PAIR, 2, 4, false, []), STALL[0]) == OneRequest() && OneRequest().s.cache.WellFormed()
  {
    NewManagerConsistent(2, 4, false);
    assert CeilDiv(1, 4) == 1;
  }

  lemma SecondArrives()
    requires OneRequest().s.cache.WellFormed()
    ensures Called(OneRequest(), STALL[1]) == TwoRequests()
  {
    assert CeilDiv(1, 4) == 1;
    assert [NewSequence(0, [0], ONE_TOKEN)] + [NewSequence(1, [1], ONE_TOKEN)]
           == [NewSequence(0, [0], ONE_TOKEN), NewSequence(1, [1], ONE_TOKEN)];
    assert map[0 := 1][1 := 1] == map[0 := 1, 1 := 1];
    assert map[0 := FIRST][1 := SECOND] == map[0 := FIRST, 1 := SECOND];
  }

  /** The first request has finished and still runs; the second is owed its token. */
  ghost predicate LeftRunning(e: EngineState) {
    && e.s.config == PAIR && e.s.running == [Ended(), Started(1)] && e.s.waiting == [] && Pooled(e.s.cache, {0, 1})
    && e.active == map[1 := 1] && e.nextId == 2 && e.eosIds == []
  }

  lemma RowsOfHalfDone(e: EngineState)
    requires e.s.config == PAIR && e.s.running == [Started(0), Started(1)] && e.s.waiting == [] && Pooled(e.s.cache, {0, 1})
    requires e.active == map[0 := 1, 1 := 1] && e.nextId == 2 && e.eosIds == []
    ensures var (f, ok) := EmittedRows(e, HALF_DONE.forward.value, {});
            !ok && LeftRunning(f)
  {
    hide Pooled, Delivered;
    var rows := HALF_DONE.forward.value;
    assert [] + [0] == [0];
    assert WithToken(Started(0), 0, []) == (Ended(), Some(FinishReason.Length));
    var f := EmittedRow(e, rows[0], {}).0;
    assert f.s.running == [Ended(), Started(1)];
    assert map[0 := 1, 1 := 1] - {0} == map[1 := 1];
    assert f.active == map[1 := 1];
    assert Position(f.s.running, 1) == 1;
    assert EmittedRow(f, rows[1], {}) == (f, false);
    assert rows[1..] == [rows[1]];
    assert EmittedRows(f, rows[1..], {}) == (f, false);
  }

  lemma StepIsHalfDone()
    ensures TwoRequests().s.cache.WellFormed() && LeftRunning(Called(TwoRequests(), STALL[2]))
  {
    hide Pooled, Schedule, ExpiredRequests, BuildBatch, EmittedRows, LeftRunning;
    var e := TwoRequests();
    BothAreAdmitted(e.s);
    NobodyExpires(e, {});
    var p := Schedule(e.s);
    BatchOfTwo(p);
    RowsOfHalfDone(e.(s := p.s));
  }

  lemma BatchOfTwo(p: Pass)
    requires p.s.running == [Started(0), Started(1)] && Pooled(p.s.cache, {0, 1})
    requires p.scheduled == [Scheduled(0, 1, 0, true), Scheduled(1, 1, 0, true)]
    ensures BuildBatch(p.s, p.scheduled).Some?
  {
    hide BuildBatch;
    BatchBuildsExactly(p.s, p.scheduled);
    assert Position(p.s.running, 0) == 0 && Position(p.s.running, 1) == 1;
  }

  /** The finished sequence runs alone, with one block free. */
  ghost predicate Lingers(e: EngineState, waiting: seq<Sequence>) {
    e.s.config == PAIR && e.s.running == [Ended()] && e.s.waiting == waiting && Pooled(e.s.cache, {0})
  }

  lemma SecondIsCancelled(e: EngineState)
    requires LeftRunning(e)
    ensures Lingers(Called(e, STALL[3]), []) && Called(e, STALL[3]).nextId == 2
  {
    hide Consistent, Freed, Delivered;
    FreeingConserves(e.s.cache, 1);
    assert Position(e.s.running, 1) == 1;
    assert RemoveAt(e.s.running, 1) == [Ended()];
  }

  lemma LongArrives(e: EngineState)
    requires Lingers(e, []) && e.nextId == 2 && e.s.cache.WellFormed()
    ensures Lingers(Called(e, STALL[4]), [LONG]) && 2 in Called(e, STALL[4]).active
  {
    hide Pooled;
    PooledSizes(e.s.cache);
    assert CeilDiv(5, 4) == 2;
  }

  lemma PooledSizes(m: Manager)
    requires Pooled(m, {0})
    ensures |m.pool.blocks| == 2 && m.pool.blockSize == 4
  {
  }

  /** The newcomer needs both blocks: the finished sequence is evicted, and takes the head of the queue. */
  lemma QuietStepBlocks(e: EngineState)
    requires Lingers(e, [LONG]) && e.s.cache.WellFormed()
    ensures var f := Called(e, STALL[5]).s;
            Blocked(f) && f.waiting == [Ended(), LONG] && |f.cache.pool.freeList| == |f.cache.pool.blocks| == 2
  {
    hide Schedule, Stepped, Expired, Consistent, Reaped, NewestMakesWay, Healthy;
    OneTableHeld(e.s.cache, 0);
    NobodyExpires(e, {});
    LingersIsHealthy(e.s);
    assert CeilDiv(5, 4) == 2;
    FinishedVictimStopsThePass(e.s);
    EmptyStep(e, QUIET);
    OnlyOneLeaves(e.s, Schedule(e.s));
  }

  lemma LingersIsHealthy(s: State)
    requires s.config == PAIR && s.running == [Ended()] && s.waiting == [LONG] && Pooled(s.cache, {0})
    ensures Outstanding(s)
  {
    hide Consistent;
    assert IdSet(s.running) == {0} by {
      assert s.running[0].id == 0;
    }
    assert Ids(Order(s)) == [0, 2];
    assert CeilDiv(1, 4) == 1 && CeilDiv(5, 4) == 2;
  }

  /** With one sequence running, its eviction frees every block and leaves nothing to reap. */
  lemma OnlyOneLeaves(s: State, r: Pass)
    requires Healthy(s) && |s.running| == 1 < s.config.maxNumSeqs && NewestMakesWay(s, r)
    ensures var t := Reaped(r.s).0;
            && t.running == [] && t.waiting == s.running + s.waiting
            && |t.cache.pool.freeList| == |t.cache.pool.blocks| == |s.cache.pool.blocks|
  {
    hide Consistent, Order;
    assert s.running == [s.running[0]];
    IdSetOne(s.running[0]);
    assert r.s.running == [] && r.s.cache.tables == map[];
    assert Unfinished([]) == [] && FinishedOnly([]) == [];
    assert FreedAll(r.s.cache, []) == r.s.cache;
    NoTablesAllFree(r.s.cache);
  }

  /** The engine after the first k calls. */
  ghost function Stalling(k: nat): (e: EngineState)
    requires k <= |STALL|
    ensures Protocol(e)
  {
    EngineAfter(PAIR, 2, 4, false, [], STALL[..k])
  }

  lemma StallStep(k: nat)
    requires k < |STALL|
    ensures Stalling(k).s.cache.WellFormed() && Stalling(k + 1) == Called(Stalling(k), STALL[k])
  {
    hide Called, RunEngine, Serves;
    FreshEngineServes(PAIR, 2, 4, false, []);
    assert STALL[..k + 1] == STALL[..k] + [STALL[k]];
    RunEnginePush(FreshEngine(PAIR, 2, 4, false, []), STALL[..k], STALL[k]);
  }

  lemma StallStart()
    ensures Stalling(0) == FreshEngine(PAIR, 2, 4, false, [])
  {
    hide Serves;
    FreshEngineServes(PAIR, 2, 4, false, []);
  }

  /**
   * The input that stalls for good, with no deadline in sight: two requests start; the first
   * finishes in a step that then fails on the second, so that it is not reaped; the second
   * is cancelled; a third, for which both blocks are needed, arrives. One step later the
   * finished sequence is at the head of the queue, and all blocks are free.
   */
  lemma TheQueueBlocks()
    ensures var e := EngineAfter(PAIR, 2, 4, false, [], STALL);
            && Blocked(e.s) && e.s.waiting == [Ended(), LONG]
            && |e.s.cache.pool.freeList| == |e.s.cache.pool.blocks| == 2
  {
    hide Stalling, Called, LeftRunning, Lingers, Blocked, EngineAfter;
    HalfWay();
    StallStep(3);
    SecondIsCancelled(Stalling(3));
    StallStep(4);
    LongArrives(Stalling(4));
    StallStep(5);
    QuietStepBlocks(Stalling(5));
    WholeStall();
  }

  lemma HalfWay()
    ensures LeftRunning(Stalling(3))
  {
    hide Stalling, Called, LeftRunning;
    StallStart();
    StallStep(0);
    StallStep(1);
    TwoArrive();
    StallStep(2);
    StepIsHalfDone();
  }

  lemma WholeStall()
    ensures Stalling(|STALL|) == EngineAfter(PAIR, 2, 4, false, [], STALL)
  {
    hide EngineAfter;
    assert STALL[..|STALL|] == STALL;
  }
}
