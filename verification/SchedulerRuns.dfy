// Runs of the scheduler: what happens to it, in any order, and which ids come and go.
//
// Runs are unrestricted: a pass may start while sequences that finished or timed out still run.
module SchedulerRuns {
  import opened Prelude
  import opened KvCache
  import opened KvConservation
  import opened Sequences
  import opened Scheduling
  import opened SchedulerOrder
  import opened SchedulerInvariant

  datatype Op =
    | OpAdd(q: Sequence)
    | OpSchedule
    | OpToken(id: SequenceId, token: TokenId, eosIds: seq<TokenId>)
    | OpReap
    | OpCancel(id: SequenceId)
    | OpCommit(id: SequenceId)
    | OpExpire(late: set<SequenceId>)

  /** The scheduler, and the ids of all requests that ever arrived. */
  datatype Life = Life(s: State, seen: set<SequenceId>)

  /** Ids are never given out twice; nothing else is asked of a run. */
  ghost predicate Fresh(v: Life, op: Op) {
    op.OpAdd? ==> op.q.id !in v.seen
  }

  ghost function StepLife(v: Life, op: Op): Life
    requires v.s.cache.WellFormed()
  {
    if !Fresh(v, op) then v
    else
      match op
      case OpAdd(q) => Life(Added(v.s, q), v.seen + {q.id})
      case OpSchedule => v.(s := Schedule(v.s).s)
      case OpToken(id, token, eosIds) => v.(s := Tokened(v.s, id, token, eosIds).0)
      case OpReap => v.(s := Reaped(v.s).0)
      case OpCancel(id) => v.(s := CancelledState(v.s, id).0)
      case OpCommit(id) => v.(s := CommittedState(v.s, id))
      case OpExpire(late) => v.(s := Expired(v.s, late).0)
  }

  // ----- Ids that come and go -----

  /** The id that an operation admits. */
  ghost function ComeIn(v: Life, op: Op): seq<SequenceId>
    requires v.s.cache.WellFormed()
  {
    if Fresh(v, op) && op.OpAdd? && AddCheck(v.s, op.q).None? then [op.q.id] else []
  }

  /** The ids that an operation takes away. */
  ghost function GoneIn(s: State, op: Op): set<SequenceId> {
    match op
    case OpReap => IdSet(FinishedOnly(s.running))
    case OpCancel(id) => CancelledIds(s, id)
    case OpExpire(late) => IdSet(Selected(s.waiting, late))
    case _ => {}
  }

  ghost function Listed(s: State): seq<SequenceId> {
    Ids(s.running) + Ids(s.waiting)
  }

  lemma {:induction false} NobodyGone(ids: seq<SequenceId>)
    ensures Without(ids, {}) == ids
  {
    WithoutOthers(ids, {});
  }

  lemma TokenKeepsIds(s: State, id: SequenceId, token: TokenId, eosIds: seq<TokenId>)
    ensures Listed(Tokened(s, id, token, eosIds).0) == Listed(s)
  {
    hide Position;
    assert Ids(Tokened(s, id, token, eosIds).0.running) == Ids(s.running);
  }

  lemma FinishInKeepsIds(list: seq<Sequence>, late: set<SequenceId>)
    ensures Ids(FinishIn(list, late, Timeout)) == Ids(list)
  {
  }

  lemma SameOrderSameIds(s: State, t: State)
    requires Order(s) == Order(t)
    ensures Listed(s) == Listed(t)
  {
    IdsOfOrder(s);
    IdsOfOrder(t);
  }

  /**
   * Whatever an operation does, passes included, running followed by waiting is the list
   * from before, without the ids that go and with the one that comes at the end.
   */
  lemma StepIds(v: Life, op: Op)
    requires v.s.cache.WellFormed() && NoDuplicates(Listed(v.s))
    ensures Listed(StepLife(v, op).s) == Without(Listed(v.s), GoneIn(v.s, op)) + ComeIn(v, op)
    ensures forall x :: x in GoneIn(v.s, op) ==> x in Listed(v.s)
  {
    hide NoDuplicates, IdSet, Without, AddCheck, Schedule, Tokened, Reaped, CancelledState, CommittedState, Order, CancelledIds,
      FinishIn, Rejected, Selected;
    var s := v.s;
    IdsOfOrder(s);
    NobodyGone(Listed(s));
    match op
    case OpAdd(q) => AddedLast(v, q);
    case OpSchedule =>
      ScheduleKeepsOrder(s);
      SameOrderSameIds(s, Schedule(s).s);
    case OpToken(id, token, eosIds) => TokenKeepsIds(s, id, token, eosIds);
    case OpReap => ReapedIds(s);
    case OpCancel(id) => RemainingIds(s, id);
    case OpCommit(id) => CommittedKeepsIds(s, id);
    case OpExpire(late) =>
      FinishInKeepsIds(s.running, late);
      ExpiredIdsRemain(s, late);
  }

  lemma AddedLast(v: Life, q: Sequence)
    requires v.s.cache.WellFormed()
    ensures Listed(StepLife(v, OpAdd(q)).s) == Listed(v.s) + ComeIn(v, OpAdd(q))
  {
    hide AddCheck;
    IdsPush(v.s.waiting, q);
  }

  lemma CommittedKeepsIds(s: State, id: SequenceId)
    requires s.cache.WellFormed()
    ensures Listed(CommittedState(s, id)) == Listed(s)
  {
    hide Committed;
  }

  ghost predicate AllSeen(v: Life) {
    NoDuplicates(Listed(v.s)) && forall x :: x in Listed(v.s) ==> x in v.seen
  }

  /** Ids stay distinct, and among those seen. */
  lemma StepSeen(v: Life, op: Op)
    requires v.s.cache.WellFormed() && AllSeen(v)
    ensures AllSeen(StepLife(v, op))
  {
    hide StepLife, Without, GoneIn;
    StepIds(v, op);
    WithoutIsSublist(Listed(v.s), GoneIn(v.s, op));
    SeenGrows(v, op);
    if ComeIn(v, op) != [] {
      NoDuplicatesPush(Without(Listed(v.s), GoneIn(v.s, op)), op.q.id);
    }
  }

  lemma SeenGrows(v: Life, op: Op)
    requires v.s.cache.WellFormed()
    ensures v.seen <= StepLife(v, op).seen && forall x :: x in ComeIn(v, op) ==> x in StepLife(v, op).seen
  {
  }

  // ----- Runs -----

  lemma StepLifeWellFormed(v: Life, op: Op)
    requires v.s.cache.WellFormed()
    ensures StepLife(v, op).s.cache.WellFormed()
  {
    hide Schedule, AddCheck, Freed, FreedAll, CommittedState, Position, Tokened, Unfinished;
    match op
    case OpReap => FreedAllWellFormed(v.s.cache, FinishedOnly(v.s.running));
    case OpCancel(id) => FreedWellFormed(v.s.cache, id);
    case OpCommit(id) => CommittedStateWellFormed(v.s, id);
    case _ => TokenedCache(v.s, op);
  }

  lemma TokenedCache(s: State, op: Op)
    ensures op.OpToken? ==> Tokened(s, op.id, op.token, op.eosIds).0.cache == s.cache
  {
  }

  ghost function RunLife(v: Life, ops: seq<Op>): (r: Life)
    requires v.s.cache.WellFormed()
    ensures r.s.cache.WellFormed()
    decreases |ops|
  {
    if ops == [] then v
    else
      StepLifeWellFormed(v, ops[0]);
      RunLife(StepLife(v, ops[0]), ops[1..])
  }

  lemma RunLifeNothing(v: Life)
    requires v.s.cache.WellFormed()
    ensures RunLife(v, []) == v
  {
  }

  lemma {:induction false} RunLifeConcat(v: Life, a: seq<Op>, b: seq<Op>)
    requires v.s.cache.WellFormed()
    ensures RunLife(v, a + b) == RunLife(RunLife(v, a), b)
    decreases |a|
  {
    hide StepLife;
    if a == [] {
      assert a + b == b;
    } else {
      StepLifeWellFormed(v, a[0]);
      RunLifeConcat(StepLife(v, a[0]), a[1..], b);
      assert (a + b)[1..] == a[1..] + b;
    }
  }

  lemma RunLifeOne(v: Life, op: Op)
    requires v.s.cache.WellFormed()
    ensures RunLife(v, [op]) == StepLife(v, op)
  {
    hide StepLife;
    StepLifeWellFormed(v, op);
    assert RunLife(StepLife(v, op), []) == StepLife(v, op);
  }

  lemma RunLifeTwo(v: Life, a: Op, b: Op)
    requires v.s.cache.WellFormed()
    ensures StepLife(v, a).s.cache.WellFormed()
    ensures RunLife(v, [a, b]) == StepLife(StepLife(v, a), b)
  {
    hide StepLife;
    StepLifeWellFormed(v, a);
    RunLifeOne(v, a);
    RunLifeOne(StepLife(v, a), b);
    RunLifeConcat(v, [a], [b]);
    assert [a] + [b] == [a, b];
  }

  lemma RunLifePush(v: Life, ops: seq<Op>, op: Op)
    requires v.s.cache.WellFormed()
    ensures RunLife(v, ops + [op]) == StepLife(RunLife(v, ops), op)
  {
    hide StepLife, RunLife;
    RunLifeConcat(v, ops, [op]);
    RunLifeOne(RunLife(v, ops), op);
  }

  function NewLife(config: Config, numBlocks: nat, blockSize: nat, prefixCaching: bool): Life {
    Life(NewState(config, NewManager(numBlocks, blockSize, prefixCaching)), {})
  }

  lemma NewLifeIsEmpty(config: Config, numBlocks: nat, blockSize: nat, prefixCaching: bool)
    requires blockSize > 0
    ensures var v := NewLife(config, numBlocks, blockSize, prefixCaching);
            v.s.cache.WellFormed() && Healthy(v.s) && Listed(v.s) == [] && AllSeen(v)
  {
    NewIsHealthy(config, numBlocks, blockSize, prefixCaching);
    HealthyIsWellFormed(NewState(config, NewManager(numBlocks, blockSize, prefixCaching)));
  }

  /** The scheduler after a run that starts with an empty cache and empty queues. */
  ghost function After(config: Config, numBlocks: nat, blockSize: nat, prefixCaching: bool, ops: seq<Op>): (s: State)
    requires blockSize > 0
    ensures s.cache.WellFormed()
  {
    NewLifeIsEmpty(config, numBlocks, blockSize, prefixCaching);
    RunLife(NewLife(config, numBlocks, blockSize, prefixCaching), ops).s
  }

  // ----- Runs in which nobody finished runs on -----

  /** Requests arrive without progress, and a pass starts with no finished sequence running. */
  ghost predicate Orderly(s: State, op: Op) {
    match op
    case OpAdd(q) => Queued(q)
    case OpSchedule => NoneFinished(s)
    case _ => true
  }

  ghost predicate OrderlyRun(v: Life, ops: seq<Op>)
    requires v.s.cache.WellFormed()
    decreases |ops|
  {
    if ops == [] then true
    else
      StepLifeWellFormed(v, ops[0]);
      Orderly(v.s, ops[0]) && OrderlyRun(StepLife(v, ops[0]), ops[1..])
  }

  /** Every orderly operation keeps queues and cache in agreement. */
  lemma StepStaysHealthy(v: Life, op: Op)
    requires Healthy(v.s) && AllSeen(v) && Orderly(v.s, op)
    ensures v.s.cache.WellFormed() && Healthy(StepLife(v, op).s)
  {
    hide Healthy, Queued, NoneFinished, Schedule, Added, Tokened, Reaped, CancelledState, CommittedState, Expired, Order;
    HealthyIsWellFormed(v.s);
    IdsOfOrder(v.s);
    match op
    case OpAdd(q) =>
      if Fresh(v, op) {
        AddHealthy(v.s, q);
      }
    case OpSchedule => ScheduleOk(v.s);
    case OpToken(id, token, eosIds) => TokenHealthy(v.s, id, token, eosIds);
    case OpReap => ReapHealthy(v.s);
    case OpCancel(id) => CancelHealthy(v.s, id);
    case OpCommit(id) => CommitHealthy(v.s, id);
    case OpExpire(late) => ExpireHealthy(v.s, late);
  }

  lemma {:induction false} RunStaysHealthy(v: Life, ops: seq<Op>)
    requires Healthy(v.s) && AllSeen(v) && v.s.cache.WellFormed() && OrderlyRun(v, ops)
    ensures Healthy(RunLife(v, ops).s)
    decreases |ops|
  {
    hide Healthy, AllSeen, StepLife, Orderly;
    if ops != [] {
      StepLifeWellFormed(v, ops[0]);
      StepStaysHealthy(v, ops[0]);
      StepSeen(v, ops[0]);
      RunStaysHealthy(StepLife(v, ops[0]), ops[1..]);
    }
  }

  /**
   * Over every orderly run: the sequences with a block table are exactly the running ones,
   * waiting ones have no prefill progress, and once nothing runs every block is free.
   */
  lemma QueuesAndCacheAgree(config: Config, numBlocks: nat, blockSize: nat, prefixCaching: bool, ops: seq<Op>)
    requires blockSize > 0
    requires var v := NewLife(config, numBlocks, blockSize, prefixCaching); v.s.cache.WellFormed() && OrderlyRun(v, ops)
    ensures var s := After(config, numBlocks, blockSize, prefixCaching, ops);
            && Consistent(s.cache) && s.cache.tables.Keys == IdSet(s.running)
            && (forall i :: 0 <= i < |s.waiting| ==> s.waiting[i].state.Waiting? && s.waiting[i].computed == 0)
            && (s.running == [] ==> |s.cache.pool.freeList| == |s.cache.pool.blocks|)
  {
    hide Consistent, NoDuplicates, RunLife, OrderlyRun, AllSeen, Resident;
    var v := NewLife(config, numBlocks, blockSize, prefixCaching);
    NewLifeIsEmpty(config, numBlocks, blockSize, prefixCaching);
    RunStaysHealthy(v, ops);
    var s := After(config, numBlocks, blockSize, prefixCaching, ops);
    assert forall i :: 0 <= i < |s.waiting| ==> Queued(s.waiting[i]);
    if s.running == [] {
      NotInAny(s.running);
      assert s.cache.tables == map[];
      NoTablesAllFree(s.cache);
    }
  }
}
