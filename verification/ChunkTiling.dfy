// The prefill chunks of a sequence tile its progress, over every run.
module ChunkTiling {
  import opened Prelude
  import opened Arithmetic
  import opened KvCache
  import opened Sequences
  import opened Scheduling
  import opened SchedulerOrder
  import opened SchedulerInvariant
  import opened SchedulerRuns

  /** Prompt tokens covered by the prefill chunks of `id` since the last one that started at zero. */
  ghost function Coverage(log: seq<Scheduled>, id: SequenceId): nat {
    if log == [] then 0
    else
      var covered, e := Coverage(log[..|log| - 1], id), log[|log| - 1];
      if e.id != id || !e.isPrefill then covered
      else if e.startPosition == 0 then e.numTokens
      else covered + e.numTokens
  }

  /** Each chunk starts where the previous one of its sequence ended, or anew at zero. */
  ghost predicate Contiguous(log: seq<Scheduled>) {
    forall k :: 0 <= k < |log| && log[k].isPrefill ==>
      log[k].startPosition == 0 || log[k].startPosition == Coverage(log[..k], log[k].id)
  }

  /**
   * Whoever runs is exactly as far as its chunks reach. So is whoever waits with progress,
   * as a sequence does that had finished when it was evicted.
   */
  ghost predicate Covered(log: seq<Scheduled>, s: State) {
    && (forall i :: 0 <= i < |s.running| ==> s.running[i].computed == Coverage(log, s.running[i].id))
    && (forall i :: 0 <= i < |s.waiting| ==>
          s.waiting[i].computed == 0 || s.waiting[i].computed == Coverage(log, s.waiting[i].id))
  }

  lemma CoveragePush(log: seq<Scheduled>, e: Scheduled, id: SequenceId)
    ensures Coverage(log + [e], id)
            == if e.id != id || !e.isPrefill then Coverage(log, id)
               else if e.startPosition == 0 then e.numTokens
               else Coverage(log, id) + e.numTokens
  {
    assert (log + [e])[..|log|] == log;
  }

  lemma ContiguousPush(log: seq<Scheduled>, e: Scheduled)
    requires Contiguous(log)
    requires e.isPrefill ==> e.startPosition == 0 || e.startPosition == Coverage(log, e.id)
    ensures Contiguous(log + [e])
  {
    var more := log + [e];
    forall k | 0 <= k < |more| && more[k].isPrefill
      ensures more[k].startPosition == 0 || more[k].startPosition == Coverage(more[..k], more[k].id)
    {
      assert more[..k] == log[..k];
      assert log[..|log|] == log;
    }
  }

  // ----- One pass -----

  /** The tiling inside a pass that follows the batches in `log`. */
  ghost predicate PassTiles(log: seq<Scheduled>, p: Pass) {
    NoDuplicates(Listed(p.s)) && Contiguous(log + p.scheduled) && Covered(log + p.scheduled, p.s)
  }

  lemma ListedApart(s: State)
    requires NoDuplicates(Listed(s))
    ensures DistinctIds(s.running)
    ensures forall i, j :: 0 <= i < |s.running| && 0 <= j < |s.waiting| ==> s.running[i].id != s.waiting[j].id
    ensures forall i, j :: 0 <= i < j < |s.waiting| ==> s.waiting[i].id != s.waiting[j].id
  {
    IdsOfOrder(s);
    IdsAreDistinct(s);
  }

  lemma PreemptTiles(log: seq<Scheduled>, p: Pass)
    requires PassTiles(log, p) && PreemptOne(p).Some?
    ensures PassTiles(log, PreemptOne(p).value)
  {
    hide Contiguous, Coverage, Freed, NoDuplicates;
    PreemptKeepsOrder(p);
    SameOrderSameIds(p.s, PreemptOne(p).value.s);
  }

  lemma TryAppendTiles(log: seq<Scheduled>, p: Pass, id: SequenceId, totalLen: nat)
    requires PassTiles(log, p) && p.s.cache.WellFormed()
    ensures PassTiles(log, TryAppend(p, id, totalLen).0)
  {
    hide Appended, Contiguous, NoDuplicates;
    var (q, ok) := TryAppend(p, id, totalLen);
    if ok {
      var e := Scheduled(id, 1, totalLen, false);
      assert log + q.scheduled == log + p.scheduled + [e];
      ContiguousPush(log + p.scheduled, e);
      DecodeCoversNothing(log + p.scheduled, e, p.s);
    }
  }

  lemma DecodeCoversNothing(log: seq<Scheduled>, e: Scheduled, s: State)
    requires Covered(log, s) && !e.isPrefill
    ensures Covered(log + [e], s)
  {
    hide Coverage;
    forall id: SequenceId ensures Coverage(log + [e], id) == Coverage(log, id) {
      CoveragePush(log, e, id);
    }
  }

  lemma DecodeOneTiles(log: seq<Scheduled>, p: Pass, id: SequenceId, totalLen: nat)
    requires PassTiles(log, p) && p.s.cache.WellFormed()
    ensures PassTiles(log, DecodeOne(p, id, totalLen).0)
  {
    hide PassTiles, TryAppend, PreemptOne;
    TryAppendTiles(log, p, id, totalLen);
    TryAppendWellFormed(p, id, totalLen);
    var q := TryAppend(p, id, totalLen).0;
    PreemptOneWellFormed(q);
    if PreemptOne(q).Some? {
      PreemptTiles(log, q);
      TryAppendTiles(log, PreemptOne(q).value, id, totalLen);
    }
  }

  lemma {:induction false} DecodesTile(log: seq<Scheduled>, p: Pass, candidates: seq<(SequenceId, nat)>, budget: nat)
    requires PassTiles(log, p) && p.s.cache.WellFormed()
    ensures PassTiles(log, Decodes(p, candidates, budget))
    decreases |candidates|
  {
    hide DecodeOne, PassTiles;
    if candidates != [] && p.used < budget {
      DecodeOneWellFormed(p, candidates[0].0, candidates[0].1);
      DecodeOneTiles(log, p, candidates[0].0, candidates[0].1);
      var (q, go) := DecodeOne(p, candidates[0].0, candidates[0].1);
      if go {
        DecodesTile(log, q, candidates[1..], budget);
      }
    }
  }

  /** A chunk of one sequence moves it on by that much, and nobody else. */
  lemma ChunkCovers(log: seq<Scheduled>, e: Scheduled)
    requires Contiguous(log) && e.isPrefill && (e.startPosition == 0 || e.startPosition == Coverage(log, e.id))
    ensures Contiguous(log + [e]) && Coverage(log + [e], e.id) == e.startPosition + e.numTokens
    ensures forall id: SequenceId :: id != e.id ==> Coverage(log + [e], id) == Coverage(log, id)
  {
    hide Contiguous, Coverage;
    ContiguousPush(log, e);
    CoveragePush(log, e, e.id);
    forall id: SequenceId | id != e.id ensures Coverage(log + [e], id) == Coverage(log, id) {
      CoveragePush(log, e, id);
    }
  }

  lemma PartialOneTiles(log: seq<Scheduled>, p: Pass, c: PartialPrefill, budget: nat)
    requires PassTiles(log, p) && PartialMatches(p.s.running, c) && p.used < budget
    ensures PassTiles(log, PartialOne(p, c, budget))
  {
    hide Contiguous, Coverage, NoDuplicates, Prefilled, DistinctIds;
    var pos, q := Position(p.s.running, c.id), PartialOne(p, c, budget);
    if q != p {
      var chunk := Chunk(p.s.config, c.remaining, budget - p.used).value;
      var e := Scheduled(c.id, chunk, c.already, true);
      PrefilledIsResident(p.s.running[pos], chunk);
      UpdateKeepsOrder(p.s, pos, q.s.running[pos]);
      SameOrderSameIds(p.s, q.s);
      assert log + q.scheduled == log + p.scheduled + [e];
      ChunkCovers(log + p.scheduled, e);
      ListedApart(p.s);
      OnlyOneMoves(p.s.running, pos);
    }
  }

  lemma OnlyOneMoves(list: seq<Sequence>, pos: nat)
    requires DistinctIds(list) && pos < |list|
    ensures forall i :: 0 <= i < |list| && i != pos ==> list[i].id != list[pos].id
  {
  }

  lemma {:induction false} PartialsTile(log: seq<Scheduled>, p: Pass, candidates: seq<PartialPrefill>, budget: nat)
    requires PassTiles(log, p) && PartialsMatch(p.s.running, candidates)
    ensures PassTiles(log, Partials(p, candidates, budget))
    decreases |candidates|
  {
    hide PartialOne, PassTiles, PartialMatches;
    if candidates != [] && p.used < budget {
      PartialOneTiles(log, p, candidates[0], budget);
      forall i | 0 < i < |candidates| ensures PartialMatches(PartialOne(p, candidates[0], budget).s.running, candidates[i]) {
        PartialOneKeepsOthers(p, candidates[0], budget, candidates[i]);
      }
      PartialsTile(log, PartialOne(p, candidates[0], budget), candidates[1..], budget);
    }
  }

  lemma AdmitHeadTiles(log: seq<Scheduled>, p: Pass, cache: Manager, chunk: nat)
    requires PassTiles(log, p) && p.s.waiting != [] && 0 < chunk <= p.s.waiting[0].RemainingPrefill()
    ensures PassTiles(log, AdmitHead(p, cache, chunk))
  {
    hide Contiguous, Coverage, NoDuplicates, AdmittedSequence, DistinctIds;
    var head, q := p.s.waiting[0], AdmitHead(p, cache, chunk);
    var e := Scheduled(head.id, chunk, head.computed, true);
    AdmitHeadKeepsOrder(p, cache, chunk);
    SameOrderSameIds(p.s, q.s);
    AdmittedMovesOn(head, chunk);
    ListedApart(p.s);
    assert log + q.scheduled == log + p.scheduled + [e];
    ChunkCovers(log + p.scheduled, e);
    assert forall i :: 0 <= i < |q.s.waiting| ==> q.s.waiting[i] == p.s.waiting[i + 1];
    assert forall i :: 0 <= i < |p.s.running| ==> q.s.running[i] == p.s.running[i];
  }

  lemma AdmittedMovesOn(q: Sequence, chunk: nat)
    requires 0 < chunk <= q.RemainingPrefill()
    ensures AdmittedSequence(q, chunk).computed == q.computed + chunk
  {
  }

  lemma AdmitRoundTiles(log: seq<Scheduled>, p: Pass, budget: nat)
    requires PassTiles(log, p) && p.s.cache.WellFormed()
    ensures PassTiles(log, AdmitRound(p, budget).p)
  {
    hide PassTiles, Allocated, Freed, CeilDiv, AdmitHead;
    if PreemptOne(p).Some? {
      PreemptTiles(log, p);
    }
    if p.s.waiting != [] && p.used < budget {
      var next := p.s.waiting[0];
      var cache := Allocated(p.s.cache, next.id, next.prompt).0;
      RequeueTiles(log, p, cache);
      var chunk := Chunk(p.s.config, next.RemainingPrefill(), budget - p.used);
      if chunk.Some? && chunk.value > 0 {
        AdmitHeadTiles(log, p, cache, chunk.value);
        AdmitHeadTiles(log, p, p.s.cache, chunk.value);
      }
    }
  }

  lemma RequeueTiles(log: seq<Scheduled>, p: Pass, cache: Manager)
    requires PassTiles(log, p) && p.s.waiting != []
    ensures PassTiles(log, p.(s := p.s.(waiting := [p.s.waiting[0].Preempt()] + p.s.waiting[1..], cache := cache)))
  {
    hide Contiguous, Coverage, NoDuplicates;
    RequeueKeepsOrder(p.s, cache);
    SameOrderSameIds(p.s, p.s.(waiting := [p.s.waiting[0].Preempt()] + p.s.waiting[1..], cache := cache));
  }

  lemma {:induction false} AdmitTiles(log: seq<Scheduled>, p: Pass, budget: nat)
    requires PassTiles(log, p) && p.s.cache.WellFormed()
    ensures PassTiles(log, Admit(p, budget))
    decreases SaturatingSub(budget, p.used), |p.s.running|
  {
    hide AdmitRound, PassTiles;
    AdmitRoundProgress(p, budget);
    AdmitRoundTiles(log, p, budget);
    match AdmitRound(p, budget)
    case Done(q) =>
    case Again(q) => AdmitTiles(log, q, budget);
  }

  lemma PrefillsTile(log: seq<Scheduled>, p: Pass, budget: nat)
    requires PassTiles(log, p) && p.s.cache.WellFormed()
    ensures PassTiles(log, Prefills(p, budget))
  {
    hide PartialsMatch, Partials, Admit, PartialCandidates, Contiguous, Covered, NoDuplicates, DistinctIds;
    ListedApart(p.s);
    PartialCandidatesFrom(p.s.running, |p.s.running|);
    assert p.s.running[..|p.s.running|] == p.s.running;
    PartialsTile(log, p, PartialCandidates(p.s.running), budget);
    AdmitTiles(log, Partials(p, PartialCandidates(p.s.running), budget), budget);
  }

  /** One pass keeps the tiling, whoever runs when it starts. */
  lemma ScheduleTiles(log: seq<Scheduled>, s: State)
    requires s.cache.WellFormed() && NoDuplicates(Listed(s)) && Contiguous(log) && Covered(log, s)
    ensures Contiguous(log + Schedule(s).scheduled) && Covered(log + Schedule(s).scheduled, Schedule(s).s)
  {
    hide NoDuplicates, Contiguous, Covered, Prefills, Decodes, DecodeCandidates;
    assert log + [] == log;
    var budget, start := s.config.maxBatchedTokens, StartPass(s);
    if s.config.prioritizeDecode {
      DecodesTile(log, start, DecodeCandidates(s.running), budget);
      PrefillsTile(log, DecodePass(start, budget), budget);
    } else {
      PrefillsTile(log, start, budget);
      var p := Prefills(start, budget);
      DecodesTile(log, p, DecodeCandidates(p.s.running), budget);
    }
  }

  // ----- Runs -----

  /** All batch entries of a run. */
  ghost function Batches(v: Life, ops: seq<Op>): seq<Scheduled>
    requires v.s.cache.WellFormed()
    decreases |ops|
  {
    if ops == [] then []
    else
      StepLifeWellFormed(v, ops[0]);
      BatchIn(v.s, ops[0]) + Batches(StepLife(v, ops[0]), ops[1..])
  }

  ghost function BatchIn(s: State, op: Op): seq<Scheduled>
    requires s.cache.WellFormed()
  {
    if op.OpSchedule? then Schedule(s).scheduled else []
  }

  /** Requests arrive without prefill progress. */
  ghost predicate ArriveUnbegun(ops: seq<Op>) {
    forall k :: 0 <= k < |ops| && ops[k].OpAdd? ==> ops[k].q.computed == 0
  }

  /** The queues of `t` hold sequences of those of `s`, as far as they were. */
  ghost predicate NobodyMoves(s: State, t: State) {
    && (forall i :: 0 <= i < |t.running| ==> SomeoneAt(s.running, t.running[i].id, t.running[i].computed))
    && (forall i :: 0 <= i < |t.waiting| ==>
          t.waiting[i].computed == 0 || SomeoneAt(s.waiting, t.waiting[i].id, t.waiting[i].computed))
  }

  ghost predicate SomeoneAt(list: seq<Sequence>, id: SequenceId, computed: nat) {
    exists j :: 0 <= j < |list| && list[j].id == id && list[j].computed == computed
  }

  lemma StillCovered(log: seq<Scheduled>, s: State, t: State)
    requires Covered(log, s) && NobodyMoves(s, t)
    ensures Covered(log, t)
  {
    hide Coverage;
  }

  lemma MembersAreThere(list: seq<Sequence>, was: seq<Sequence>)
    requires forall i :: 0 <= i < |list| ==> list[i] in was
    ensures forall i :: 0 <= i < |list| ==> SomeoneAt(was, list[i].id, list[i].computed)
  {
    forall i | 0 <= i < |list| ensures SomeoneAt(was, list[i].id, list[i].computed) {
      var j :| 0 <= j < |was| && was[j] == list[i];
    }
  }

  lemma PointwiseAreThere(list: seq<Sequence>, was: seq<Sequence>)
    requires |list| == |was| && forall i :: 0 <= i < |list| ==> list[i].id == was[i].id && list[i].computed == was[i].computed
    ensures forall i :: 0 <= i < |list| ==> SomeoneAt(was, list[i].id, list[i].computed)
  {
  }

  lemma TokenMovesNobody(q: Sequence, token: TokenId, eosIds: seq<TokenId>)
    ensures WithToken(q, token, eosIds).0.id == q.id && WithToken(q, token, eosIds).0.computed == q.computed
  {
  }

  /** Outside the passes nobody's prefill moves. */
  lemma OthersMoveNobody(v: Life, op: Op)
    requires v.s.cache.WellFormed() && !op.OpSchedule? && (op.OpAdd? ==> op.q.computed == 0)
    ensures NobodyMoves(v.s, StepLife(v, op).s)
  {
    hide AddCheck, Freed, FreedAll, Committed, Position, RemoveAt, WithToken, SomeoneAt;
    var s, t := v.s, StepLife(v, op).s;
    PointwiseAreThere(s.running, s.running);
    PointwiseAreThere(s.waiting, s.waiting);
    match op
    case OpAdd(q) =>
    case OpToken(id, token, eosIds) =>
      var pos := Position(s.running, id);
      if pos < |s.running| {
        TokenMovesNobody(s.running[pos], token, eosIds);
        PointwiseAreThere(t.running, s.running);
      }
    case OpReap =>
      UnfinishedSplits(s.running);
      MembersAreThere(t.running, s.running);
    case OpCancel(id) =>
      if Position(s.waiting, id) < |s.waiting| {
        RemoveAtMembers(s.waiting, Position(s.waiting, id));
        MembersAreThere(t.waiting, s.waiting);
      } else if Position(s.running, id) < |s.running| {
        RemoveAtMembers(s.running, Position(s.running, id));
        MembersAreThere(t.running, s.running);
      }
    case OpCommit(id) =>
    case OpExpire(late) =>
      PointwiseAreThere(t.running, s.running);
      RejectedIsWithout(s.waiting, late);
      MembersAreThere(t.waiting, s.waiting);
  }

  lemma StepTiles(log: seq<Scheduled>, v: Life, op: Op)
    requires v.s.cache.WellFormed() && AllSeen(v) && Contiguous(log) && Covered(log, v.s)
    requires op.OpAdd? ==> op.q.computed == 0
    ensures Contiguous(log + BatchIn(v.s, op)) && Covered(log + BatchIn(v.s, op), StepLife(v, op).s)
  {
    hide Contiguous, Covered, Schedule, NobodyMoves, NoDuplicates, Added, Tokened, Reaped, CancelledState, CommittedState, Expired;
    if op.OpSchedule? {
      ScheduleTiles(log, v.s);
    } else {
      OthersMoveNobody(v, op);
      StillCovered(log, v.s, StepLife(v, op).s);
      assert log + [] == log;
    }
  }

  lemma {:induction false} RunTiles(log: seq<Scheduled>, v: Life, ops: seq<Op>)
    requires v.s.cache.WellFormed() && AllSeen(v) && Contiguous(log) && Covered(log, v.s) && ArriveUnbegun(ops)
    ensures Contiguous(log + Batches(v, ops)) && Covered(log + Batches(v, ops), RunLife(v, ops).s)
    decreases |ops|
  {
    hide Contiguous, Covered, AllSeen, StepLife, BatchIn;
    if ops == [] {
      assert log + [] == log;
    } else {
      StepLifeWellFormed(v, ops[0]);
      StepTiles(log, v, ops[0]);
      StepSeen(v, ops[0]);
      var batch, next := BatchIn(v.s, ops[0]), StepLife(v, ops[0]);
      RunTiles(log + batch, next, ops[1..]);
      assert log + batch + Batches(next, ops[1..]) == log + (batch + Batches(next, ops[1..]));
    }
  }

  /**
   * Over every run, whatever finishes, times out, is evicted or cancelled in between: each
   * chunk starts at zero or where the last one of its sequence ended, and the chunks of each
   * running sequence since the last that started at zero tile its progress.
   */
  lemma ChunksTile(config: Config, numBlocks: nat, blockSize: nat, prefixCaching: bool, ops: seq<Op>)
    requires blockSize > 0 && ArriveUnbegun(ops)
    ensures NewLife(config, numBlocks, blockSize, prefixCaching).s.cache.WellFormed()
    ensures var log := Batches(NewLife(config, numBlocks, blockSize, prefixCaching), ops);
            var s := After(config, numBlocks, blockSize, prefixCaching, ops);
            && Contiguous(log)
            && forall i :: 0 <= i < |s.running| ==> Coverage(log, s.running[i].id) == s.running[i].computed
  {
    hide Contiguous, Coverage, Batches, RunLife, ArriveUnbegun, AllSeen;
    NewLifeIsEmpty(config, numBlocks, blockSize, prefixCaching);
    var v := NewLife(config, numBlocks, blockSize, prefixCaching);
    NothingYet(v.s);
    RunTiles([], v, ops);
    assert [] + Batches(v, ops) == Batches(v, ops);
  }

  lemma NothingYet(s: State)
    requires s.running == [] && s.waiting == []
    ensures Contiguous([]) && Covered([], s)
  {
  }
}
