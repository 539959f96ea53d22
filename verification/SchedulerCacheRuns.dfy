// Every scheduler run is a cache run: what holds over cache runs holds under the scheduler.
//
// Runs are unrestricted: a pass may start while sequences that finished or timed out still run.
module SchedulerCacheRuns {
  import opened Prelude
  import opened KvCache
  import opened KvConservation
  import opened Sequences
  import opened Scheduling
  import opened SchedulerOrder
  import opened SchedulerInvariant
  import opened SchedulerRuns
  import P = PrefixSoundness

  type CacheOps = seq<P.CacheOp>

  // ----- The cache operations of each scheduler operation -----

  function NewestFreed(p: Pass): CacheOps {
    if p.s.running == [] then [] else [P.OpFree(p.s.running[|p.s.running| - 1].id)]
  }

  /** One decode candidate: append; if that fails, evict the newest and append again. */
  function DecodeOneOps(p: Pass, id: SequenceId, totalLen: nat): CacheOps
    requires p.s.cache.WellFormed()
  {
    AppendedWellFormed(p.s.cache, id);
    var (q, ok) := TryAppend(p, id, totalLen);
    if ok || p.s.running == [] then [P.OpAppend(id)] else [P.OpAppend(id)] + NewestFreed(p) + [P.OpAppend(id)]
  }

  function DecodesOps(p: Pass, candidates: seq<(SequenceId, nat)>, budget: nat): CacheOps
    requires p.s.cache.WellFormed()
    decreases |candidates|
  {
    if candidates == [] || p.used >= budget then []
    else
      DecodeOneWellFormed(p, candidates[0].0, candidates[0].1);
      var (q, go) := DecodeOne(p, candidates[0].0, candidates[0].1);
      DecodeOneOps(p, candidates[0].0, candidates[0].1) + if go then DecodesOps(q, candidates[1..], budget) else []
  }

  /** One admission round: nothing, an eviction, or the allocation of the head. */
  function AdmitRoundOps(p: Pass, budget: nat): CacheOps
    requires p.s.cache.WellFormed()
  {
    if |p.s.running| >= p.s.config.maxNumSeqs || p.used >= budget || p.s.waiting == [] then []
    else
      var next := p.s.waiting[0];
      var chunk := Chunk(p.s.config, next.RemainingPrefill(), budget - p.used);
      if chunk == None || chunk == Some(0) || next.computed != 0 then []
      else if !CanAllocate(p.s.cache, |next.prompt|) then NewestFreed(p)
      else [P.OpAllocate(next.id, next.prompt)]
  }

  function AdmitOps(p: Pass, budget: nat): CacheOps
    requires p.s.cache.WellFormed()
    decreases SaturatingSub(budget, p.used), |p.s.running|
  {
    AdmitRoundProgress(p, budget);
    AdmitRoundOps(p, budget)
    + match AdmitRound(p, budget) case Done(_) => [] case Again(q) => AdmitOps(q, budget)
  }

  function PrefillsOps(p: Pass, budget: nat): CacheOps
    requires p.s.cache.WellFormed()
  {
    AdmitOps(Partials(p, PartialCandidates(p.s.running), budget), budget)
  }

  function ScheduleOps(s: State): CacheOps
    requires s.cache.WellFormed()
  {
    var budget, start := s.config.maxBatchedTokens, StartPass(s);
    if s.config.prioritizeDecode then
      DecodesOps(start, DecodeCandidates(s.running), budget) + PrefillsOps(DecodePass(start, budget), budget)
    else
      var p := Prefills(start, budget);
      PrefillsOps(start, budget) + DecodesOps(p, DecodeCandidates(p.s.running), budget)
  }

  function FreeOps(list: seq<Sequence>): CacheOps
    decreases |list|
  {
    if list == [] then [] else [P.OpFree(list[0].id)] + FreeOps(list[1..])
  }

  function StepOps(s: State, op: Op): CacheOps
    requires s.cache.WellFormed()
  {
    match op
    case OpSchedule => ScheduleOps(s)
    case OpReap => FreeOps(FinishedOnly(s.running))
    case OpCancel(id) =>
      if Position(s.waiting, id) == |s.waiting| && Position(s.running, id) < |s.running| then [P.OpFree(id)] else []
    case OpCommit(id) =>
      var pos := Position(s.running, id);
      if pos < |s.running| && s.running[pos].PrefillComplete() then [P.CacheOp.OpCommit(id)] else []
    case _ => []
  }

  // ----- Agreement -----

  /** Where the history knows a live request, it knows its prompt. */
  ghost predicate KnowsPrompts(h: P.History, live: seq<Sequence>) {
    forall i :: 0 <= i < |live| && live[i].id in h.prompts ==> h.prompts[live[i].id] == live[i].prompt
  }

  /**
   * The history is that of the scheduler's cache; ids are distinct; only running sequences
   * have a table, and each table was allocated for its sequence's prompt.
   */
  ghost predicate Agrees(h: P.History, s: State) {
    && P.Tracked(h) && h.m == s.cache
    && NoDuplicates(Ids(Order(s)))
    && s.cache.tables.Keys <= IdSet(s.running)
    && KnowsPrompts(h, Order(s))
  }

  lemma {:induction false} RunConcat(h: P.History, a: CacheOps, b: CacheOps)
    requires P.Tracked(h)
    ensures P.Run(h, a + b) == P.Run(P.Run(h, a), b)
    decreases |a|
  {
    hide P.Tracked, P.Step;
    if a == [] {
      assert a + b == b;
    } else {
      P.StepKeepsTracked(h, a[0]);
      RunConcat(P.Step(h, a[0]), a[1..], b);
      assert (a + b)[1..] == a[1..] + b;
    }
  }

  lemma RunOne(h: P.History, op: P.CacheOp)
    requires P.Tracked(h)
    ensures P.Run(h, [op]) == P.Step(h, op)
  {
    hide P.Tracked, P.Step;
    P.StepKeepsTracked(h, op);
    assert P.Run(P.Step(h, op), []) == P.Step(h, op);
  }

  lemma RunNothing(h: P.History)
    requires P.Tracked(h)
    ensures P.Run(h, []) == h
  {
  }

  lemma AgreesParts(h: P.History, s: State)
    requires Agrees(h, s)
    ensures P.Tracked(h) && h.m == s.cache && Consistent(s.cache) && s.cache.WellFormed()
    ensures h.prompts.Keys == s.cache.tables.Keys <= IdSet(s.running)
    ensures DistinctIds(s.running) && DistinctIds(s.waiting)
    ensures forall i, j :: 0 <= i < |s.running| && 0 <= j < |s.waiting| ==> s.running[i].id != s.waiting[j].id
  {
    IdsAreDistinct(s);
  }

  // ----- The cache changes, the queues stay -----

  lemma FreeFollows(h: P.History, s: State, id: SequenceId)
    requires Agrees(h, s)
    ensures Agrees(P.Run(h, [P.OpFree(id)]), s.(cache := Freed(s.cache, id)))
    ensures Freed(s.cache, id).tables == s.cache.tables - {id}
  {
    hide P.Tracked, Freed, Order, NoDuplicates, Consistent;
    AgreesParts(h, s);
    P.StepKeepsTracked(h, P.OpFree(id));
    RunOne(h, P.OpFree(id));
    FreeingConserves(s.cache, id);
    OrderIgnoresCache(s, Freed(s.cache, id));
  }

  lemma AppendFollows(h: P.History, p: Pass, id: SequenceId, totalLen: nat)
    requires Agrees(h, p.s) && p.s.cache.WellFormed()
    ensures Agrees(P.Run(h, [P.OpAppend(id)]), TryAppend(p, id, totalLen).0.s)
  {
    hide P.Tracked, Appended, Order, NoDuplicates, Consistent;
    AgreesParts(h, p.s);
    P.StepKeepsTracked(h, P.OpAppend(id));
    RunOne(h, P.OpAppend(id));
    AppendKeys(p.s.cache, id);
    OrderIgnoresCache(p.s, Appended(p.s.cache, id).0);
  }

  lemma AppendKeys(m: Manager, id: SequenceId)
    requires Consistent(m)
    ensures m.WellFormed() && Appended(m, id).0.tables.Keys == m.tables.Keys
  {
    hide Appended;
    AppendingIsExact(m, id);
    var (after, err) := Appended(m, id);
    if err.None? {
      assert after.tables.Keys == m.tables.Keys + {id};
    }
  }

  lemma {:induction false} FreesFollow(h: P.History, s: State, list: seq<Sequence>)
    requires Agrees(h, s)
    ensures Agrees(P.Run(h, FreeOps(list)), s.(cache := FreedAll(s.cache, list)))
    decreases |list|
  {
    hide Agrees, P.Tracked, Freed, P.Run;
    AgreesParts(h, s);
    if list == [] {
      RunNothing(h);
    } else {
      FreeFollows(h, s, list[0].id);
      var s1, h1 := s.(cache := Freed(s.cache, list[0].id)), P.Run(h, [P.OpFree(list[0].id)]);
      FreesFollow(h1, s1, list[1..]);
      RunConcat(h, [P.OpFree(list[0].id)], FreeOps(list[1..]));
    }
  }

  lemma CommitFollows(h: P.History, s: State, id: SequenceId)
    requires Agrees(h, s) && s.cache.WellFormed()
    ensures Agrees(P.Run(h, StepOps(s, Op.OpCommit(id))), CommittedState(s, id))
  {
    hide P.Tracked, Committed, P.Run, Consistent, NoDuplicates, Order;
    AgreesParts(h, s);
    RunNothing(h);
    var pos := Position(s.running, id);
    if pos < |s.running| && s.running[pos].PrefillComplete() {
      var prompt := s.running[pos].prompt;
      RunOne(h, P.CacheOp.OpCommit(id));
      P.StepKeepsTracked(h, P.CacheOp.OpCommit(id));
      RunningInOrder(s, pos);
      CommitStep(h, id, prompt);
      CommittingConserves(s.cache, id, prompt);
      OrderIgnoresCache(s, Committed(s.cache, id, prompt));
    }
  }

  lemma RunningInOrder(s: State, pos: nat)
    requires pos < |s.running|
    ensures pos < |Order(s)| && Order(s)[pos].id == s.running[pos].id && Order(s)[pos].prompt == s.running[pos].prompt
  {
  }

  lemma CommitStep(h: P.History, id: SequenceId, prompt: seq<TokenId>)
    requires P.Tracked(h) && h.m.WellFormed() && (id in h.prompts ==> h.prompts[id] == prompt)
    ensures P.Step(h, P.CacheOp.OpCommit(id)).m == Committed(h.m, id, prompt)
    ensures P.Step(h, P.CacheOp.OpCommit(id)).prompts == h.prompts
  {
  }

  // ----- The queues change, the cache stays -----

  ghost predicate Lists(live: seq<Sequence>, q: Sequence) {
    exists j :: 0 <= j < |live| && live[j].id == q.id && live[j].prompt == q.prompt
  }

  /** Every live request of `after` was live before, with the same prompt. */
  ghost predicate Descends(after: State, s: State) {
    forall i :: 0 <= i < |Order(after)| ==> Lists(Order(s), Order(after)[i])
  }

  lemma QueuesFollow(h: P.History, s: State, after: State)
    requires Agrees(h, s) && after.cache == s.cache
    requires NoDuplicates(Ids(Order(after))) && Descends(after, s)
    requires s.cache.tables.Keys <= IdSet(after.running)
    ensures Agrees(h, after)
  {
    hide P.Tracked, Order, NoDuplicates, IdSet;
  }

  lemma SameOrderDescends(s: State, after: State)
    requires Order(after) == Order(s)
    ensures Descends(after, s)
  {
    hide Order;
    forall i | 0 <= i < |Order(after)| ensures Lists(Order(s), Order(after)[i]) {
      assert Order(s)[i].id == Order(after)[i].id;
    }
  }

  /** Steps inside a pass keep the order. */
  lemma SameOrderFollows(h: P.History, s: State, after: State)
    requires Agrees(h, s) && after.cache == s.cache && Order(after) == Order(s)
    requires s.cache.tables.Keys <= IdSet(after.running)
    ensures Agrees(h, after)
  {
    hide P.Tracked, Order, NoDuplicates, IdSet, Descends;
    SameOrderDescends(s, after);
    QueuesFollow(h, s, after);
  }

  /** Running sequences replaced one for one, with their ids and prompts. */
  lemma ReplaceFollows(h: P.History, s: State, now: seq<Sequence>)
    requires Agrees(h, s) && |now| == |s.running|
    requires forall i :: 0 <= i < |now| ==> now[i].id == s.running[i].id && now[i].prompt == s.running[i].prompt
    ensures Agrees(h, s.(running := now))
  {
    hide P.Tracked, NoDuplicates;
    var after := s.(running := now);
    IdsOfOrder(s);
    IdsOfOrder(after);
    assert Ids(now) == Ids(s.running);
    IdSetPointwise(s.running, now);
    forall i | 0 <= i < |Order(after)| ensures Lists(Order(s), Order(after)[i]) {
      assert Order(s)[i].id == Order(after)[i].id && Order(s)[i].prompt == Order(after)[i].prompt;
    }
    QueuesFollow(h, s, after);
  }

  /** Requests leave, and with them their tables. */
  lemma LeaveFollows(h: P.History, s: State, after: State, gone: set<SequenceId>)
    requires Agrees(h, s) && after.cache == s.cache && s.cache.tables.Keys <= IdSet(after.running)
    requires Ids(after.running) + Ids(after.waiting) == Without(Ids(s.running) + Ids(s.waiting), gone)
    requires forall i :: 0 <= i < |after.running| ==> after.running[i] in s.running
    requires forall i :: 0 <= i < |after.waiting| ==> after.waiting[i] in s.waiting
    ensures Agrees(h, after)
  {
    hide P.Tracked, IdSet, NoDuplicates;
    IdsOfOrder(s);
    IdsOfOrder(after);
    WithoutIsSublist(Ids(s.running) + Ids(s.waiting), gone);
    MembersDescend(s, after);
    QueuesFollow(h, s, after);
  }

  lemma MembersDescend(s: State, after: State)
    requires forall i :: 0 <= i < |after.running| ==> after.running[i] in s.running
    requires forall i :: 0 <= i < |after.waiting| ==> after.waiting[i] in s.waiting
    ensures Descends(after, s)
  {
    var n := |after.running|;
    forall i | 0 <= i < |Order(after)| ensures Lists(Order(s), Order(after)[i]) {
      if i < n {
        var j :| 0 <= j < |s.running| && s.running[j] == after.running[i];
        assert Order(s)[j] == Core(s.running[j]) && Order(after)[i] == Core(after.running[i]);
      } else {
        var j :| 0 <= j < |s.waiting| && s.waiting[j] == after.waiting[i - n];
        assert Order(s)[|s.running| + j] == Core(s.waiting[j]) && Order(after)[i] == Core(after.waiting[i - n]);
      }
    }
  }

  // ----- One pass -----

  lemma PreemptFollows(h: P.History, p: Pass)
    requires Agrees(h, p.s) && PreemptOne(p).Some?
    ensures Agrees(P.Run(h, NewestFreed(p)), PreemptOne(p).value.s)
  {
    hide Agrees, Freed, Order, P.Run;
    AgreesParts(h, p.s);
    var n := |p.s.running| - 1;
    var q, id := PreemptOne(p).value, p.s.running[n].id;
    FreeFollows(h, p.s, id);
    assert p.s.running == p.s.running[..n] + [p.s.running[n]];
    IdSetPush(p.s.running[..n], p.s.running[n]);
    PreemptKeepsOrder(p);
    var freed := p.s.(cache := Freed(p.s.cache, id));
    OrderIgnoresCache(p.s, freed.cache);
    SameOrderFollows(P.Run(h, NewestFreed(p)), freed, q.s);
  }

  lemma DecodeOneFollows(h: P.History, p: Pass, id: SequenceId, totalLen: nat)
    requires Agrees(h, p.s) && p.s.cache.WellFormed() && P.Tracked(h)
    ensures Agrees(P.Run(h, DecodeOneOps(p, id, totalLen)), DecodeOne(p, id, totalLen).0.s)
  {
    hide Agrees, P.Tracked, Appended, Freed, P.Run;
    AppendFollows(h, p, id, totalLen);
    var (q, ok) := TryAppend(p, id, totalLen);
    TryAppendWellFormed(p, id, totalLen);
    if !ok && p.s.running != [] {
      PreemptOneWellFormed(q);
      var h1 := P.Run(h, [P.OpAppend(id)]);
      PreemptFollows(h1, q);
      AppendFollows(P.Run(h1, NewestFreed(q)), PreemptOne(q).value, id, totalLen);
      RunConcat(h, [P.OpAppend(id)], NewestFreed(q));
      RunConcat(h, [P.OpAppend(id)] + NewestFreed(q), [P.OpAppend(id)]);
    }
  }

  lemma {:induction false} DecodesFollow(h: P.History, p: Pass, candidates: seq<(SequenceId, nat)>, budget: nat)
    requires Agrees(h, p.s) && p.s.cache.WellFormed() && P.Tracked(h)
    ensures Agrees(P.Run(h, DecodesOps(p, candidates, budget)), Decodes(p, candidates, budget).s)
    decreases |candidates|
  {
    hide Agrees, P.Tracked, DecodeOne, DecodeOneOps, P.Run;
    if candidates == [] || p.used >= budget {
      RunNothing(h);
    } else {
      var (id, len) := candidates[0];
      DecodeOneWellFormed(p, id, len);
      DecodeOneFollows(h, p, id, len);
      var (q, go) := DecodeOne(p, id, len);
      var first := DecodeOneOps(p, id, len);
      if go {
        DecodesFollow(P.Run(h, first), q, candidates[1..], budget);
        RunConcat(h, first, DecodesOps(q, candidates[1..], budget));
      } else {
        assert first + [] == first;
      }
    }
  }

  /** Resumed prefills touch no block. */
  lemma PartialsFollow(h: P.History, p: Pass, candidates: seq<PartialPrefill>, budget: nat)
    requires Agrees(h, p.s)
    ensures Agrees(h, Partials(p, candidates, budget).s)
  {
    hide Agrees, Partials;
    AgreesParts(h, p.s);
    PartialsKeepOrder(p, candidates, budget);
    var after := Partials(p, candidates, budget).s;
    forall i | 0 <= i < |after.running| ensures after.running[i].id == p.s.running[i].id {
      assert Order(after)[i] == Core(after.running[i]) && Order(p.s)[i] == Core(p.s.running[i]);
    }
    IdSetPointwise(p.s.running, after.running);
    SameOrderFollows(h, p.s, after);
  }

  /** A head with no table is allocated for, and the allocation succeeds. */
  lemma AllocateFollows(h: P.History, p: Pass, chunk: nat)
    requires Agrees(h, p.s) && p.s.cache.WellFormed() && P.Tracked(h)
    requires p.s.waiting != [] && CanAllocate(p.s.cache, |p.s.waiting[0].prompt|)
    ensures var next := p.s.waiting[0];
            && Allocated(p.s.cache, next.id, next.prompt).1.Ok?
            && Agrees(P.Run(h, [P.OpAllocate(next.id, next.prompt)]),
                      AdmitHead(p, Allocated(p.s.cache, next.id, next.prompt).0, chunk).s)
  {
    hide P.Tracked, Allocated, P.Run, Order, AdmittedSequence, AllocationExact, Consistent, NoDuplicates, IdSet;
    var next := p.s.waiting[0];
    AgreesParts(h, p.s);
    NotInIdSet(p.s.running, next.id);
    AllocationIsExact(p.s.cache, next.id, next.prompt);
    AllocationKeys(p.s.cache, next.id, next.prompt);
    var op, cache := P.OpAllocate(next.id, next.prompt), Allocated(p.s.cache, next.id, next.prompt).0;
    P.StepKeepsTracked(h, op);
    RunOne(h, op);
    AdmitHeadKeepsOrder(p, cache, chunk);
    IdSetPush(p.s.running, AdmittedSequence(next, chunk));
    HeadInOrder(p.s);
    KnowsNewPrompt(h, p.s, next);
  }

  lemma HeadInOrder(s: State)
    requires s.waiting != []
    ensures |s.running| < |Order(s)| && Order(s)[|s.running|].id == s.waiting[0].id
    ensures Order(s)[|s.running|].prompt == s.waiting[0].prompt
  {
  }

  lemma KnowsNewPrompt(h: P.History, s: State, q: Sequence)
    requires KnowsPrompts(h, Order(s)) && NoDuplicates(Ids(Order(s))) && s.waiting != [] && s.waiting[0] == q
    ensures KnowsPrompts(h.(prompts := h.prompts[q.id := q.prompt]), Order(s))
  {
    hide Order;
    HeadInOrder(s);
    forall i | 0 <= i < |Order(s)| && Order(s)[i].id == q.id ensures Order(s)[i].prompt == q.prompt {
      assert Ids(Order(s))[i] == Ids(Order(s))[|s.running|];
    }
  }

  /** A head that kept some progress joins the running set as it is, without blocks. */
  lemma JoinFollows(h: P.History, p: Pass, chunk: nat)
    requires Agrees(h, p.s) && p.s.waiting != []
    ensures Agrees(h, AdmitHead(p, p.s.cache, chunk).s)
  {
    hide Agrees, AdmittedSequence, Order, IdSet;
    AgreesParts(h, p.s);
    AdmitHeadKeepsOrder(p, p.s.cache, chunk);
    IdSetPush(p.s.running, AdmittedSequence(p.s.waiting[0], chunk));
    SameOrderFollows(h, p.s, AdmitHead(p, p.s.cache, chunk).s);
  }

  lemma AdmitRoundFollows(h: P.History, p: Pass, budget: nat)
    requires Agrees(h, p.s) && p.s.cache.WellFormed() && P.Tracked(h)
    ensures Agrees(P.Run(h, AdmitRoundOps(p, budget)), AdmitRound(p, budget).p.s)
  {
    hide Agrees, P.Tracked, Allocated, Freed, P.Run, AdmitHead, PreemptOne, NewestFreed, CanAllocate;
    RunNothing(h);
    NewestIsPreempted(p);
    if PreemptOne(p).Some? {
      PreemptFollows(h, p);
    }
    if p.s.waiting != [] {
      var chunk := Chunk(p.s.config, p.s.waiting[0].RemainingPrefill(), SaturatingSub(budget, p.used));
      if chunk.Some? {
        JoinFollows(h, p, chunk.value);
        if CanAllocate(p.s.cache, |p.s.waiting[0].prompt|) {
          AllocateFollows(h, p, chunk.value);
        }
      }
    }
  }

  lemma NewestIsPreempted(p: Pass)
    ensures PreemptOne(p).None? ==> NewestFreed(p) == []
  {
  }

  lemma {:induction false} AdmitFollows(h: P.History, p: Pass, budget: nat)
    requires Agrees(h, p.s) && p.s.cache.WellFormed() && P.Tracked(h)
    ensures Agrees(P.Run(h, AdmitOps(p, budget)), Admit(p, budget).s)
    decreases SaturatingSub(budget, p.used), |p.s.running|
  {
    hide Agrees, P.Tracked, AdmitRound, AdmitRoundOps, P.Run;
    AdmitRoundProgress(p, budget);
    AdmitRoundFollows(h, p, budget);
    var first := AdmitRoundOps(p, budget);
    match AdmitRound(p, budget)
    case Done(q) =>
      assert first + [] == first;
    case Again(q) =>
      AdmitFollows(P.Run(h, first), q, budget);
      RunConcat(h, first, AdmitOps(q, budget));
  }

  lemma PrefillsFollow(h: P.History, p: Pass, budget: nat)
    requires Agrees(h, p.s) && p.s.cache.WellFormed() && P.Tracked(h)
    ensures Agrees(P.Run(h, PrefillsOps(p, budget)), Prefills(p, budget).s)
  {
    hide Agrees, Partials, Admit, AdmitOps, PartialCandidates, P.Tracked, P.Run;
    PartialsFollow(h, p, PartialCandidates(p.s.running), budget);
    AdmitFollows(h, Partials(p, PartialCandidates(p.s.running), budget), budget);
  }

  lemma ScheduleFollows(h: P.History, s: State)
    requires Agrees(h, s) && s.cache.WellFormed() && P.Tracked(h)
    ensures Agrees(P.Run(h, ScheduleOps(s)), Schedule(s).s)
  {
    hide Agrees, Prefills, Decodes, DecodesOps, PrefillsOps, DecodeCandidates, P.Tracked, P.Run;
    var budget, start := s.config.maxBatchedTokens, StartPass(s);
    if s.config.prioritizeDecode {
      var candidates := DecodeCandidates(s.running);
      DecodesFollow(h, start, candidates, budget);
      var first := DecodesOps(start, candidates, budget);
      PrefillsFollow(P.Run(h, first), DecodePass(start, budget), budget);
      RunConcat(h, first, PrefillsOps(DecodePass(start, budget), budget));
    } else {
      PrefillsFollow(h, start, budget);
      var p, first := Prefills(start, budget), PrefillsOps(start, budget);
      var candidates := DecodeCandidates(p.s.running);
      DecodesFollow(P.Run(h, first), p, candidates, budget);
      RunConcat(h, first, DecodesOps(p, candidates, budget));
    }
  }

  // ----- The other operations -----

  lemma AddFollows(h: P.History, s: State, q: Sequence)
    requires Agrees(h, s) && s.cache.WellFormed() && q.id !in Ids(Order(s))
    ensures Agrees(h, Added(s, q))
  {
    hide P.Tracked, AddCheck, NoDuplicates;
    AgreesParts(h, s);
    if AddCheck(s, q).None? {
      var after := Added(s, q);
      AddedIds(s, q);
      NoDuplicatesPush(Ids(Order(s)), q.id);
      CoresOfConcat(s.waiting, [q]);
      assert Order(after) == Order(s) + [Core(q)];
      NewHasNoTable(s, q.id);
    }
  }

  lemma NewHasNoTable(s: State, id: SequenceId)
    requires s.cache.tables.Keys <= IdSet(s.running) && id !in Ids(Order(s))
    ensures id !in s.cache.tables
  {
    forall i | 0 <= i < |s.running| ensures s.running[i].id != id {
      assert Ids(Order(s))[i] == s.running[i].id;
    }
    NotInIdSet(s.running, id);
  }

  lemma TokenFollows(h: P.History, s: State, id: SequenceId, token: TokenId, eosIds: seq<TokenId>)
    requires Agrees(h, s)
    ensures Agrees(h, Tokened(s, id, token, eosIds).0)
  {
    hide Agrees, Position;
    var pos := Position(s.running, id);
    if pos < |s.running| {
      ReplaceFollows(h, s, s.running[pos := WithToken(s.running[pos], token, eosIds).0]);
    }
  }

  lemma ReapFollows(h: P.History, s: State)
    requires Agrees(h, s) && P.Tracked(h)
    ensures Agrees(P.Run(h, FreeOps(FinishedOnly(s.running))), Reaped(s).0)
  {
    hide Agrees, P.Tracked, Consistent, Order, FreedAll, P.Run, FreeOps, IdSet, NoDuplicates, DistinctIds;
    AgreesParts(h, s);
    var rest, finished := Unfinished(s.running), FinishedOnly(s.running);
    FreesFollow(h, s, finished);
    FreedAllConserves(s.cache, finished);
    UnfinishedSplits(s.running);
    UnfinishedIsWithout(s.running);
    var freed, gone := s.(cache := FreedAll(s.cache, finished)), IdSet(finished);
    IdSetInIds(s.running, gone);
    ApartQueues(s);
    DepartFromFront(Ids(s.running), Ids(s.waiting), gone);
    LeaveFollows(P.Run(h, FreeOps(finished)), freed, Reaped(s).0, gone);
  }

  lemma ApartQueues(s: State)
    requires forall i, j :: 0 <= i < |s.running| && 0 <= j < |s.waiting| ==> s.running[i].id != s.waiting[j].id
    ensures forall x :: x in Ids(s.running) ==> x !in Ids(s.waiting)
  {
  }

  lemma CancelWaitingFollows(h: P.History, s: State, id: SequenceId)
    requires Agrees(h, s) && Position(s.waiting, id) < |s.waiting|
    ensures Agrees(h, CancelledState(s, id).0)
  {
    hide Agrees, RemoveAt, IdSet, DistinctIds;
    AgreesParts(h, s);
    var w := Position(s.waiting, id);
    RemoveAtIsWithout(s.waiting, w);
    assert Ids(s.waiting)[w] == id;
    ApartQueues(s);
    DepartFromBack(Ids(s.running), Ids(s.waiting), {id});
    RemoveAtMembers(s.waiting, w);
    LeaveFollows(h, s, CancelledState(s, id).0, {id});
  }

  lemma CancelRunningFollows(h: P.History, s: State, id: SequenceId)
    requires Agrees(h, s)
    requires Position(s.waiting, id) == |s.waiting| && Position(s.running, id) < |s.running|
    ensures Agrees(P.Run(h, [P.OpFree(id)]), CancelledState(s, id).0)
  {
    hide Agrees, Freed, RemoveAt, IdSet, DistinctIds, P.Run;
    AgreesParts(h, s);
    var r := Position(s.running, id);
    FreeFollows(h, s, id);
    RemoveAtIsWithout(s.running, r);
    RemoveAtIdSet(s.running, r);
    RemoveAtMembers(s.running, r);
    assert Ids(s.running)[r] == id;
    ApartQueues(s);
    DepartFromFront(Ids(s.running), Ids(s.waiting), {id});
    LeaveFollows(P.Run(h, [P.OpFree(id)]), s.(cache := Freed(s.cache, id)), CancelledState(s, id).0, {id});
  }

  lemma ExpireFollows(h: P.History, s: State, late: set<SequenceId>)
    requires Agrees(h, s)
    ensures Agrees(h, Expired(s, late).0)
  {
    hide Agrees, IdSet, DistinctIds;
    ReplaceFollows(h, s, FinishIn(s.running, late, Timeout));
    var t := s.(running := FinishIn(s.running, late, Timeout));
    AgreesParts(h, t);
    var gone := IdSet(Selected(t.waiting, late));
    RejectedIsWithout(t.waiting, late);
    ApartQueues(t);
    DepartFromBack(Ids(t.running), Ids(t.waiting), gone);
    LeaveFollows(h, t, Expired(s, late).0, gone);
  }

  /** Each scheduler operation is its cache operations. */
  lemma StepFollows(h: P.History, s: State, op: Op)
    requires Agrees(h, s) && P.Tracked(h) && s.cache.WellFormed()
    requires op.OpAdd? ==> op.q.id !in Ids(Order(s))
    ensures Agrees(P.Run(h, StepOps(s, op)), StepLife(Life(s, {}), op).s)
  {
    hide Agrees, P.Tracked, P.Run, ScheduleOps, FreeOps, Reaped, CancelledState, CommittedState, Schedule, Added,
      Tokened, Expired;
    RunNothing(h);
    match op
    case OpAdd(q) => AddFollows(h, s, q);
    case OpSchedule => ScheduleFollows(h, s);
    case OpToken(id, token, eosIds) => TokenFollows(h, s, id, token, eosIds);
    case OpReap => ReapFollows(h, s);
    case OpCancel(id) =>
      if Position(s.waiting, id) < |s.waiting| {
        CancelWaitingFollows(h, s, id);
      } else if Position(s.running, id) < |s.running| {
        CancelRunningFollows(h, s, id);
      } else {
        CancelMisses(s, id);
      }
    case OpCommit(id) => CommitFollows(h, s, id);
    case OpExpire(late) => ExpireFollows(h, s, late);
  }

  lemma CancelMisses(s: State, id: SequenceId)
    requires Position(s.waiting, id) == |s.waiting| && Position(s.running, id) == |s.running|
    ensures CancelledState(s, id).0 == s
  {
  }

  // ----- Runs -----

  /** The cache operations of a scheduler run. */
  ghost function RunOps(v: Life, ops: seq<Op>): CacheOps
    requires v.s.cache.WellFormed()
    decreases |ops|
  {
    if ops == [] then []
    else
      StepLifeWellFormed(v, ops[0]);
      (if Fresh(v, ops[0]) then StepOps(v.s, ops[0]) else []) + RunOps(StepLife(v, ops[0]), ops[1..])
  }

  lemma StepLifeFollows(h: P.History, v: Life, op: Op)
    requires Agrees(h, v.s) && AllSeen(v) && P.Tracked(h) && v.s.cache.WellFormed()
    ensures Agrees(P.Run(h, if Fresh(v, op) then StepOps(v.s, op) else []), StepLife(v, op).s)
  {
    hide Agrees, P.Tracked, P.Run, StepOps, Reaped, CancelledState, CommittedState, Schedule, Added, Tokened, Expired;
    RunNothing(h);
    IdsOfOrder(v.s);
    if Fresh(v, op) {
      StepFollows(h, v.s, op);
    }
  }

  lemma {:induction false} RunFollows(h: P.History, v: Life, ops: seq<Op>)
    requires Agrees(h, v.s) && AllSeen(v) && P.Tracked(h) && v.s.cache.WellFormed()
    ensures Agrees(P.Run(h, RunOps(v, ops)), RunLife(v, ops).s)
    decreases |ops|
  {
    hide Agrees, AllSeen, Fresh, P.Tracked, P.Run, StepOps, StepLife;
    if ops == [] {
      RunNothing(h);
    } else {
      StepLifeFollows(h, v, ops[0]);
      StepSeen(v, ops[0]);
      StepLifeWellFormed(v, ops[0]);
      var first := if Fresh(v, ops[0]) then StepOps(v.s, ops[0]) else [];
      RunFollows(P.Run(h, first), StepLife(v, ops[0]), ops[1..]);
      RunConcat(h, first, RunOps(StepLife(v, ops[0]), ops[1..]));
    }
  }

  lemma NewLifeAgrees(config: Config, numBlocks: nat, blockSize: nat, prefixCaching: bool)
    requires blockSize > 0
    ensures P.Tracked(P.NewHistory(numBlocks, blockSize, prefixCaching))
    ensures Agrees(P.NewHistory(numBlocks, blockSize, prefixCaching), NewLife(config, numBlocks, blockSize, prefixCaching).s)
    ensures NewLife(config, numBlocks, blockSize, prefixCaching).s.cache.WellFormed()
  {
    P.NewHistoryTracked(numBlocks, blockSize, prefixCaching);
    var v := NewLife(config, numBlocks, blockSize, prefixCaching);
    NotInAny(v.s.running);
    assert Order(v.s) == [];
  }

  /** The cache operations of that run. */
  ghost function CacheRun(config: Config, numBlocks: nat, blockSize: nat, prefixCaching: bool, ops: seq<Op>): CacheOps
    requires blockSize > 0
  {
    NewLifeAgrees(config, numBlocks, blockSize, prefixCaching);
    RunOps(NewLife(config, numBlocks, blockSize, prefixCaching), ops)
  }

  /**
   * Every scheduler run is a run of cache operations, in which each sequence is committed
   * with the prompt it was allocated for: the scheduler's cache is the state after that run.
   * Passes may start with finished and timed-out sequences still running.
   */
  lemma SchedulerRunsTheCache(config: Config, numBlocks: nat, blockSize: nat, prefixCaching: bool, ops: seq<Op>)
    requires blockSize > 0
    ensures Agrees(P.StateAfter(numBlocks, blockSize, prefixCaching, CacheRun(config, numBlocks, blockSize, prefixCaching, ops)),
                   After(config, numBlocks, blockSize, prefixCaching, ops))
  {
    hide Agrees, P.Tracked, P.Run, RunLife, RunOps;
    NewLifeAgrees(config, numBlocks, blockSize, prefixCaching);
    RunFollows(P.NewHistory(numBlocks, blockSize, prefixCaching), NewLife(config, numBlocks, blockSize, prefixCaching), ops);
  }

  /**
   * Over every run, whatever finishes or times out in between: only running sequences hold
   * blocks, reference counts are exact, and once nothing runs every block is free.
   */
  lemma OnlyRunningHoldBlocks(config: Config, numBlocks: nat, blockSize: nat, prefixCaching: bool, ops: seq<Op>)
    requires blockSize > 0
    ensures var s := After(config, numBlocks, blockSize, prefixCaching, ops);
            && Consistent(s.cache) && s.cache.tables.Keys <= IdSet(s.running)
            && (s.running == [] ==> |s.cache.pool.freeList| == |s.cache.pool.blocks|)
  {
    hide P.Tracked, RunLife, CacheRun, P.StateAfter, Consistent;
    SchedulerRunsTheCache(config, numBlocks, blockSize, prefixCaching, ops);
    var s := After(config, numBlocks, blockSize, prefixCaching, ops);
    AgreesParts(P.StateAfter(numBlocks, blockSize, prefixCaching, CacheRun(config, numBlocks, blockSize, prefixCaching, ops)), s);
    if s.running == [] {
      NotInAny(s.running);
      assert s.cache.tables == map[];
      NoTablesAllFree(s.cache);
    }
  }

  /**
   * Prefix-cache soundness for the whole scheduler: after any run of requests, passes,
   * tokens, preemptions, cancellations and timeouts, a prompt adopts only blocks published
   * under its own prefix and not recycled or rewritten since, unless the index can
   * confuse histories of the run.
   */
  lemma SchedulerAdoptsOwnHistory(config: Config, numBlocks: nat, blockSize: nat, prefixCaching: bool, ops: seq<Op>,
                                  s: SequenceId, prompt: seq<TokenId>)
    requires blockSize > 0
    requires P.Unambiguous(P.Prompts(CacheRun(config, numBlocks, blockSize, prefixCaching, ops)) + {prompt}, blockSize)
    ensures var h := P.StateAfter(numBlocks, blockSize, prefixCaching, CacheRun(config, numBlocks, blockSize, prefixCaching, ops));
            h.m == After(config, numBlocks, blockSize, prefixCaching, ops).cache && P.AdoptsOwnHistory(h, s, prompt)
  {
    hide P.Tracked, P.Run, P.Unambiguous, P.AdoptsOwnHistory, CacheRun, P.StateAfter, After;
    SchedulerRunsTheCache(config, numBlocks, blockSize, prefixCaching, ops);
    P.AdoptedBlocksHoldTheSameHistory(numBlocks, blockSize, prefixCaching,
                                      CacheRun(config, numBlocks, blockSize, prefixCaching, ops), s, prompt);
  }
}
