// Queues and cache agree, through every pass and every operation.
module SchedulerInvariant {
  import opened Prelude
  import opened KvCache
  import opened KvConservation
  import opened Sequences
  import opened Scheduling
  import opened SchedulerOrder

  ghost function IdSet(list: seq<Sequence>): (r: set<SequenceId>)
    ensures forall i :: 0 <= i < |list| ==> list[i].id in r
  {
    set i | 0 <= i < |list| :: list[i].id
  }

  /** A running sequence has begun its prefill, and decodes once it is through. */
  ghost predicate Resident(q: Sequence) {
    match q.state
    case Waiting => false
    case Prefilling => 0 < q.computed < |q.prompt|
    case Decoding => 0 < q.computed == |q.prompt|
    case Finished => 0 < q.computed <= |q.prompt|
  }

  /** A waiting sequence holds nothing: no prefill progress. */
  ghost predicate Queued(q: Sequence) {
    q.state.Waiting? && q.computed == 0
  }

  /**
   * Queues and cache agree: the sequences with a block table are exactly the running ones,
   * waiting ones have no prefill progress, and no id occurs twice.
   */
  ghost predicate Healthy(s: State) {
    && Consistent(s.cache)
    && NoDuplicates(Ids(Order(s)))
    && s.cache.tables.Keys == IdSet(s.running)
    && (forall i :: 0 <= i < |s.running| ==> Resident(s.running[i]))
    && (forall i :: 0 <= i < |s.waiting| ==> Queued(s.waiting[i]))
  }

  ghost predicate NoneFinished(s: State) {
    forall i :: 0 <= i < |s.running| ==> !s.running[i].state.Finished?
  }

  ghost predicate DistinctIds(list: seq<Sequence>) {
    forall i, j :: 0 <= i < j < |list| ==> list[i].id != list[j].id
  }

  lemma IdsAreDistinct(s: State)
    requires NoDuplicates(Ids(Order(s)))
    ensures DistinctIds(s.running) && DistinctIds(s.waiting)
    ensures forall i, j :: 0 <= i < |s.running| && 0 <= j < |s.waiting| ==> s.running[i].id != s.waiting[j].id
    ensures forall x :: x in Ids(s.running) ==> x !in Ids(s.waiting)
  {
    var ids, n := Ids(Order(s)), |s.running|;
    assert forall i :: 0 <= i < n ==> ids[i] == s.running[i].id;
    assert forall j :: 0 <= j < |s.waiting| ==> ids[n + j] == s.waiting[j].id;
  }

  // ----- One scheduling pass -----

  /** The invariant inside a pass that started with no finished sequence running. */
  ghost predicate PassOk(p: Pass) {
    Healthy(p.s) && NoneFinished(p.s)
  }

  lemma IdSetPrefix(list: seq<Sequence>)
    requires list != []
    requires DistinctIds(list)
    ensures IdSet(list[..|list| - 1]) == IdSet(list) - {list[|list| - 1].id}
  {
  }

  lemma IdSetPush(list: seq<Sequence>, q: Sequence)
    ensures IdSet(list + [q]) == IdSet(list) + {q.id}
  {
    assert forall i :: 0 <= i < |list| ==> (list + [q])[i] == list[i];
    assert (list + [q])[|list|] == q;
  }

  lemma IdSetUpdate(list: seq<Sequence>, pos: nat, q: Sequence)
    requires pos < |list| && q.id == list[pos].id
    ensures IdSet(list[pos := q]) == IdSet(list)
  {
    assert forall i :: 0 <= i < |list| ==> list[pos := q][i].id == list[i].id;
  }

  lemma PreemptOk(p: Pass)
    requires PassOk(p) && PreemptOne(p).Some?
    ensures PassOk(PreemptOne(p).value)
  {
    hide Consistent, Freed, Order;
    var n := |p.s.running| - 1;
    var q := PreemptOne(p).value;
    FreeingConserves(p.s.cache, p.s.running[n].id);
    PreemptKeepsOrder(p);
    IdsAreDistinct(p.s);
    IdSetPrefix(p.s.running);
    assert Resident(p.s.running[n]);
  }

  lemma TryAppendOk(p: Pass, id: SequenceId, totalLen: nat)
    requires PassOk(p) && p.s.cache.WellFormed()
    ensures PassOk(TryAppend(p, id, totalLen).0)
  {
    hide Consistent, Appended, Order;
    AppendingIsExact(p.s.cache, id);
    OrderIgnoresCache(p.s, Appended(p.s.cache, id).0);
  }

  lemma DecodeOneOk(p: Pass, id: SequenceId, totalLen: nat)
    requires PassOk(p) && p.s.cache.WellFormed()
    ensures PassOk(DecodeOne(p, id, totalLen).0)
  {
    hide PassOk, TryAppend, PreemptOne;
    TryAppendOk(p, id, totalLen);
    TryAppendWellFormed(p, id, totalLen);
    var q := TryAppend(p, id, totalLen).0;
    PreemptOneWellFormed(q);
    if PreemptOne(q).Some? {
      PreemptOk(q);
      TryAppendOk(PreemptOne(q).value, id, totalLen);
    }
  }

  lemma TryAppendWellFormed(p: Pass, id: SequenceId, totalLen: nat)
    requires p.s.cache.WellFormed()
    ensures TryAppend(p, id, totalLen).0.s.cache.WellFormed()
  {
    AppendedWellFormed(p.s.cache, id);
  }

  lemma {:induction false} DecodesOk(p: Pass, candidates: seq<(SequenceId, nat)>, budget: nat)
    requires PassOk(p) && p.s.cache.WellFormed()
    ensures PassOk(Decodes(p, candidates, budget))
    decreases |candidates|
  {
    hide DecodeOne, PassOk;
    if candidates != [] && p.used < budget {
      DecodeOneWellFormed(p, candidates[0].0, candidates[0].1);
      DecodeOneOk(p, candidates[0].0, candidates[0].1);
      var (q, go) := DecodeOne(p, candidates[0].0, candidates[0].1);
      if go {
        DecodesOk(q, candidates[1..], budget);
      }
    }
  }

  /** Each candidate names a resident prefill at exactly the progress recorded. */
  ghost predicate PartialsMatch(running: seq<Sequence>, candidates: seq<PartialPrefill>) {
    && (forall i, j :: 0 <= i < j < |candidates| ==> candidates[i].id != candidates[j].id)
    && (forall i :: 0 <= i < |candidates| ==> PartialMatches(running, candidates[i]))
  }

  ghost predicate PartialMatches(running: seq<Sequence>, c: PartialPrefill) {
    var pos := Position(running, c.id);
    && pos < |running|
    && var q := running[pos];
       q.state.Prefilling? && q.computed == c.already && c.already < |q.prompt| && c.remaining == |q.prompt| - c.already
  }

  lemma PositionOf(list: seq<Sequence>, i: nat)
    requires i < |list| && forall k :: 0 <= k < i ==> list[k].id != list[i].id
    ensures Position(list, list[i].id) == i
  {
  }

  lemma {:induction false} PartialCandidatesFrom(running: seq<Sequence>, n: nat)
    requires n <= |running|
    requires DistinctIds(running)
    ensures PartialsMatch(running, PartialCandidates(running[..n]))
    ensures forall i :: 0 <= i < |PartialCandidates(running[..n])| ==>
              exists k :: 0 <= k < n && running[k].id == PartialCandidates(running[..n])[i].id
  {
    hide PartialMatches, Position;
    if n > 0 {
      PartialCandidatesFrom(running, n - 1);
      assert running[..n][..n - 1] == running[..n - 1];
      var front, all := PartialCandidates(running[..n - 1]), PartialCandidates(running[..n]);
      if all != front {
        OwnCandidateMatches(running, n - 1);
        assert forall i :: 0 <= i < |front| ==> front[i] == all[i];
      }
    }
  }

  lemma OwnCandidateMatches(running: seq<Sequence>, i: nat)
    requires i < |running| && running[i].state.Prefilling? && !running[i].PrefillComplete()
    requires DistinctIds(running)
    ensures PartialMatches(running, PartialPrefill(running[i].id, running[i].computed, running[i].RemainingPrefill()))
  {
    PositionOf(running, i);
  }

  lemma PrefilledIsResident(q: Sequence, chunk: nat)
    requires q.state.Prefilling? && q.computed < |q.prompt| && 0 < chunk <= |q.prompt| - q.computed
    ensures Resident(Prefilled(q, chunk)) && !Prefilled(q, chunk).state.Finished?
    ensures Prefilled(q, chunk).computed == q.computed + chunk
  {
  }

  lemma PartialOneOk(p: Pass, c: PartialPrefill, budget: nat)
    requires PassOk(p) && PartialMatches(p.s.running, c) && p.used < budget
    ensures PassOk(PartialOne(p, c, budget))
    ensures forall d: PartialPrefill :: d.id != c.id && PartialMatches(p.s.running, d) ==>
              PartialMatches(PartialOne(p, c, budget).s.running, d)
  {
    hide Consistent, Order, Prefilled, Position;
    var pos, q := Position(p.s.running, c.id), PartialOne(p, c, budget);
    forall d: PartialPrefill | d.id != c.id && PartialMatches(p.s.running, d)
      ensures PartialMatches(q.s.running, d)
    {
      PartialOneKeepsOthers(p, c, budget, d);
    }
    if q != p {
      var was, now := p.s.running[pos], q.s.running[pos];
      PrefilledIsResident(was, Chunk(p.s.config, c.remaining, budget - p.used).value);
      UpdateKeepsOrder(p.s, pos, now);
      IdSetUpdate(p.s.running, pos, now);
    }
  }

  lemma UpdateKeepsOrder(s: State, pos: nat, q: Sequence)
    requires pos < |s.running| && Core(q) == Core(s.running[pos])
    ensures Order(s.(running := s.running[pos := q])) == Order(s)
  {
    CoresOfUpdate(s.running, pos, q);
  }

  lemma PositionUnchanged(list: seq<Sequence>, pos: nat, q: Sequence, id: SequenceId)
    requires pos < |list| && q.id == list[pos].id
    ensures Position(list[pos := q], id) == Position(list, id)
  {
    if pos > 0 && list[0].id != id {
      assert list[pos := q][1..] == list[1..][pos - 1 := q];
      PositionUnchanged(list[1..], pos - 1, q, id);
    } else if pos == 0 {
      assert list[pos := q][1..] == list[1..];
    }
  }

  /** A resumed prefill leaves the other candidates as they were recorded. */
  lemma PartialOneKeepsOthers(p: Pass, c: PartialPrefill, budget: nat, d: PartialPrefill)
    requires p.used < budget && d.id != c.id && PartialMatches(p.s.running, d)
    ensures PartialMatches(PartialOne(p, c, budget).s.running, d)
  {
    hide Prefilled, Chunk, Position;
    var pos, q := Position(p.s.running, c.id), PartialOne(p, c, budget);
    if q != p {
      PositionUnchanged(p.s.running, pos, q.s.running[pos], d.id);
    }
  }

  lemma {:induction false} PartialsOk(p: Pass, candidates: seq<PartialPrefill>, budget: nat)
    requires PassOk(p) && PartialsMatch(p.s.running, candidates)
    ensures PassOk(Partials(p, candidates, budget))
    decreases |candidates|
  {
    hide PartialOne, PassOk, PartialMatches;
    if candidates != [] && p.used < budget {
      PartialOneOk(p, candidates[0], budget);
      PartialsOk(PartialOne(p, candidates[0], budget), candidates[1..], budget);
    }
  }

  lemma AdmittedIsResident(q: Sequence, chunk: nat)
    requires Queued(q) && 0 < chunk <= |q.prompt|
    ensures Resident(AdmittedSequence(q, chunk)) && !AdmittedSequence(q, chunk).state.Finished?
    ensures AdmittedSequence(q, chunk).computed == chunk
  {
  }

  lemma AdmitHeadOk(p: Pass, cache: Manager, chunk: nat)
    requires PassOk(p) && p.s.waiting != [] && 0 < chunk <= |p.s.waiting[0].prompt|
    requires Consistent(cache) && cache.tables.Keys == p.s.cache.tables.Keys + {p.s.waiting[0].id}
    ensures PassOk(AdmitHead(p, cache, chunk))
  {
    hide Consistent, Order, AdmittedSequence;
    var head := p.s.waiting[0];
    AdmitHeadKeepsOrder(p, cache, chunk);
    AdmittedIsResident(head, chunk);
    IdSetPush(p.s.running, AdmittedSequence(head, chunk));
  }

  /** In a healthy state the head is admitted whenever its blocks are free: allocation cannot fail. */
  lemma AdmitRoundOk(p: Pass, budget: nat)
    requires PassOk(p) && p.s.cache.WellFormed()
    ensures PassOk(AdmitRound(p, budget).p)
  {
    hide Consistent, Order, Allocated, Freed, AdmitHead, AllocationExact;
    if PreemptOne(p).Some? {
      PreemptOk(p);
    }
    if |p.s.running| < p.s.config.maxNumSeqs && p.used < budget && p.s.waiting != [] {
      var next := p.s.waiting[0];
      assert Queued(next);
      IdsAreDistinct(p.s);
      assert next.id !in IdSet(p.s.running);
      AllocationIsExact(p.s.cache, next.id, next.prompt);
      var chunk := Chunk(p.s.config, next.RemainingPrefill(), budget - p.used);
      if chunk.Some? && chunk.value > 0 && CanAllocate(p.s.cache, |next.prompt|) {
        var cache := Allocated(p.s.cache, next.id, next.prompt).0;
        AllocationKeys(p.s.cache, next.id, next.prompt);
        AdmitHeadOk(p, cache, chunk.value);
      }
    }
  }

  lemma AllocationKeys(m: Manager, s: SequenceId, prompt: seq<TokenId>)
    requires Consistent(m) && Allocated(m, s, prompt).1.Ok?
    ensures Consistent(Allocated(m, s, prompt).0)
    ensures Allocated(m, s, prompt).0.tables.Keys == m.tables.Keys + {s}
    ensures |Allocated(m, s, prompt).0.pool.blocks| == |m.pool.blocks|
    ensures Allocated(m, s, prompt).0.pool.blockSize == m.pool.blockSize
  {
    hide Allocated, Consistent, LeadingRun, FreshTail;
    AllocationIsExact(m, s, prompt);
  }

  lemma {:induction false} AdmitOk(p: Pass, budget: nat)
    requires PassOk(p) && p.s.cache.WellFormed()
    ensures PassOk(Admit(p, budget))
    decreases SaturatingSub(budget, p.used), |p.s.running|
  {
    hide AdmitRound, PassOk;
    AdmitRoundProgress(p, budget);
    AdmitRoundOk(p, budget);
    match AdmitRound(p, budget)
    case Done(q) =>
    case Again(q) => AdmitOk(q, budget);
  }

  lemma PrefillsOk(p: Pass, budget: nat)
    requires PassOk(p) && p.s.cache.WellFormed()
    ensures PassOk(Prefills(p, budget))
  {
    hide PartialsMatch, Partials, Admit, PartialCandidates, Consistent, Order;
    IdsAreDistinct(p.s);
    PartialCandidatesFrom(p.s.running, |p.s.running|);
    assert p.s.running[..|p.s.running|] == p.s.running;
    PartialsOk(p, PartialCandidates(p.s.running), budget);
    AdmitOk(Partials(p, PartialCandidates(p.s.running), budget), budget);
  }

  lemma ScheduleOk(s: State)
    requires Healthy(s) && NoneFinished(s)
    ensures PassOk(Schedule(s))
  {
    hide Healthy, NoneFinished, Prefills, Decodes, DecodeCandidates;
    HealthyIsWellFormed(s);
    var budget := s.config.maxBatchedTokens;
    var start := StartPass(s);
    if s.config.prioritizeDecode {
      DecodesOk(start, DecodeCandidates(s.running), budget);
      PrefillsOk(DecodePass(start, budget), budget);
    } else {
      PrefillsOk(start, budget);
      var p := Prefills(start, budget);
      DecodesOk(p, DecodeCandidates(p.s.running), budget);
    }
  }

  lemma HealthyIsWellFormed(s: State)
    requires Healthy(s)
    ensures s.cache.WellFormed()
  {
  }

  // ----- Ids that leave a list -----

  /** The ids not in `gone`, in order. */
  ghost function Without(ids: seq<SequenceId>, gone: set<SequenceId>): seq<SequenceId> {
    if ids == [] then []
    else
      var front, last := Without(ids[..|ids| - 1], gone), ids[|ids| - 1];
      if last in gone then front else front + [last]
  }

  lemma {:induction false} WithoutIsSublist(ids: seq<SequenceId>, gone: set<SequenceId>)
    ensures forall x :: x in Without(ids, gone) ==> x in ids && x !in gone
    ensures NoDuplicates(ids) ==> NoDuplicates(Without(ids, gone))
  {
    if ids != [] {
      WithoutIsSublist(ids[..|ids| - 1], gone);
    }
  }

  lemma {:induction false} WithoutConcat(a: seq<SequenceId>, b: seq<SequenceId>, gone: set<SequenceId>)
    ensures Without(a + b, gone) == Without(a, gone) + Without(b, gone)
  {
    if b == [] {
      assert a + b == a;
    } else {
      WithoutConcat(a, b[..|b| - 1], gone);
      assert (a + b)[..|a + b| - 1] == a + b[..|b| - 1];
    }
  }

  lemma {:induction false} WithoutTwice(ids: seq<SequenceId>, a: set<SequenceId>, b: set<SequenceId>)
    ensures Without(Without(ids, a), b) == Without(ids, a + b)
  {
    if ids != [] {
      var front, last := ids[..|ids| - 1], ids[|ids| - 1];
      WithoutTwice(front, a, b);
      if last !in a {
        assert (Without(front, a) + [last])[..|Without(front, a)|] == Without(front, a);
      }
    }
  }

  lemma {:induction false} WithoutOthers(ids: seq<SequenceId>, gone: set<SequenceId>)
    requires forall x :: x in ids ==> x !in gone
    ensures Without(ids, gone) == ids
  {
    if ids != [] {
      WithoutOthers(ids[..|ids| - 1], gone);
    }
  }

  lemma IdsOfOrder(s: State)
    ensures Ids(Order(s)) == Ids(s.running) + Ids(s.waiting)
  {
  }

  lemma IdsPush(list: seq<Sequence>, q: Sequence)
    ensures Ids(list + [q]) == Ids(list) + [q.id]
  {
  }

  lemma RemoveAtIsWithout(list: seq<Sequence>, pos: nat)
    requires pos < |list|
    requires DistinctIds(list)
    ensures Ids(RemoveAt(list, pos)) == Without(Ids(list), {list[pos].id})
  {
    hide Without, DistinctIds;
    var a, b, x := list[..pos], list[pos + 1..], list[pos].id;
    RemoveAtIds(list, pos);
    OthersDiffer(list, pos);
    WithoutConcat(Ids(a) + [x], Ids(b), {x});
    WithoutConcat(Ids(a), [x], {x});
    WithoutOthers(Ids(a), {x});
    WithoutOthers(Ids(b), {x});
    WithoutItself(x);
  }

  lemma WithoutItself(x: SequenceId)
    ensures Without([x], {x}) == []
  {
  }

  lemma RemoveAtIds(list: seq<Sequence>, pos: nat)
    requires pos < |list|
    ensures Ids(list) == Ids(list[..pos]) + [list[pos].id] + Ids(list[pos + 1..])
    ensures Ids(RemoveAt(list, pos)) == Ids(list[..pos]) + Ids(list[pos + 1..])
  {
  }

  lemma OthersDiffer(list: seq<Sequence>, pos: nat)
    requires pos < |list| && DistinctIds(list)
    ensures list[pos].id !in Ids(list[..pos]) && list[pos].id !in Ids(list[pos + 1..])
  {
  }

  lemma {:induction false} RejectedIsWithout(list: seq<Sequence>, gone: set<SequenceId>)
    ensures Ids(Rejected(list, gone)) == Without(Ids(list), gone)
    ensures forall i :: 0 <= i < |Rejected(list, gone)| ==> Rejected(list, gone)[i] in list
    ensures Without(Ids(list), IdSet(Selected(list, gone))) == Without(Ids(list), gone)
    ensures IdSet(Selected(list, gone)) <= gone
    ensures forall x :: x in IdSet(Selected(list, gone)) ==> x in Ids(list)
  {
    SelectedIds(list, gone);
    WithoutSame(Ids(list), IdSet(Selected(list, gone)), gone);
    RejectedIds(list, gone);
  }

  lemma {:induction false} RejectedIds(list: seq<Sequence>, gone: set<SequenceId>)
    ensures Ids(Rejected(list, gone)) == Without(Ids(list), gone)
    ensures forall i :: 0 <= i < |Rejected(list, gone)| ==> Rejected(list, gone)[i] in list
  {
    if list != [] {
      var front, q := list[..|list| - 1], list[|list| - 1];
      RejectedIds(front, gone);
      assert Ids(list)[..|list| - 1] == Ids(front);
      IdsPush(Rejected(front, gone), q);
    }
  }

  lemma {:induction false} SelectedIds(list: seq<Sequence>, gone: set<SequenceId>)
    ensures forall x: SequenceId :: x in IdSet(Selected(list, gone)) <==> x in gone && x in Ids(list)
  {
    if list != [] {
      var front, q := list[..|list| - 1], list[|list| - 1];
      SelectedIds(front, gone);
      assert Ids(list) == Ids(front) + [q.id];
      IdSetPush(Selected(front, gone), q);
    }
  }

  lemma {:induction false} WithoutSame(ids: seq<SequenceId>, a: set<SequenceId>, b: set<SequenceId>)
    requires forall x :: x in ids ==> (x in a <==> x in b)
    ensures Without(ids, a) == Without(ids, b)
  {
    if ids != [] {
      WithoutSame(ids[..|ids| - 1], a, b);
    }
  }

  lemma {:induction false} UnfinishedSplits(list: seq<Sequence>)
    ensures IdSet(list) == IdSet(Unfinished(list)) + IdSet(FinishedOnly(list))
    ensures forall i :: 0 <= i < |Unfinished(list)| ==> Unfinished(list)[i] in list && !Unfinished(list)[i].state.Finished?
    ensures forall i :: 0 <= i < |FinishedOnly(list)| ==> FinishedOnly(list)[i] in list
    ensures |Unfinished(list)| <= |list|
  {
    hide IdSet;
    if list == [] {
      NotInAny(list);
    } else {
      var front, q := list[..|list| - 1], list[|list| - 1];
      UnfinishedSplits(front);
      assert list == front + [q];
      IdSetPush(front, q);
      IdSetPush(FinishedOnly(front), q);
      IdSetPush(Unfinished(front), q);
    }
  }

  lemma NotInAny(list: seq<Sequence>)
    requires list == []
    ensures IdSet(list) == {}
  {
  }

  lemma {:induction false} UnfinishedIsWithout(list: seq<Sequence>)
    requires DistinctIds(list)
    ensures Ids(Unfinished(list)) == Without(Ids(list), IdSet(FinishedOnly(list)))
    ensures IdSet(Unfinished(list)) == IdSet(list) - IdSet(FinishedOnly(list))
  {
    hide IdSet;
    if list == [] {
      NotInAny(list);
    } else {
      var front, q := list[..|list| - 1], list[|list| - 1];
      UnfinishedIsWithout(front);
      UnfinishedSplits(front);
      assert Ids(list)[..|list| - 1] == Ids(front);
      assert list == front + [q];
      IdSetPush(front, q);
      NotInIdSet(front, q.id);
      if q.state.Finished? {
        IdSetPush(FinishedOnly(front), q);
        WithoutSame(Ids(front), IdSet(FinishedOnly(front)), IdSet(FinishedOnly(list)));
      } else {
        IdSetPush(Unfinished(front), q);
        IdsPush(Unfinished(front), q);
      }
    }
  }

  // ----- The other operations -----

  lemma AddedIds(s: State, q: Sequence)
    requires s.cache.WellFormed()
    ensures AddCheck(s, q) == None ==> Ids(Order(Added(s, q))) == Ids(Order(s)) + [q.id]
  {
    hide AddCheck;
    IdsOfOrder(s);
    IdsPush(s.waiting, q);
    IdsOfOrder(Added(s, q));
  }

  lemma NoDuplicatesPush(ids: seq<SequenceId>, x: SequenceId)
    requires NoDuplicates(ids) && x !in ids
    ensures NoDuplicates(ids + [x])
  {
  }

  lemma NewIsHealthy(config: Config, numBlocks: nat, blockSize: nat, prefixCaching: bool)
    requires blockSize > 0
    ensures Healthy(NewState(config, NewManager(numBlocks, blockSize, prefixCaching)))
  {
    NewManagerConsistent(numBlocks, blockSize, prefixCaching);
    var s := NewState(config, NewManager(numBlocks, blockSize, prefixCaching));
    NotInAny(s.running);
    assert Order(s) == [];
  }

  lemma AddHealthy(s: State, q: Sequence)
    requires Healthy(s) && Queued(q) && q.id !in Ids(Order(s))
    ensures s.cache.WellFormed() && Healthy(Added(s, q))
  {
    hide Consistent, AddCheck, Resident, NoDuplicates, Order, IdSet;
    HealthyIsWellFormed(s);
    AddedIds(s, q);
    NoDuplicatesPush(Ids(Order(s)), q.id);
  }

  /** Replacing running sequences by resident ones with the same ids. */
  lemma ReplaceHealthy(s: State, now: seq<Sequence>)
    requires Healthy(s) && |now| == |s.running|
    requires forall i :: 0 <= i < |now| ==> Resident(now[i]) && now[i].id == s.running[i].id
    ensures Healthy(s.(running := now))
  {
    hide Consistent, NoDuplicates, Resident, Queued;
    IdsOfOrder(s);
    IdsOfOrder(s.(running := now));
    assert Ids(now) == Ids(s.running);
    IdSetPointwise(s.running, now);
  }

  lemma IdSetPointwise(a: seq<Sequence>, b: seq<Sequence>)
    requires |a| == |b| && forall i :: 0 <= i < |a| ==> a[i].id == b[i].id
    ensures IdSet(a) == IdSet(b)
  {
    assert forall i :: 0 <= i < |a| ==> a[i].id in IdSet(b);
    assert forall i :: 0 <= i < |b| ==> b[i].id in IdSet(a);
  }

  lemma TokenKeepsResident(q: Sequence, token: TokenId, eosIds: seq<TokenId>)
    requires Resident(q)
    ensures Resident(WithToken(q, token, eosIds).0)
    ensures WithToken(q, token, eosIds).0.id == q.id
  {
  }

  lemma TokenHealthy(s: State, id: SequenceId, token: TokenId, eosIds: seq<TokenId>)
    requires Healthy(s)
    ensures Healthy(Tokened(s, id, token, eosIds).0)
    ensures |Tokened(s, id, token, eosIds).0.running| == |s.running|
  {
    hide Healthy, Position, WithToken, Resident;
    HealthyIsResident(s);
    var pos := Position(s.running, id);
    if pos < |s.running| {
      TokenKeepsResident(s.running[pos], token, eosIds);
      ReplaceHealthy(s, s.running[pos := WithToken(s.running[pos], token, eosIds).0]);
    }
  }

  lemma HealthyIsResident(s: State)
    requires Healthy(s)
    ensures forall i :: 0 <= i < |s.running| ==> Resident(s.running[i])
  {
  }

  lemma {:induction false} FreedAllConserves(m: Manager, list: seq<Sequence>)
    requires Consistent(m)
    ensures Consistent(FreedAll(m, list))
    ensures FreedAll(m, list).tables == m.tables - IdSet(list)
    ensures |FreedAll(m, list).pool.blocks| == |m.pool.blocks|
    ensures FreedAll(m, list).pool.blockSize == m.pool.blockSize
    decreases |list|
  {
    hide Consistent, Freed;
    if list == [] {
      assert m.tables - IdSet(list) == m.tables;
    } else {
      FreeingConserves(m, list[0].id);
      FreedAllConserves(Freed(m, list[0].id), list[1..]);
      assert list == [list[0]] + list[1..];
      assert IdSet(list) == {list[0].id} + IdSet(list[1..]) by {
        assert forall i :: 0 <= i < |list| - 1 ==> list[1..][i] == list[i + 1];
      }
      assert m.tables - {list[0].id} - IdSet(list[1..]) == m.tables - IdSet(list);
    }
  }

  /** What remains when the requests in `gone` leave. */
  ghost predicate Remains(s: State, after: State, gone: set<SequenceId>) {
    && Consistent(after.cache) && after.cache.tables.Keys == IdSet(after.running)
    && (forall i :: 0 <= i < |after.running| ==> after.running[i] in s.running)
    && (forall i :: 0 <= i < |after.waiting| ==> after.waiting[i] in s.waiting)
    && Ids(after.running) + Ids(after.waiting) == Without(Ids(s.running) + Ids(s.waiting), gone)
  }

  lemma LeaveHealthy(s: State, after: State, gone: set<SequenceId>)
    requires Healthy(s) && Remains(s, after, gone)
    ensures Healthy(after)
  {
    hide Consistent, Resident, Queued, NoDuplicates, IdSet, Order;
    IdsOfOrder(s);
    IdsOfOrder(after);
    WithoutIsSublist(Ids(s.running) + Ids(s.waiting), gone);
  }

  lemma ReapHealthy(s: State)
    requires Healthy(s)
    ensures Healthy(Reaped(s).0) && |Reaped(s).0.running| <= |s.running|
  {
    hide Consistent, FreedAll, Resident, Queued, NoDuplicates, DistinctIds, IdSet;
    var gone := IdSet(FinishedOnly(s.running));
    ReapedIds(s);
    IdsAreDistinct(s);
    FreedAllConserves(s.cache, FinishedOnly(s.running));
    UnfinishedIsWithout(s.running);
    UnfinishedSplits(s.running);
    LeaveHealthy(s, Reaped(s).0, gone);
  }

  lemma ReapedIds(s: State)
    requires NoDuplicates(Ids(Order(s)))
    ensures var after, gone := Reaped(s).0, IdSet(FinishedOnly(s.running));
            && Ids(after.running) + Ids(after.waiting) == Without(Ids(s.running) + Ids(s.waiting), gone)
            && forall x :: x in gone ==> x in Ids(s.running)
  {
    hide FreedAll, NoDuplicates, DistinctIds, IdSet, Order;
    var gone := IdSet(FinishedOnly(s.running));
    IdsAreDistinct(s);
    UnfinishedIsWithout(s.running);
    UnfinishedSplits(s.running);
    IdSetInIds(s.running, gone);
    DepartFromFront(Ids(s.running), Ids(s.waiting), gone);
  }

  lemma DepartFromFront(r: seq<SequenceId>, w: seq<SequenceId>, gone: set<SequenceId>)
    requires forall x :: x in r ==> x !in w
    requires forall x :: x in gone ==> x in r
    ensures Without(r, gone) + w == Without(r + w, gone)
  {
    WithoutConcat(r, w, gone);
    WithoutOthers(w, gone);
  }

  lemma DepartFromBack(r: seq<SequenceId>, w: seq<SequenceId>, gone: set<SequenceId>)
    requires forall x :: x in r ==> x !in w
    requires forall x :: x in gone ==> x in w
    ensures r + Without(w, gone) == Without(r + w, gone)
  {
    WithoutConcat(r, w, gone);
    WithoutOthers(r, gone);
  }

  lemma IdSetInIds(list: seq<Sequence>, ids: set<SequenceId>)
    requires forall x :: x in ids ==> x in IdSet(list)
    ensures forall x :: x in ids ==> x in Ids(list)
  {
    forall x | x in ids ensures x in Ids(list) {
      var i :| 0 <= i < |list| && list[i].id == x;
      assert Ids(list)[i] == x;
    }
  }

  /** The ids that a cancellation takes away. */
  function CancelledIds(s: State, id: SequenceId): set<SequenceId> {
    if CancelledState(s, id).1 then {id} else {}
  }

  lemma RemainingIds(s: State, id: SequenceId)
    requires NoDuplicates(Ids(Order(s)))
    ensures var after, gone := CancelledState(s, id).0, CancelledIds(s, id);
            && Ids(after.running) + Ids(after.waiting) == Without(Ids(s.running) + Ids(s.waiting), gone)
            && forall x :: x in gone ==> x in Ids(s.running) + Ids(s.waiting)
  {
    hide Freed, NoDuplicates, RemoveAt, DistinctIds, Order;
    IdsAreDistinct(s);
    var w, r := Position(s.waiting, id), Position(s.running, id);
    if w < |s.waiting| {
      RemoveAtIsWithout(s.waiting, w);
      assert Ids(s.waiting)[w] == id;
      DepartFromBack(Ids(s.running), Ids(s.waiting), {id});
    } else if r < |s.running| {
      RemoveAtIsWithout(s.running, r);
      assert Ids(s.running)[r] == id;
      DepartFromFront(Ids(s.running), Ids(s.waiting), {id});
    } else {
      WithoutOthers(Ids(s.running) + Ids(s.waiting), {});
    }
  }

  lemma CancelHealthy(s: State, id: SequenceId)
    requires Healthy(s)
    ensures Healthy(CancelledState(s, id).0) && |CancelledState(s, id).0.running| <= |s.running|
  {
    hide Consistent, Freed, Resident, Queued, NoDuplicates, RemoveAt, IdSet, DistinctIds, Without, Order;
    RemainingIds(s, id);
    IdsAreDistinct(s);
    var w, r, after := Position(s.waiting, id), Position(s.running, id), CancelledState(s, id).0;
    if w < |s.waiting| {
      RemoveAtMembers(s.waiting, w);
      LeaveHealthy(s, after, {id});
    } else if r < |s.running| {
      FreeingConserves(s.cache, id);
      RemoveAtIdSet(s.running, r);
      RemoveAtMembers(s.running, r);
      LeaveHealthy(s, after, {id});
    }
  }

  lemma IdSetConcat(a: seq<Sequence>, b: seq<Sequence>)
    ensures IdSet(a + b) == IdSet(a) + IdSet(b)
  {
    forall x: SequenceId ensures x in IdSet(a + b) <==> x in IdSet(a) || x in IdSet(b) {
      if x in IdSet(a + b) {
        var i :| 0 <= i < |a + b| && (a + b)[i].id == x;
        assert i < |a| ==> a[i].id == x;
        assert i >= |a| ==> b[i - |a|].id == x;
      }
      if x in IdSet(a) {
        var i :| 0 <= i < |a| && a[i].id == x;
        assert (a + b)[i].id == x;
      }
      if x in IdSet(b) {
        var i :| 0 <= i < |b| && b[i].id == x;
        assert (a + b)[|a| + i].id == x;
      }
    }
  }

  lemma NotInIdSet(list: seq<Sequence>, x: SequenceId)
    requires forall i :: 0 <= i < |list| ==> list[i].id != x
    ensures x !in IdSet(list)
  {
  }

  lemma RemoveAtIdSet(list: seq<Sequence>, pos: nat)
    requires pos < |list|
    requires DistinctIds(list)
    ensures IdSet(RemoveAt(list, pos)) == IdSet(list) - {list[pos].id}
  {
    hide IdSet;
    var a, q, b := list[..pos], list[pos], list[pos + 1..];
    assert list == a + [q] + b;
    IdSetConcat(a + [q], b);
    IdSetPush(a, q);
    IdSetConcat(a, b);
    NotInIdSet(a, q.id);
    NotInIdSet(b, q.id);
  }

  lemma RemoveAtMembers(list: seq<Sequence>, pos: nat)
    requires pos < |list|
    ensures |RemoveAt(list, pos)| == |list| - 1
    ensures forall i :: 0 <= i < |RemoveAt(list, pos)| ==> RemoveAt(list, pos)[i] in list
  {
  }

  lemma CommitHealthy(s: State, id: SequenceId)
    requires Healthy(s)
    ensures s.cache.WellFormed() && Healthy(CommittedState(s, id))
  {
    hide Consistent, Committed, Position;
    HealthyIsWellFormed(s);
    var pos := Position(s.running, id);
    if pos < |s.running| {
      CommittingConserves(s.cache, id, s.running[pos].prompt);
    }
  }

  lemma ExpireHealthy(s: State, late: set<SequenceId>)
    requires Healthy(s)
    ensures Healthy(Expired(s, late).0) && |Expired(s, late).0.running| == |s.running|
  {
    hide Consistent, NoDuplicates, Resident, Queued, IdSet, Without, Order;
    var t := s.(running := FinishIn(s.running, late, Timeout));
    FinishInKeepsResidents(s.running, late);
    ReplaceHealthy(s, t.running);
    ExpiredIdsRemain(t, late);
    RejectedIsWithout(t.waiting, late);
    LeaveHealthy(t, Expired(s, late).0, IdSet(Selected(t.waiting, late)));
  }

  lemma ExpiredIdsRemain(s: State, late: set<SequenceId>)
    requires NoDuplicates(Ids(Order(s)))
    ensures var gone := IdSet(Selected(s.waiting, late));
            && Ids(s.running) + Ids(Rejected(s.waiting, late)) == Without(Ids(s.running) + Ids(s.waiting), gone)
            && forall x :: x in gone ==> x in Ids(s.waiting)
  {
    hide NoDuplicates, IdSet, DistinctIds, Order, Without;
    IdsAreDistinct(s);
    RejectedIsWithout(s.waiting, late);
    DepartFromBack(Ids(s.running), Ids(s.waiting), IdSet(Selected(s.waiting, late)));
  }

  lemma FinishInKeepsResidents(list: seq<Sequence>, late: set<SequenceId>)
    requires forall i :: 0 <= i < |list| ==> Resident(list[i])
    ensures forall i :: 0 <= i < |list| ==>
              var q := FinishIn(list, late, Timeout)[i];
              Resident(q) && q.id == list[i].id
  {
    forall i | 0 <= i < |list| ensures Resident(FinishIn(list, late, Timeout)[i]) {
      assert Resident(list[i]);
    }
  }
}
