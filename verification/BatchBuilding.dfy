// The batch handed to the model: it can always be built, and where its decodes are placed.
module BatchBuilding {
  import opened Prelude
  import opened Arithmetic
  import opened KvCache
  import opened KvConservation
  import opened Sequences
  import opened Scheduling
  import opened SchedulerOrder
  import opened SchedulerInvariant
  import opened NoStall
  import opened EngineSteps
  import Drain
  import opened Attention

  // ----- Chunks stay inside their prompts -----

  /** A prefill entry lies inside the prompt of its sequence. */
  ghost predicate EntryFits(live: seq<Sequence>, e: Scheduled) {
    e.isPrefill ==> forall q :: q in live && q.id == e.id ==> e.startPosition + e.numTokens <= |q.prompt|
  }

  ghost predicate EntriesFit(live: seq<Sequence>, batch: seq<Scheduled>) {
    forall k :: 0 <= k < |batch| ==>
      EntryFits(live, batch[k]) && batch[k].numTokens > 0 && (batch[k].isPrefill || batch[k].numTokens == 1)
  }

  lemma DecodeOneFits(live: seq<Sequence>, p: Pass, id: SequenceId, totalLen: nat)
    requires p.s.cache.WellFormed() && EntriesFit(live, p.scheduled)
    ensures EntriesFit(live, DecodeOne(p, id, totalLen).0.scheduled)
  {
    hide Appended, Freed;
    AppendedWellFormed(p.s.cache, id);
    PreemptOneWellFormed(TryAppend(p, id, totalLen).0);
  }

  lemma {:induction false} DecodesFit(live: seq<Sequence>, p: Pass, candidates: seq<(SequenceId, nat)>, budget: nat)
    requires p.s.cache.WellFormed() && EntriesFit(live, p.scheduled)
    ensures EntriesFit(live, Decodes(p, candidates, budget).scheduled)
    decreases |candidates|
  {
    hide DecodeOne, EntriesFit;
    if candidates != [] && p.used < budget {
      DecodeOneWellFormed(p, candidates[0].0, candidates[0].1);
      DecodeOneFits(live, p, candidates[0].0, candidates[0].1);
      var (q, go) := DecodeOne(p, candidates[0].0, candidates[0].1);
      if go {
        DecodesFit(live, q, candidates[1..], budget);
      }
    }
  }

  lemma SameIdInOrder(s: State, i: nat, q: Sequence)
    requires NoDuplicates(Ids(Order(s))) && i < |Order(s)| && q in Order(s) && q.id == Order(s)[i].id
    ensures q == Order(s)[i]
  {
    var j :| 0 <= j < |Order(s)| && Order(s)[j] == q;
    assert Ids(Order(s))[i] == Ids(Order(s))[j];
  }

  /** An entry for the sequence at place i of the order fits when it fits that prompt. */
  lemma OwnEntryFits(s: State, i: nat, e: Scheduled)
    requires NoDuplicates(Ids(Order(s))) && i < |Order(s)| && Order(s)[i].id == e.id
    requires e.startPosition + e.numTokens <= |Order(s)[i].prompt|
    ensures EntryFits(Order(s), e)
  {
    forall q | q in Order(s) && q.id == e.id ensures e.startPosition + e.numTokens <= |q.prompt| {
      SameIdInOrder(s, i, q);
    }
  }

  lemma PartialOneFits(p: Pass, c: PartialPrefill, budget: nat)
    requires NoDuplicates(Ids(Order(p.s))) && PartialMatches(p.s.running, c) && p.used < budget
    requires EntriesFit(Order(p.s), p.scheduled)
    ensures EntriesFit(Order(p.s), PartialOne(p, c, budget).scheduled)
    ensures Order(PartialOne(p, c, budget).s) == Order(p.s)
  {
    hide NoDuplicates, Prefilled;
    var pos, q := Position(p.s.running, c.id), PartialOne(p, c, budget);
    if q != p {
      var chunk := Chunk(p.s.config, c.remaining, budget - p.used).value;
      assert Order(p.s)[pos] == Core(p.s.running[pos]);
      OwnEntryFits(p.s, pos, Scheduled(c.id, chunk, c.already, true));
      UpdateKeepsOrder(p.s, pos, q.s.running[pos]);
    }
  }

  lemma {:induction false} PartialsFit(p: Pass, candidates: seq<PartialPrefill>, budget: nat)
    requires NoDuplicates(Ids(Order(p.s))) && PartialsMatch(p.s.running, candidates) && EntriesFit(Order(p.s), p.scheduled)
    ensures EntriesFit(Order(p.s), Partials(p, candidates, budget).scheduled)
    decreases |candidates|
  {
    hide PartialOne, PartialMatches, EntriesFit, Order, NoDuplicates;
    if candidates != [] && p.used < budget {
      PartialOneFits(p, candidates[0], budget);
      var q := PartialOne(p, candidates[0], budget);
      forall i | 0 < i < |candidates| ensures PartialMatches(q.s.running, candidates[i]) {
        PartialOneKeepsOthers(p, candidates[0], budget, candidates[i]);
      }
      PartialsFit(q, candidates[1..], budget);
    }
  }

  lemma AdmitRoundFits(p: Pass, budget: nat)
    requires NoDuplicates(Ids(Order(p.s))) && p.s.cache.WellFormed() && EntriesFit(Order(p.s), p.scheduled)
    ensures EntriesFit(Order(p.s), AdmitRound(p, budget).p.scheduled)
  {
    hide Allocated, Freed, CeilDiv, NoDuplicates, AdmittedSequence;
    if p.s.waiting != [] {
      var next, i := p.s.waiting[0], |p.s.running|;
      assert Order(p.s)[i] == Core(next);
      var chunk := Chunk(p.s.config, next.RemainingPrefill(), SaturatingSub(budget, p.used));
      if chunk.Some? && chunk.value > 0 {
        OwnEntryFits(p.s, i, Scheduled(next.id, chunk.value, next.computed, true));
      }
    }
  }

  lemma {:induction false} AdmitFits(p: Pass, budget: nat)
    requires NoDuplicates(Ids(Order(p.s))) && p.s.cache.WellFormed() && EntriesFit(Order(p.s), p.scheduled)
    ensures EntriesFit(Order(p.s), Admit(p, budget).scheduled)
    decreases SaturatingSub(budget, p.used), |p.s.running|
  {
    hide AdmitRound, EntriesFit, Order, NoDuplicates;
    AdmitRoundProgress(p, budget);
    AdmitRoundFits(p, budget);
    AdmitRoundKeepsOrder(p, budget);
    match AdmitRound(p, budget)
    case Done(q) =>
    case Again(q) => AdmitFits(q, budget);
  }

  lemma PrefillsFit(p: Pass, budget: nat)
    requires NoDuplicates(Ids(Order(p.s))) && p.s.cache.WellFormed() && EntriesFit(Order(p.s), p.scheduled)
    ensures EntriesFit(Order(p.s), Prefills(p, budget).scheduled)
  {
    hide PartialsMatch, Partials, Admit, PartialCandidates, Order, EntriesFit;
    var candidates := PartialCandidates(p.s.running);
    IdsAreDistinct(p.s);
    PartialCandidatesFrom(p.s.running, |p.s.running|);
    assert p.s.running[..|p.s.running|] == p.s.running;
    PartialsFit(p, candidates, budget);
    PartialsKeepOrder(p, candidates, budget);
    AdmitFits(Partials(p, candidates, budget), budget);
  }

  /** Every prefill chunk of a batch lies inside its prompt, whatever is preempted and re-admitted meanwhile. */
  lemma ScheduleFits(s: State)
    requires NoDuplicates(Ids(Order(s))) && s.cache.WellFormed()
    ensures EntriesFit(Order(s), Schedule(s).scheduled)
  {
    hide Prefills, Decodes, DecodeCandidates, Order, EntryFits, NoDuplicates;
    var budget := s.config.maxBatchedTokens;
    var start := StartPass(s);
    if s.config.prioritizeDecode {
      DecodesFit(Order(s), start, DecodeCandidates(s.running), budget);
      DecodesKeepOrder(start, DecodeCandidates(s.running), budget);
      PrefillsFit(DecodePass(start, budget), budget);
    } else {
      PrefillsFit(start, budget);
      var p := Prefills(start, budget);
      DecodesFit(Order(s), p, DecodeCandidates(p.s.running), budget);
    }
  }

  // ----- The batch -----

  /** A row carries the scheduled chunk of its prompt, or one token to decode. */
  ghost predicate RowCarries(s: State, batch: seq<Scheduled>, row: BatchRow) {
    exists k, i :: 0 <= k < |batch| && 0 <= i < |s.running| && s.running[i].id == batch[k].id == row.id
      && row.startPosition == batch[k].startPosition
      && |row.tokens| == batch[k].numTokens
      && row.id in s.cache.tables && row.table == s.cache.tables[row.id].blocks
      && (batch[k].isPrefill ==> Chunked(s.running[i], batch[k], row))
  }

  ghost predicate Chunked(q: Sequence, e: Scheduled, row: BatchRow) {
    e.startPosition + e.numTokens <= |q.prompt| && row.tokens == q.prompt[e.startPosition..e.startPosition + e.numTokens]
  }

  lemma RowForCarries(s: State, batch: seq<Scheduled>, k: nat)
    requires k < |batch| && s.cache.tables.Keys == IdSet(s.running) && EntriesFit(Order(s), batch)
    ensures !RowFor(s, batch[k]).Fail?
    ensures RowFor(s, batch[k]).Run? ==> RowCarries(s, batch, RowFor(s, batch[k]).row)
  {
    hide Order, EntryFits;
    var e := batch[k];
    var pos := Position(s.running, e.id);
    if pos < |s.running| {
      assert s.running[pos].id in IdSet(s.running);
      EntryInPrompt(s, pos, e);
      if RowFor(s, e).Run? {
        assert s.running[pos].id == batch[k].id == RowFor(s, e).row.id;
      }
    }
  }

  lemma EntryInPrompt(s: State, pos: nat, e: Scheduled)
    requires pos < |s.running| && s.running[pos].id == e.id && EntryFits(Order(s), e)
    ensures e.isPrefill ==> e.startPosition + e.numTokens <= |s.running[pos].prompt|
  {
    assert Order(s)[pos] == Core(s.running[pos]);
    assert Order(s)[pos] in Order(s);
  }

  lemma {:induction false} BatchCarries(s: State, batch: seq<Scheduled>, n: nat)
    requires n <= |batch| && s.cache.tables.Keys == IdSet(s.running) && EntriesFit(Order(s), batch)
    ensures BuildBatch(s, batch[..n]).Some?
    ensures forall r :: 0 <= r < |BuildBatch(s, batch[..n]).value| ==> RowCarries(s, batch, BuildBatch(s, batch[..n]).value[r])
  {
    hide RowFor, EntriesFit, RowCarries, Order, IdSet;
    if n > 0 {
      BatchCarries(s, batch, n - 1);
      assert batch[..n][..n - 1] == batch[..n - 1];
      RowForCarries(s, batch, n - 1);
    }
  }

  /**
   * The batch of a healthy scheduler can always be built: every scheduled sequence that is
   * still resident has its block table, and every row carries exactly the tokens scheduled.
   */
  lemma BatchAlwaysBuilds(s: State)
    requires Healthy(s) && NoneFinished(s) && s.cache.WellFormed() && |s.running| <= s.config.maxNumSeqs
    ensures var p := Schedule(s);
            && BuildBatch(p.s, p.scheduled).Some?
            && forall r :: 0 <= r < |BuildBatch(p.s, p.scheduled).value| ==>
                 RowCarries(p.s, p.scheduled, BuildBatch(p.s, p.scheduled).value[r])
  {
    hide Healthy, Schedule, BuildBatch, RowCarries, EntriesFit, Order, NoDuplicates;
    var p := Schedule(s);
    ScheduleOk(s);
    HealthyIds(s);
    ScheduleFits(s);
    ScheduleKeepsOrder(s);
    HealthyTables(p.s);
    BatchCarries(p.s, p.scheduled, |p.scheduled|);
    assert p.scheduled[..|p.scheduled|] == p.scheduled;
  }

  lemma HealthyIds(s: State)
    requires Healthy(s)
    ensures NoDuplicates(Ids(Order(s)))
  {
  }

  lemma HealthyTables(s: State)
    requires Healthy(s)
    ensures s.cache.tables.Keys == IdSet(s.running)
  {
  }

  // ----- Where decodes are placed -----

  /** A position has a slot exactly when the table's blocks reach it. */
  lemma LocateIsBounded(table: seq<BlockId>, position: nat, blockSize: nat)
    requires blockSize > 0
    ensures Locate(table, position, blockSize).Some? <==> position < |table| * blockSize
  {
    DivisionEquation(position, blockSize);
    if position / blockSize < |table| {
      MulMonotone(position / blockSize + 1, |table|, blockSize);
    } else {
      MulMonotone(|table|, position / blockSize, blockSize);
    }
  }

  /** Position `totalLen` lies in the blocks of one token more than `backed`. */
  predicate FindsSlot(backed: nat, totalLen: nat, size: nat)
    requires size > 0
  {
    totalLen < CeilDiv(backed + 1, size) * size
  }

  /**
   * A decode is placed at the sequence's total length. Its append makes room for one token
   * more than the table backed, so the position has a slot exactly when it lies in the blocks
   * of that many tokens. A caller can tell before the pass.
   */
  lemma DecodeMayMissItsSlot(p: Pass, q: Sequence)
    requires Consistent(p.s.cache) && q.id in p.s.cache.tables
    requires TryAppend(p, q.id, q.TotalLen()).1
    ensures var after, size := TryAppend(p, q.id, q.TotalLen()).0, p.s.cache.pool.blockSize;
            var e := after.scheduled[|p.scheduled|];
            && e == Scheduled(q.id, 1, q.TotalLen(), false)
            && q.id in after.s.cache.tables
            && (Locate(after.s.cache.tables[q.id].blocks, e.startPosition, size).Some?
                <==> FindsSlot(p.s.cache.tables[q.id].numTokens, q.TotalLen(), size))
  {
    hide Appended, AllRefs, CeilDiv;
    AppendingIsExact(p.s.cache, q.id);
    var after := TryAppend(p, q.id, q.TotalLen()).0;
    var table, size := after.s.cache.tables[q.id], p.s.cache.pool.blockSize;
    assert |table.blocks| == CeilDiv(p.s.cache.tables[q.id].numTokens + 1, size);
    LocateIsBounded(table.blocks, q.TotalLen(), size);
  }

  /**
   * The three kinds of table a decode meets. In step with the output, the table lacks only
   * the newest token, and the slot is missing when the total fills whole blocks. After a step
   * that failed past scheduling the table backs every token, and the slot is there. After
   * re-admission it backs the prompt, and the slot is there only while the output still
   * ends in the blocks of the prompt and one token.
   */
  lemma SlotByKindOfTable(q: Sequence, size: nat)
    requires size > 0 && q.output != []
    ensures FindsSlot(q.TotalLen() - 1, q.TotalLen(), size) <==> q.TotalLen() % size != 0
    ensures FindsSlot(q.TotalLen(), q.TotalLen(), size)
    ensures FindsSlot(|q.prompt|, q.TotalLen(), size) <==> |q.output| < size - |q.prompt| % size
  {
    CeilCovers(q.TotalLen(), size);
    CeilSuccessor(q.TotalLen(), size);
    CeilSuccessor(|q.prompt|, size);
    assert (|q.prompt| / size + 1) * size == size * (|q.prompt| / size) + size;
    assert (q.TotalLen() / size + 1) * size == size * (q.TotalLen() / size) + size;
  }

  /** The blocks of n tokens have a slot for position n unless the n tokens fill them. */
  lemma CeilCovers(n: nat, d: nat)
    requires d > 0
    ensures n < CeilDiv(n, d) * d <==> n % d != 0
  {
    DivisionEquation(n, d);
    if n % d == 0 {
      QuotientRemainder(n + d - 1, d, n / d, d - 1);
    } else {
      QuotientRemainder(n + d - 1, d, n / d + 1, n % d - 1);
    }
  }

  // ----- What re-admission recomputes -----

  /**
   * A request re-admitted after preemption gets a table for its original prompt: what it had
   * generated is kept in the sequence but covered by the cache only if there was none.
   */
  lemma ReadmissionCoversPromptOnly(p: Pass, budget: nat)
    requires Consistent(p.s.cache) && p.s.cache.WellFormed()
    requires p.s.waiting != [] && p.s.waiting[0].computed == 0
    requires AdmitRound(p, budget).Again? && |AdmitRound(p, budget).p.s.running| > |p.s.running|
    ensures var q, after := p.s.waiting[0], AdmitRound(p, budget).p.s;
            && q.id in after.cache.tables
            && after.running[|p.s.running|].output == q.output
            && after.cache.tables[q.id].numTokens == |q.prompt|
            && (after.cache.tables[q.id].numTokens == q.TotalLen() <==> q.output == [])
  {
    hide Allocated, Freed, AllRefs, AdmittedSequence, CeilDiv, Consistent;
    var q := p.s.waiting[0];
    PreemptOneWellFormed(p);
    var chunk := Chunk(p.s.config, q.RemainingPrefill(), SaturatingSub(budget, p.used));
    var (cache, r) := Allocated(p.s.cache, q.id, q.prompt);
    assert r.Ok? && AdmitRound(p, budget).p == AdmitHead(p, cache, chunk.value);
    Drain.AllocationTables(p.s.cache, q.id, q.prompt);
    AdmittedKeepsOutput(q, chunk.value);
    assert q.output == [] <==> |q.output| == 0;
  }

  lemma AdmittedKeepsOutput(q: Sequence, chunk: nat)
    ensures AdmittedSequence(q, chunk).output == q.output
  {
  }
}
