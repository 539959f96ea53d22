// The drain with the model's own acceptance: decodes without a slot fail their step, but only so often.
module SlotDrain {
  import opened Prelude
  import opened Arithmetic
  import opened KvCache
  import opened KvConservation
  import opened Sequences
  import opened Scheduling
  import opened SchedulerOrder
  import opened SchedulerInvariant
  import opened NoStall
  import opened Drain

  // ----- Batch entries of one sequence -----

  ghost function Count(batch: seq<Scheduled>, id: SequenceId): nat {
    if batch == [] then 0 else (if batch[0].id == id then 1 else 0) + Count(batch[1..], id)
  }

  lemma {:induction false} CountConcat(a: seq<Scheduled>, b: seq<Scheduled>, id: SequenceId)
    ensures Count(a + b, id) == Count(a, id) + Count(b, id)
  {
    if a == [] {
      assert a + b == b;
    } else {
      CountConcat(a[1..], b, id);
      assert (a + b)[1..] == a[1..] + b;
    }
  }

  lemma CountPush(batch: seq<Scheduled>, e: Scheduled)
    ensures forall id: SequenceId :: Count(batch + [e], id) == Count(batch, id) + if e.id == id then 1 else 0
  {
    forall id: SequenceId ensures Count(batch + [e], id) == Count(batch, id) + if e.id == id then 1 else 0 {
      CountConcat(batch, [e], id);
      assert [e][1..] == [];
      assert Count([e], id) == if e.id == id then 1 else 0;
    }
  }

  lemma {:induction false} NoEntryNoCount(batch: seq<Scheduled>, id: SequenceId)
    requires forall k :: 0 <= k < |batch| ==> batch[k].id != id
    ensures Count(batch, id) == 0
  {
    if batch != [] {
      NoEntryNoCount(batch[1..], id);
    }
  }

  lemma {:induction false} EntryIsCounted(batch: seq<Scheduled>, k: nat)
    requires k < |batch|
    ensures Count(batch, batch[k].id) >= 1
  {
    if k > 0 {
      EntryIsCounted(batch[1..], k - 1);
    }
  }

  // ----- How far a table lags behind its sequence -----

  /** Tokens by which the table will fall short of the sequence: of those it has, or once it has its next one. */
  ghost function Lag(s: State, q: Sequence): nat {
    if q.state.Decoding? then SaturatingSub(q.TotalLen(), Backed(s, q)) else |q.output| + 1
  }

  ghost function LagSum(s: State, list: seq<Sequence>): nat {
    if list == [] then 0 else LagSum(s, list[..|list| - 1]) + Lag(s, list[|list| - 1])
  }

  ghost function LagTotal(s: State): nat {
    LagSum(s, s.running + s.waiting)
  }

  lemma {:induction false} LagsBelow(a: State, x: seq<Sequence>, b: State, y: seq<Sequence>)
    requires |x| == |y| && forall i :: 0 <= i < |x| ==> Lag(a, x[i]) <= Lag(b, y[i])
    ensures LagSum(a, x) <= LagSum(b, y)
  {
    if x != [] {
      LagsBelow(a, x[..|x| - 1], b, y[..|y| - 1]);
    }
  }

  lemma {:induction false} LagsStrictlyBelow(a: State, x: seq<Sequence>, b: State, y: seq<Sequence>, j: nat)
    requires |x| == |y| && forall i :: 0 <= i < |x| ==> Lag(a, x[i]) <= Lag(b, y[i])
    requires j < |x| && Lag(a, x[j]) < Lag(b, y[j])
    ensures LagSum(a, x) < LagSum(b, y)
  {
    if j < |x| - 1 {
      LagsStrictlyBelow(a, x[..|x| - 1], b, y[..|y| - 1], j);
    } else {
      LagsBelow(a, x[..|x| - 1], b, y[..|y| - 1]);
    }
  }

  /** Every table backs at least the prompt. */
  ghost predicate Supported(s: State) {
    forall i :: 0 <= i < |s.running| ==> |s.running[i].prompt| <= Backed(s, s.running[i])
  }

  // ----- The decode pass -----

  /** An entry for the decode of a sequence, placed after its newest token. */
  ghost predicate DecodeEntry(s: State, e: Scheduled) {
    exists j :: 0 <= j < |s.running| && s.running[j].id == e.id && s.running[j].state.Decoding?
                && e.startPosition == s.running[j].TotalLen()
  }

  ghost predicate CandidatesOf(s: State, candidates: seq<(SequenceId, nat)>) {
    forall i :: 0 <= i < |candidates| ==> DecodeEntry(s, Scheduled(candidates[i].0, 1, candidates[i].1, false))
  }

  lemma {:induction false} DecodeCandidatesAre(s: State, n: nat)
    requires n <= |s.running|
    ensures CandidatesOf(s, DecodeCandidates(s.running[..n]))
  {
    if n > 0 {
      DecodeCandidatesAre(s, n - 1);
      assert s.running[..n][..n - 1] == s.running[..n - 1];
      var q := s.running[n - 1];
      assert q.state.Decoding? ==> DecodeEntry(s, Scheduled(q.id, 1, q.TotalLen(), false));
    }
  }

  /** In the decode pass tables grow by the entries for them, all of which are decodes. */
  ghost predicate DecodePhase(s: State, p: Pass) {
    && p.s.running == s.running && p.s.waiting == s.waiting
    && (forall i :: 0 <= i < |s.running| ==>
          Backed(p.s, s.running[i]) == Backed(s, s.running[i]) + Count(p.scheduled, s.running[i].id))
    && (forall k :: 0 <= k < |p.scheduled| ==> DecodeEntry(s, p.scheduled[k]) && !p.scheduled[k].isPrefill)
  }

  /** A funded decode appends at once. */
  lemma DecodeOneAppends(p: Pass, id: SequenceId, totalLen: nat, room: nat, ahead: nat)
    requires PassFunded(p, room, ahead) && Pending(p.s, id, ahead)
    ensures p.s.cache.WellFormed() && id in p.s.cache.tables
    ensures var q := DecodeOne(p, id, totalLen).0;
            && q.s.cache.tables.Keys == p.s.cache.tables.Keys
            && forall x :: x in p.s.cache.tables ==>
                 q.s.cache.tables[x].numTokens == p.s.cache.tables[x].numTokens + if x == id then 1 else 0
  {
    hide Consistent, Order, Appended, Servable, ReserveSum, Granted, DistinctIds;
    PassIsFunded(p, room, ahead);
    FundedBasics(p.s, room, ahead);
    var j :| 0 <= j < |p.s.running| && p.s.running[j].id == id && p.s.running[j].state.Decoding?
             && Backed(p.s, p.s.running[j]) <= p.s.running[j].TotalLen() + ahead;
    RoomToAppend(p.s, j, room, ahead);
    AppendingIsExact(p.s.cache, id);
    var after := Appended(p.s.cache, id).0;
    assert after.tables.Keys == p.s.cache.tables.Keys + {id};
  }

  lemma DecodeOnePaces(s: State, p: Pass, id: SequenceId, totalLen: nat, room: nat, ahead: nat)
    requires PassFunded(p, room, ahead) && Pending(p.s, id, ahead) && DecodePhase(s, p)
    requires DecodeEntry(s, Scheduled(id, 1, totalLen, false))
    ensures p.s.cache.WellFormed() && DecodePhase(s, DecodeOne(p, id, totalLen).0)
  {
    hide PassFunded, DecodeOne, Count, DecodeEntry, Pending;
    DecodeOneFunded(p, id, totalLen, room, ahead);
    DecodeOneAppends(p, id, totalLen, room, ahead);
    CountPush(p.scheduled, Scheduled(id, 1, totalLen, false));
    RunningHaveTables(p, room, ahead);
  }

  lemma RunningHaveTables(p: Pass, room: nat, ahead: nat)
    requires PassFunded(p, room, ahead)
    ensures forall i :: 0 <= i < |p.s.running| ==> p.s.running[i].id in p.s.cache.tables
    ensures DistinctIds(p.s.running)
    ensures forall i, j :: 0 <= i < |p.s.running| && 0 <= j < |p.s.waiting| ==> p.s.running[i].id != p.s.waiting[j].id
    ensures forall i, j :: 0 <= i < j < |p.s.waiting| ==> p.s.waiting[i].id != p.s.waiting[j].id
  {
    hide Consistent, Order, AllServable, ReservationsFit, Granted;
    IdsAreDistinct(p.s);
    assert forall i :: 0 <= i < |p.s.running| ==> p.s.running[i].id in IdSet(p.s.running);
  }

  lemma {:induction false} DecodesPace(s: State, p: Pass, candidates: seq<(SequenceId, nat)>, budget: nat, room: nat, ahead: nat)
    requires PassFunded(p, room, ahead) && CandidatesPending(p.s, candidates, ahead)
    requires p.used + |candidates| <= budget && DecodePhase(s, p) && CandidatesOf(s, candidates)
    ensures p.s.cache.WellFormed() && DecodePhase(s, Decodes(p, candidates, budget))
    decreases |candidates|
  {
    hide DecodeOne, PassFunded, Pending, DecodePhase, DecodeEntry;
    PassFundedIsWellFormed(p, room, ahead);
    if candidates != [] {
      var (id, totalLen) := candidates[0];
      DecodeOneFunded(p, id, totalLen, room, ahead);
      DecodeOnePaces(s, p, id, totalLen, room, ahead);
      DecodesPace(s, DecodeOne(p, id, totalLen).0, candidates[1..], budget, room, ahead);
    }
  }

  // ----- The rest of the pass -----

  /** A sequence that was running: a decode grows its table by its entries, a prefill has one entry at most. */
  ghost predicate PacedAt(s: State, p: Pass, i: nat)
    requires i < |s.running| && i < |p.s.running|
  {
    var q, r := s.running[i], p.s.running[i];
    && r.id == q.id && r.prompt == q.prompt && r.output == q.output
    && if q.state.Decoding? then r == q && Backed(p.s, r) == Backed(s, q) + Count(p.scheduled, q.id)
       else Backed(p.s, r) == Backed(s, q) && Count(p.scheduled, q.id) <= 1
  }

  /** A sequence that joined: its table backs its prompt, and it has one entry at most. */
  ghost predicate JoinedAt(s: State, p: Pass, i: nat)
    requires |s.running| <= i < |p.s.running| && i - |s.running| < |s.waiting|
  {
    var q, r := s.waiting[i - |s.running|], p.s.running[i];
    && r.id == q.id && r.prompt == q.prompt && r.output == q.output
    && Backed(p.s, r) == |r.prompt| && Count(p.scheduled, r.id) <= 1
  }

  ghost predicate Paced(s: State, p: Pass) {
    var n, m := |s.running|, |p.s.running|;
    && n <= m <= n + |s.waiting| && p.s.waiting == s.waiting[m - n..]
    && (forall i :: 0 <= i < n ==> PacedAt(s, p, i))
    && (forall i :: n <= i < m ==> JoinedAt(s, p, i))
    && (forall i :: 0 <= i < |p.s.waiting| ==> Count(p.scheduled, p.s.waiting[i].id) == 0)
    && (forall k :: 0 <= k < |p.scheduled| && !p.scheduled[k].isPrefill ==> DecodeEntry(s, p.scheduled[k]))
  }

  /** Nobody in the batch so far but decodes. */
  lemma DecodePhaseIsPaced(s: State, p: Pass, room: nat, ahead: nat)
    requires PassFunded(p, room, ahead) && DecodePhase(s, p)
    ensures Paced(s, p)
    ensures forall i :: 0 <= i < |s.running| && !s.running[i].state.Decoding? ==> Count(p.scheduled, s.running[i].id) == 0
  {
    hide PassFunded, Count;
    RunningHaveTables(p, room, ahead);
    forall i | 0 <= i < |s.running| && !s.running[i].state.Decoding? ensures Count(p.scheduled, s.running[i].id) == 0 {
      forall k | 0 <= k < |p.scheduled| ensures p.scheduled[k].id != s.running[i].id {
        assert DecodeEntry(s, p.scheduled[k]);
      }
      NoEntryNoCount(p.scheduled, s.running[i].id);
    }
    forall i | 0 <= i < |s.waiting| ensures Count(p.scheduled, s.waiting[i].id) == 0 {
      forall k | 0 <= k < |p.scheduled| ensures p.scheduled[k].id != s.waiting[i].id {
        assert DecodeEntry(s, p.scheduled[k]);
      }
      NoEntryNoCount(p.scheduled, s.waiting[i].id);
    }
  }

  /** The candidates for a further chunk have no entry yet. */
  ghost predicate Unscheduled(p: Pass, candidates: seq<PartialPrefill>) {
    forall i :: 0 <= i < |candidates| ==> Count(p.scheduled, candidates[i].id) == 0
  }

  lemma PartialOnePaces(s: State, p: Pass, c: PartialPrefill, budget: nat, room: nat, ahead: nat)
    requires PassFunded(p, room, ahead) && PartialMatches(p.s.running, c) && p.used < budget && Paced(s, p)
    requires Count(p.scheduled, c.id) == 0 && |p.s.running| == |s.running|
    ensures Paced(s, PartialOne(p, c, budget)) && |PartialOne(p, c, budget).s.running| == |s.running|
    ensures forall id: SequenceId :: id != c.id ==> Count(PartialOne(p, c, budget).scheduled, id) == Count(p.scheduled, id)
  {
    hide PassFunded, Count, DecodeEntry, Prefilled;
    RunningHaveTables(p, room, ahead);
    var pos, q := Position(p.s.running, c.id), PartialOne(p, c, budget);
    if q != p {
      var e := q.scheduled[|p.scheduled|];
      assert q.scheduled == p.scheduled + [e] && e.id == c.id;
      CountPush(p.scheduled, e);
      assert PacedAt(s, p, pos);
      forall i | 0 <= i < |s.running| ensures PacedAt(s, q, i) {
        assert PacedAt(s, p, i);
        assert i != pos ==> p.s.running[i].id != p.s.running[pos].id;
      }
    }
  }

  lemma {:induction false} PartialsPace(s: State, p: Pass, candidates: seq<PartialPrefill>, budget: nat, room: nat, ahead: nat)
    requires PassFunded(p, room, ahead) && PartialsMatch(p.s.running, candidates) && p.s.config.chunkedPrefill
    requires Paced(s, p) && |p.s.running| == |s.running| && Unscheduled(p, candidates)
    ensures Paced(s, Partials(p, candidates, budget))
    decreases |candidates|
  {
    hide PartialOne, PassFunded, PartialMatches, Paced, Count;
    if candidates != [] && p.used < budget {
      PartialOneFunded(p, candidates[0], budget, room, ahead);
      PartialOnePaces(s, p, candidates[0], budget, room, ahead);
      var q := PartialOne(p, candidates[0], budget);
      forall i | 0 < i < |candidates| ensures PartialMatches(q.s.running, candidates[i]) {
        PartialOneKeepsOthers(p, candidates[0], budget, candidates[i]);
      }
      PartialOneConfig(p, candidates[0], budget);
      PartialsPace(s, q, candidates[1..], budget, room, ahead);
    }
  }

  lemma AdmitHeadPaces(s: State, p: Pass, cache: Manager, chunk: nat, room: nat, ahead: nat)
    requires PassFunded(p, room, ahead) && Paced(s, p) && p.s.waiting != []
    requires p.s.waiting[0].id in cache.tables && cache.tables[p.s.waiting[0].id].numTokens == |p.s.waiting[0].prompt|
    requires forall x :: x in p.s.cache.tables ==> x in cache.tables && cache.tables[x] == p.s.cache.tables[x]
    ensures Paced(s, AdmitHead(p, cache, chunk))
  {
    hide PassFunded, Count, DecodeEntry, AdmittedSequence;
    RunningHaveTables(p, room, ahead);
    var n, m, head, q := |s.running|, |p.s.running|, p.s.waiting[0], AdmitHead(p, cache, chunk);
    var e := Scheduled(head.id, chunk, head.computed, true);
    assert q.scheduled == p.scheduled + [e];
    CountPush(p.scheduled, e);
    assert head == s.waiting[m - n];
    forall i | 0 <= i < n ensures PacedAt(s, q, i) {
      assert PacedAt(s, p, i);
    }
    forall i | n <= i < m + 1 ensures JoinedAt(s, q, i) {
      if i < m {
        assert JoinedAt(s, p, i);
      }
    }
    assert forall i :: 0 <= i < |q.s.waiting| ==> q.s.waiting[i] == p.s.waiting[i + 1];
  }

  lemma {:induction false} AdmitPaces(s: State, p: Pass, budget: nat, room: nat, ahead: nat)
    requires PassFunded(p, room, ahead) && p.s.config.chunkedPrefill && Paced(s, p)
    ensures p.s.cache.WellFormed() && Paced(s, Admit(p, budget))
    decreases SaturatingSub(budget, p.used), |p.s.running|
  {
    hide AdmitRound, PassFunded, Paced, Allocated, AdmitHead;
    AdmitRoundFunded(p, budget, room, ahead);
    AdmitRoundProgress(p, budget);
    PassFundedIsWellFormed(p, room, ahead);
    if CanRun(p, budget) {
      AdmitRoundIsHead(p, budget, room, ahead);
      var head := p.s.waiting[0];
      var cache, chunk := Allocated(p.s.cache, head.id, head.prompt).0, Min(|head.prompt|, budget - p.used);
      AllocationTables(p.s.cache, head.id, head.prompt);
      AdmitHeadPaces(s, p, cache, chunk, room, ahead);
      AdmitPaces(s, AdmitRound(p, budget).p, budget, room, ahead);
    } else {
      AdmitRoundStops(p, budget);
    }
  }

  lemma DecodePassPaces(s: State, room: nat, ahead: nat)
    requires Reserved(s, room, ahead)
    ensures s.cache.WellFormed()
    ensures var p := DecodePass(StartPass(s), s.config.maxBatchedTokens);
            PassFunded(p, room, ahead) && DecodePhase(s, p)
  {
    hide PassFunded, Healthy, NoneFinished, AllServable, ReservationsFit, AllFit, Decodes, DecodeCandidates, DistinctIds, DecodePhase,
      CandidatesOf, CandidatesPending, Order;
    HealthyIsWellFormed(s);
    HealthyIsDistinct(s);
    var start, budget, candidates := StartPass(s), s.config.maxBatchedTokens, DecodeCandidates(s.running);
    StartIsFunded(s, room, ahead);
    DecodeCandidatesPending(s, |s.running|, ahead);
    DecodeCandidatesAre(s, |s.running|);
    assert s.running[..|s.running|] == s.running;
    DecodeCandidatesShape(s.running);
    StartPhase(s);
    DecodesFunded(start, candidates, budget, room, ahead);
    DecodesPace(s, start, candidates, budget, room, ahead);
  }

  lemma DecodePassConfig(s: State)
    requires s.cache.WellFormed() && Consistent(s.cache)
    ensures DecodePass(StartPass(s), s.config.maxBatchedTokens).s.config == s.config
  {
    hide Decodes, DecodeCandidates, Consistent;
    DecodesShape(StartPass(s), DecodeCandidates(s.running), s.config.maxBatchedTokens);
  }

  /** The whole pass is paced. */
  lemma SchedulePaces(s: State, room: nat, ahead: nat)
    requires Reserved(s, room, ahead)
    ensures s.cache.WellFormed() && Paced(s, Schedule(s))
  {
    hide PassFunded, Consistent, NoneFinished, AllServable, ReservationsFit, AllFit, DecodePass, Prefills, DecodePhase, Paced, Order;
    HealthyIsWellFormed(s);
    DecodePassPaces(s, room, ahead);
    DecodePassConfig(s);
    RestPaces(s, DecodePass(StartPass(s), s.config.maxBatchedTokens), s.config.maxBatchedTokens, room, ahead);
  }

  lemma StartPhase(s: State)
    ensures DecodePhase(s, StartPass(s))
  {
  }

  lemma StartIsFunded(s: State, room: nat, ahead: nat)
    requires Reserved(s, room, ahead)
    ensures PassFunded(StartPass(s), room, ahead)
  {
    hide Consistent, Order, AllServable, ReserveSum;
  }

  lemma RestPaces(s: State, p: Pass, budget: nat, room: nat, ahead: nat)
    requires PassFunded(p, room, ahead) && DecodePhase(s, p) && p.s.config.chunkedPrefill
    ensures p.s.cache.WellFormed() && Paced(s, Prefills(p, budget))
  {
    hide PassFunded, Partials, Admit, Paced, PartialCandidates, PartialsMatch, DistinctIds, Count, DecodeEntry;
    PassFundedIsWellFormed(p, room, ahead);
    RunningHaveTables(p, room, ahead);
    DecodePhaseIsPaced(s, p, room, ahead);
    PartialCandidatesFrom(p.s.running, |p.s.running|);
    assert p.s.running[..|p.s.running|] == p.s.running;
    var candidates := PartialCandidates(p.s.running);
    CandidatesAreNew(s, p, candidates);
    PartialsFunded(p, candidates, budget, room, ahead);
    PartialsConfig(p, candidates, budget);
    PartialsPace(s, p, candidates, budget, room, ahead);
    AdmitPaces(s, Partials(p, candidates, budget), budget, room, ahead);
  }

  lemma PartialsConfig(p: Pass, candidates: seq<PartialPrefill>, budget: nat)
    requires PartialsMatch(p.s.running, candidates) && p.s.config.chunkedPrefill
    ensures Partials(p, candidates, budget).s.config == p.s.config
  {
    hide Partials, PartialsMatch;
    PartialsShape(p, candidates, budget);
  }

  lemma CandidatesAreNew(s: State, p: Pass, candidates: seq<PartialPrefill>)
    requires p.s.running == s.running && PartialsMatch(p.s.running, candidates)
    requires forall i :: 0 <= i < |s.running| && !s.running[i].state.Decoding? ==> Count(p.scheduled, s.running[i].id) == 0
    ensures Unscheduled(p, candidates)
  {
    hide Count;
    forall i | 0 <= i < |candidates| ensures Count(p.scheduled, candidates[i].id) == 0 {
      assert PartialMatches(p.s.running, candidates[i]);
    }
  }

  // ----- Lags after the pass -----

  /** The sequence at place i of running followed by waiting. */
  ghost function At(s: State, i: nat): Sequence
    requires i < |s.running| + |s.waiting|
  {
    (s.running + s.waiting)[i]
  }

  /** Tokens that the entries of a batch may bring to a sequence. */
  ghost predicate LagBounded(s: State, p: Pass, r: Sequence, q: Sequence) {
    && (Lag(p.s, r) <= Lag(s, q))
    && (r.state.Decoding? ==> SaturatingSub(r.TotalLen() + Count(p.scheduled, r.id), Backed(p.s, r)) <= Lag(s, q))
  }

  lemma LagAfterPass(s: State, p: Pass, i: nat)
    requires Paced(s, p) && Supported(s) && i < |s.running| + |s.waiting|
    requires forall j :: 0 <= j < |s.waiting| ==> s.waiting[j].state.Waiting?
    requires forall j :: 0 <= j < |s.running| && s.running[j].state.Decoding? ==> s.running[j].computed == |s.running[j].prompt|
    requires forall j :: 0 <= j < |p.s.waiting| ==> p.s.waiting[j].state.Waiting?
    ensures |p.s.running| + |p.s.waiting| == |s.running| + |s.waiting|
    ensures LagBounded(s, p, At(p.s, i), At(s, i))
  {
    hide Count, DecodeEntry;
    if i < |s.running| {
      assert PacedAt(s, p, i);
    } else if i < |p.s.running| {
      assert JoinedAt(s, p, i);
    }
  }

  lemma PassStaysSupported(s: State, p: Pass)
    requires Paced(s, p) && Supported(s)
    ensures Supported(p.s)
  {
    hide Count, DecodeEntry;
    forall i | 0 <= i < |p.s.running| ensures |p.s.running[i].prompt| <= Backed(p.s, p.s.running[i]) {
      if i < |s.running| {
        assert PacedAt(s, p, i);
      } else {
        assert JoinedAt(s, p, i);
      }
    }
  }

  /** A decode has its slot when its position lies in the blocks of its table. */
  predicate Placed(s: State, e: Scheduled) {
    Position(s.running, e.id) < |s.running| && !e.isPrefill ==>
      e.id in s.cache.tables && e.startPosition < |s.cache.tables[e.id].blocks| * s.cache.pool.blockSize
  }

  predicate AllPlaced(p: Pass) {
    forall k :: 0 <= k < |p.scheduled| ==> Placed(p.s, p.scheduled[k])
  }

  lemma TableSpans(m: Manager, id: SequenceId)
    requires Consistent(m) && id in m.tables
    ensures m.pool.blockSize > 0 && m.tables[id].numTokens <= |m.tables[id].blocks| * m.pool.blockSize
  {
    hide CeilDiv;
    TableShape(m, id);
    CeilReaches(m.tables[id].numTokens, m.pool.blockSize);
  }

  /** A decode without a slot has caught up by one token. */
  lemma MisplacedCatchesUp(s: State, p: Pass, k: nat) returns (i: nat)
    requires Paced(s, p) && k < |p.scheduled| && !Placed(p.s, p.scheduled[k])
    requires Consistent(p.s.cache) && DistinctIds(s.running)
    requires forall j :: 0 <= j < |p.s.running| ==> p.s.running[j].id in p.s.cache.tables
    ensures i < |s.running| && i < |p.s.running| && Lag(p.s, p.s.running[i]) < Lag(s, s.running[i])
  {
    hide Consistent, Count;
    var e := p.scheduled[k];
    assert DecodeEntry(s, e);
    i :| 0 <= i < |s.running| && s.running[i].id == e.id && s.running[i].state.Decoding?
         && e.startPosition == s.running[i].TotalLen();
    assert PacedAt(s, p, i);
    EntryIsCounted(p.scheduled, k);
    TableSpans(p.s.cache, e.id);
  }

  lemma PassLagsEach(s: State, room: nat, ahead: nat)
    requires Reserved(s, room, ahead) && Supported(s)
    ensures s.cache.WellFormed()
    ensures var p := Schedule(s);
            && Paced(s, p) && PassFunded(p, room, ahead) && Supported(p.s)
            && |p.s.running + p.s.waiting| == |s.running + s.waiting|
            && forall i :: 0 <= i < |s.running + s.waiting| ==>
                 Lag(p.s, (p.s.running + p.s.waiting)[i]) <= Lag(s, (s.running + s.waiting)[i])
  {
    hide Paced, Schedule, PassFunded, AllServable, ReservationsFit, AllFit, NoneFinished, Lag, Supported, Healthy;
    SchedulePaces(s, room, ahead);
    ScheduleFunded(s, room, ahead);
    var p := Schedule(s);
    StatesOfHealthy(s);
    FundedStates(p, room, ahead);
    PassStaysSupported(s, p);
    SameNumber(s, p);
    forall i | 0 <= i < |s.running + s.waiting| ensures Lag(p.s, (p.s.running + p.s.waiting)[i]) <= Lag(s, (s.running + s.waiting)[i]) {
      LagAfterPass(s, p, i);
    }
  }

  /** After a pass whose batch is not run, nobody lags more, and somebody less if a decode has no slot. */
  lemma PassLags(s: State, room: nat, ahead: nat)
    requires Reserved(s, room, ahead) && Supported(s)
    ensures s.cache.WellFormed() && Supported(Schedule(s).s)
    ensures LagTotal(Schedule(s).s) <= LagTotal(s)
    ensures !AllPlaced(Schedule(s)) ==> LagTotal(Schedule(s).s) < LagTotal(s)
  {
    hide Paced, Schedule, PassFunded, AllServable, ReservationsFit, AllFit, NoneFinished, Lag, Placed, Supported, Healthy;
    PassLagsEach(s, room, ahead);
    HealthyIsDistinct(s);
    var p := Schedule(s);
    LagsBelow(p.s, p.s.running + p.s.waiting, s, s.running + s.waiting);
    if !AllPlaced(p) {
      var k :| 0 <= k < |p.scheduled| && !Placed(p.s, p.scheduled[k]);
      RunningHaveTables(p, room, ahead);
      PassFundedIsWellFormed(p, room, ahead);
      var i := MisplacedCatchesUp(s, p, k);
      LagsStrictlyBelow(p.s, p.s.running + p.s.waiting, s, s.running + s.waiting, i);
    }
  }

  lemma SameNumber(s: State, p: Pass)
    requires Paced(s, p)
    ensures |p.s.running| + |p.s.waiting| == |s.running| + |s.waiting|
  {
    hide PacedAt, JoinedAt, DecodeEntry, Count;
  }

  lemma StatesOfHealthy(s: State)
    requires Healthy(s)
    ensures forall j :: 0 <= j < |s.waiting| ==> s.waiting[j].state.Waiting?
    ensures forall j :: 0 <= j < |s.running| && s.running[j].state.Decoding? ==> s.running[j].computed == |s.running[j].prompt|
  {
    hide Consistent, Order;
    assert forall j :: 0 <= j < |s.waiting| ==> Queued(s.waiting[j]);
    assert forall j :: 0 <= j < |s.running| ==> Resident(s.running[j]);
  }

  lemma FundedStates(p: Pass, room: nat, ahead: nat)
    requires PassFunded(p, room, ahead)
    ensures Healthy(p.s) && NoneFinished(p.s)
    ensures forall j :: 0 <= j < |p.s.waiting| ==> p.s.waiting[j].state.Waiting?
    ensures forall j :: 0 <= j < |p.s.running| && p.s.running[j].state.Decoding? ==> p.s.running[j].computed == |p.s.running[j].prompt|
  {
    hide Consistent, Order, AllServable, ReservationsFit, Granted;
    StatesOfHealthy(p.s);
  }

  // ----- Lags after the emission -----

  /** What emission does to one sequence: at most so many tokens, all of them good, and only once its prompt is through. */
  ghost predicate Extended(q: Sequence, r: Sequence, most: nat, vocabulary: nat) {
    && r.id == q.id && r.prompt == q.prompt && r.params == q.params && r.computed == q.computed
    && (r.state == q.state || r.state.Finished?)
    && |q.output| <= |r.output| <= |q.output| + most
    && (!q.PrefillComplete() ==> r == q)
    && ((forall t :: t in q.output ==> t < vocabulary) ==> forall t :: t in r.output ==> t < vocabulary)
  }

  /** All tokens drawn for the batch are in the vocabulary. */
  ghost predicate DrawsWithin(draw: Draw, n: nat, vocabulary: nat) {
    forall i: nat :: i <= n ==> draw(i) < vocabulary
  }

  lemma EmitExtends(s: State, e: Scheduled, token: TokenId, eosIds: seq<TokenId>, vocabulary: nat, i: nat)
    requires DistinctIds(s.running) && i < |s.running| && token < vocabulary
    ensures |Emit(s, e, token, eosIds).running| == |s.running|
    ensures Extended(s.running[i], Emit(s, e, token, eosIds).running[i], if s.running[i].id == e.id then 1 else 0, vocabulary)
  {
    hide WithToken;
    var pos := Position(s.running, e.id);
    if pos < |s.running| {
      TokenExtends(s.running[pos], token, eosIds, vocabulary);
    }
  }

  lemma TokenExtends(q: Sequence, token: TokenId, eosIds: seq<TokenId>, vocabulary: nat)
    requires token < vocabulary
    ensures q.PrefillComplete() ==> Extended(q, WithToken(q, token, eosIds).0, 1, vocabulary)
  {
  }

  lemma EmitKeepsDistinct(s: State, e: Scheduled, token: TokenId, eosIds: seq<TokenId>)
    requires DistinctIds(s.running)
    ensures DistinctIds(Emit(s, e, token, eosIds).running)
  {
    hide Position;
    assert forall i :: 0 <= i < |s.running| ==> Emit(s, e, token, eosIds).running[i].id == s.running[i].id;
  }

  lemma ExtendedTwice(q: Sequence, r: Sequence, t: Sequence, a: nat, b: nat, vocabulary: nat)
    requires Extended(q, r, a, vocabulary) && Extended(r, t, b, vocabulary)
    ensures Extended(q, t, a + b, vocabulary)
  {
  }

  lemma {:induction false} EmitAllExtends(s: State, batch: seq<Scheduled>, draw: Draw, eosIds: seq<TokenId>, vocabulary: nat, i: nat)
    requires DistinctIds(s.running) && i < |s.running| && DrawsWithin(draw, |batch|, vocabulary)
    ensures |EmitAll(s, batch, draw, eosIds).running| == |s.running|
    ensures Extended(s.running[i], EmitAll(s, batch, draw, eosIds).running[i], Count(batch, s.running[i].id), vocabulary)
    decreases |batch|
  {
    hide Emit, DistinctIds;
    if batch != [] {
      assert draw(|batch|) < vocabulary;
      var next := Emit(s, batch[0], draw(|batch|), eosIds);
      EmitExtends(s, batch[0], draw(|batch|), eosIds, vocabulary, i);
      EmitKeepsDistinct(s, batch[0], draw(|batch|), eosIds);
      EmitAllExtends(next, batch[1..], draw, eosIds, vocabulary, i);
      ExtendedTwice(s.running[i], next.running[i], EmitAll(s, batch, draw, eosIds).running[i],
                    if s.running[i].id == batch[0].id then 1 else 0, Count(batch[1..], s.running[i].id), vocabulary);
    }
  }

  // ----- Lags after a round -----

  lemma {:induction false} LagConcat(s: State, a: seq<Sequence>, b: seq<Sequence>)
    ensures LagSum(s, a + b) == LagSum(s, a) + LagSum(s, b)
  {
    if b == [] {
      assert a + b == a;
    } else {
      LagConcat(s, a, b[..|b| - 1]);
      assert (a + b)[..|a + b| - 1] == a + b[..|b| - 1];
    }
  }

  lemma LagPush(s: State, list: seq<Sequence>, q: Sequence)
    ensures LagSum(s, list + [q]) == LagSum(s, list) + Lag(s, q)
  {
    assert (list + [q])[..|list|] == list;
  }

  lemma {:induction false} UnfinishedLags(a: State, x: seq<Sequence>, b: State, y: seq<Sequence>)
    requires |x| == |y| && forall i :: 0 <= i < |x| && !x[i].state.Finished? ==> Lag(a, x[i]) <= Lag(b, y[i])
    ensures LagSum(a, Unfinished(x)) <= LagSum(b, y)
  {
    hide Lag;
    if x != [] {
      var n := |x| - 1;
      UnfinishedLags(a, x[..n], b, y[..n]);
      LagPush(a, Unfinished(x[..n]), x[n]);
    }
  }

  /** Emission leaves the bound on each lag in place. */
  lemma ExtendedLag(s: State, p: Pass, e: State, q: Sequence, r: Sequence, t: Sequence, vocabulary: nat)
    requires LagBounded(s, p, r, q) && Extended(r, t, Count(p.scheduled, r.id), vocabulary) && e.cache == p.s.cache
    requires Resident(r) && !r.state.Finished? && !t.state.Finished?
    ensures Lag(e, t) <= Lag(s, q)
  {
    hide Count;
  }

  /** Reaping takes away whole sequences and their tables. */
  lemma ReapedBacked(c: State, i: nat)
    requires Healthy(c) && i < |c.running| && !c.running[i].state.Finished?
    ensures Backed(Reaped(c).0, c.running[i]) == Backed(c, c.running[i])
  {
    hide Order, Resident, Queued, FreedAll, Consistent, IdSet;
    FreedAllConserves(c.cache, FinishedOnly(c.running));
    IdsAreDistinct(c);
    UnfinishedIsWithout(c.running);
    StaysOutside(c.running, i);
  }

  lemma {:induction false} StaysOutside(list: seq<Sequence>, i: nat)
    requires DistinctIds(list) && i < |list| && !list[i].state.Finished?
    ensures list[i].id !in IdSet(FinishedOnly(list))
  {
    hide IdSet, DistinctIds;
    FinishedFrom(list, list[i].id);
    if list[i].id in IdSet(FinishedOnly(list)) {
      var j :| 0 <= j < |list| && list[j].id == list[i].id && list[j].state.Finished?;
      SameIdSamePlace(list, i, j);
      assert false;
    }
  }

  lemma {:induction false} FinishedFrom(list: seq<Sequence>, id: SequenceId)
    ensures id in IdSet(FinishedOnly(list)) ==> exists j :: 0 <= j < |list| && list[j].id == id && list[j].state.Finished?
  {
    hide IdSet;
    if list == [] {
      NotInAny(list);
    } else {
      var front, q := list[..|list| - 1], list[|list| - 1];
      FinishedFrom(front, id);
      IdSetPush(FinishedOnly(front), q);
      if id in IdSet(FinishedOnly(list)) {
        if id in IdSet(FinishedOnly(front)) {
          var j :| 0 <= j < |front| && front[j].id == id && front[j].state.Finished?;
          assert list[j] == front[j];
        } else {
          assert list[|list| - 1].id == id && list[|list| - 1].state.Finished?;
        }
      }
    }
  }

  lemma ReapedLags(c: State, s: State)
    requires Healthy(c) && |c.running| + |c.waiting| == |s.running| + |s.waiting|
    requires forall i :: 0 <= i < |c.running| + |c.waiting| && !At(c, i).state.Finished? ==> Lag(c, At(c, i)) <= Lag(s, At(s, i))
    ensures LagTotal(Reaped(c).0) <= LagTotal(s)
  {
    hide Healthy, FreedAll;
    var after, n := Reaped(c).0, |c.running|;
    StatesOfHealthy(c);
    var all := s.running + s.waiting;
    forall i | 0 <= i < n && !c.running[i].state.Finished? ensures Lag(after, c.running[i]) <= Lag(s, all[..n][i]) {
      assert At(c, i) == c.running[i] && At(s, i) == all[i];
      ReapedBacked(c, i);
    }
    UnfinishedLags(after, c.running, s, all[..n]);
    forall i | 0 <= i < |c.waiting| ensures Lag(after, c.waiting[i]) <= Lag(s, all[n..][i]) {
      assert At(c, n + i) == c.waiting[i] && At(s, n + i) == all[n + i];
    }
    LagsBelow(after, c.waiting, s, all[n..]);
    LagConcat(after, after.running, after.waiting);
    LagConcat(s, all[..n], all[n..]);
    assert all == all[..n] + all[n..];
  }

  lemma ReapedSupported(c: State)
    requires Healthy(c) && Supported(c)
    ensures Supported(Reaped(c).0)
  {
    hide Healthy, FreedAll, Backed;
    var after := Reaped(c).0;
    UnfinishedSplits(c.running);
    forall i | 0 <= i < |after.running| ensures |after.running[i].prompt| <= Backed(after, after.running[i]) {
      var j :| 0 <= j < |c.running| && c.running[j] == after.running[i];
      ReapedBacked(c, j);
    }
  }

  /** What a round does to the sequences of its pass before it reaps. */
  lemma EmittedLags(s: State, p: Pass, e: State, draw: Draw, eosIds: seq<TokenId>, vocabulary: nat)
    requires Paced(s, p) && Supported(s) && Healthy(s) && Healthy(p.s) && NoneFinished(p.s)
    requires e == EmitAll(p.s, p.scheduled, draw, eosIds) && DrawsWithin(draw, |p.scheduled|, vocabulary)
    ensures |e.running| + |e.waiting| == |s.running| + |s.waiting| && e.cache == p.s.cache
    ensures forall i :: 0 <= i < |e.running| + |e.waiting| && !At(e, i).state.Finished? ==> Lag(e, At(e, i)) <= Lag(s, At(s, i))
    ensures Supported(e)
  {
    hide Paced, Extended, LagBounded, EmitAll, Consistent, Order, Lag, Resident;
    EmitAllKeepsCache(p.s, p.scheduled, draw, eosIds);
    SameNumber(s, p);
    StatesOfHealthy(s);
    StatesOfHealthy(p.s);
    HealthyIsDistinct(p.s);
    PassStaysSupported(s, p);
    if p.s.running == [] {
      NobodyEmitted(p.s, p.scheduled, draw, eosIds);
    } else {
      EmitAllExtends(p.s, p.scheduled, draw, eosIds, vocabulary, 0);
    }
    forall i | 0 <= i < |e.running| + |e.waiting| && !At(e, i).state.Finished? ensures Lag(e, At(e, i)) <= Lag(s, At(s, i)) {
      LagAfterPass(s, p, i);
      if i < |e.running| {
        EmitAllExtends(p.s, p.scheduled, draw, eosIds, vocabulary, i);
        assert Resident(p.s.running[i]);
        ExtendedLag(s, p, e, At(s, i), p.s.running[i], e.running[i], vocabulary);
      } else {
        WaitingLag(s, p, e, At(s, i), At(e, i));
      }
    }
    forall i | 0 <= i < |e.running| ensures |e.running[i].prompt| <= Backed(e, e.running[i]) {
      EmitAllExtends(p.s, p.scheduled, draw, eosIds, vocabulary, i);
      ExtendedSame(p.s.running[i], e.running[i], Count(p.scheduled, p.s.running[i].id), vocabulary);
    }
  }

  lemma ExtendedSame(q: Sequence, r: Sequence, most: nat, vocabulary: nat)
    requires Extended(q, r, most, vocabulary)
    ensures r.id == q.id && r.prompt == q.prompt && r.params == q.params
  {
  }

  lemma WaitingLag(s: State, p: Pass, e: State, q: Sequence, r: Sequence)
    requires LagBounded(s, p, r, q) && e.cache == p.s.cache
    ensures Lag(e, r) <= Lag(s, q)
  {
    hide Count;
  }

  lemma {:induction false} NobodyEmitted(s: State, batch: seq<Scheduled>, draw: Draw, eosIds: seq<TokenId>)
    requires s.running == []
    ensures EmitAll(s, batch, draw, eosIds) == s
    decreases |batch|
  {
    if batch != [] {
      NobodyEmitted(s, batch[1..], draw, eosIds);
    }
  }

  /** After a round nobody lags more than before. */
  lemma RoundLags(s: State, draw: Draw, eosIds: seq<TokenId>, vocabulary: nat, room: nat, ahead: nat)
    requires Reserved(s, room, ahead) && Supported(s)
    requires s.cache.WellFormed() && DrawsWithin(draw, |Schedule(s).scheduled|, vocabulary)
    ensures Supported(NextRound(s, draw, eosIds)) && LagTotal(NextRound(s, draw, eosIds)) <= LagTotal(s)
  {
    hide Paced, Schedule, PassFunded, AllServable, ReservationsFit, AllFit, NoneFinished, Lag, Supported, EmitAll, CommitAll, Reaped,
      Healthy, Emitting, LagTotal, Work;
    SchedulePaces(s, room, ahead);
    ScheduleFunded(s, room, ahead);
    ScheduleWithinBudgets(s);
    var p := Schedule(s);
    FundedStates(p, room, ahead);
    FundedIsEmitting(p, room, ahead);
    EmitAllWork(p.s, p.scheduled, draw, eosIds, ahead);
    EmitAllKeepsCache(p.s, p.scheduled, draw, eosIds);
    var e := EmitAll(p.s, p.scheduled, draw, eosIds);
    EmittingIsHealthy(e, ahead);
    EmittedLags(s, p, e, draw, eosIds, vocabulary);
    CommitAllKeeps(e, p.scheduled);
    var c := CommitAll(e, p.scheduled);
    SameTablesSameLags(e, c);
    ReapedLags(c, s);
    ReapedSupported(c);
  }

  lemma EmittingIsHealthy(s: State, ahead: nat)
    requires Emitting(s, [], ahead)
    ensures Healthy(s)
  {
  }

  lemma SameTablesSameLags(e: State, c: State)
    requires c.running == e.running && c.waiting == e.waiting && c.cache.tables == e.cache.tables
    ensures Supported(e) ==> Supported(c)
    ensures forall i :: 0 <= i < |c.running| + |c.waiting| ==> At(c, i) == At(e, i) && Lag(c, At(c, i)) == Lag(e, At(e, i))
  {
  }
}
