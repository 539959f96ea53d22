// When reservations fit, nothing is preempted and every request finishes.
module Drain {
  import opened Prelude
  import opened Arithmetic
  import opened PoolInvariant
  import opened KvCache
  import opened KvConservation
  import opened Sequences
  import opened Scheduling
  import opened SchedulerOrder
  import opened SchedulerInvariant
  import opened NoStall

  /** Blocks a request can ever need: for its prompt, all its output, and room to run ahead. */
  ghost function Reserve(q: Sequence, size: nat, room: nat): nat
    requires size > 0
  {
    CeilDiv(|q.prompt| + q.params.maxTokens + room, size)
  }

  ghost function ReserveSum(list: seq<Sequence>, size: nat, room: nat): nat
    requires size > 0
  {
    if list == [] then 0 else ReserveSum(list[..|list| - 1], size, room) + Reserve(list[|list| - 1], size, room)
  }

  ghost function TableSum(tables: map<SequenceId, BlockTable>, list: seq<Sequence>): nat
    requires forall i :: 0 <= i < |list| ==> list[i].id in tables
  {
    if list == [] then 0
    else TableSum(tables, list[..|list| - 1]) + |tables[list[|list| - 1].id].blocks|
  }

  /** Tokens backed by the table of a running sequence. */
  ghost function Backed(s: State, q: Sequence): nat {
    if q.id in s.cache.tables then s.cache.tables[q.id].numTokens else 0
  }

  /** The request can be served whole, and has output left to generate. */
  ghost predicate Servable(s: State, q: Sequence)
    requires s.cache.pool.blockSize > 0
  {
    Fits(s.cache, q) && |q.output| < q.params.maxTokens
  }

  ghost predicate AllServable(s: State)
    requires s.cache.pool.blockSize > 0
  {
    && (forall i :: 0 <= i < |s.running| ==> Servable(s, s.running[i]))
    && (forall i :: 0 <= i < |s.waiting| ==> Servable(s, s.waiting[i]))
  }

  ghost predicate ReservationsFit(s: State, room: nat)
    requires s.cache.pool.blockSize > 0
  {
    ReserveSum(s.running, s.cache.pool.blockSize, room) + ReserveSum(s.waiting, s.cache.pool.blockSize, room) <= |s.cache.pool.blocks|
  }

  /** Between rounds: reservations fit, and each table backs at most `ahead` tokens more than prompt and output. */
  ghost predicate Reserved(s: State, room: nat, ahead: nat) {
    && Ready(s) && AllServable(s) && ReservationsFit(s, room) && ahead <= room
    && forall i :: 0 <= i < |s.running| ==> Backed(s, s.running[i]) <= s.running[i].TotalLen() + ahead
  }

  // ----- Blocks in use never exceed the reservations -----

  lemma {:induction false} TableSumWithout(tables: map<SequenceId, BlockTable>, list: seq<Sequence>, x: SequenceId)
    requires forall i :: 0 <= i < |list| ==> list[i].id in tables && list[i].id != x
    ensures TableSum(tables - {x}, list) == TableSum(tables, list)
  {
    if list != [] {
      TableSumWithout(tables, list[..|list| - 1], x);
    }
  }

  lemma {:induction false} ReferencesAreTables(tables: map<SequenceId, BlockTable>, list: seq<Sequence>)
    requires DistinctIds(list) && tables.Keys == IdSet(list)
    ensures |AllRefs(tables)| == TableSum(tables, list)
  {
    if list == [] {
      assert tables == map[];
    } else {
      var front, last := list[..|list| - 1], list[|list| - 1];
      assert list == front + [last];
      IdSetPush(front, last);
      NotInIdSet(front, last.id);
      AllRefsOf(tables, last.id);
      assert (tables - {last.id}).Keys == IdSet(front);
      ReferencesAreTables(tables - {last.id}, front);
      TableSumWithout(tables, front, last.id);
      MultisetSize(tables[last.id].blocks);
    }
  }

  lemma MultisetSize(s: seq<BlockId>)
    ensures |multiset(s)| == |s|
  {
    if s != [] {
      MultisetSize(s[..|s| - 1]);
      assert s == s[..|s| - 1] + [s[|s| - 1]];
    }
  }

  lemma {:induction false} HeldAtMostReferences(refs: multiset<BlockId>)
    ensures |Held(refs)| <= |refs|
    decreases |refs|
  {
    if refs == multiset{} {
      assert Held(refs) == {};
    } else {
      var b :| b in refs;
      HeldAtMostReferences(refs - multiset{b});
      assert Held(refs) <= Held(refs - multiset{b}) + {b};
      SubsetCount(Held(refs), Held(refs - multiset{b}) + {b});
    }
  }

  lemma {:induction false} TablesWithinReserve(tables: map<SequenceId, BlockTable>, list: seq<Sequence>, size: nat, room: nat)
    requires size > 0
    requires forall i :: 0 <= i < |list| ==>
               list[i].id in tables && |tables[list[i].id].blocks| <= Reserve(list[i], size, room)
    ensures TableSum(tables, list) <= ReserveSum(list, size, room)
  {
    if list != [] {
      TablesWithinReserve(tables, list[..|list| - 1], size, room);
    }
  }

  lemma {:induction false} TablesBelowReserve(tables: map<SequenceId, BlockTable>, list: seq<Sequence>, size: nat, j: nat, room: nat)
    requires size > 0 && j < |list|
    requires forall i :: 0 <= i < |list| ==>
               list[i].id in tables && |tables[list[i].id].blocks| <= Reserve(list[i], size, room)
    requires |tables[list[j].id].blocks| < Reserve(list[j], size, room)
    ensures TableSum(tables, list) < ReserveSum(list, size, room)
  {
    if j == |list| - 1 {
      TablesWithinReserve(tables, list[..|list| - 1], size, room);
    } else {
      TablesBelowReserve(tables, list[..|list| - 1], size, j, room);
    }
  }

  /** Every running table is within the reservation of its request. */
  ghost predicate Funded(s: State, room: nat, ahead: nat) {
    && s.cache.pool.blockSize > 0
    && Healthy(s) && NoneFinished(s) && AllServable(s) && ReservationsFit(s, room) && ahead <= room
    && forall i :: 0 <= i < |s.running| ==> Backed(s, s.running[i]) <= s.running[i].TotalLen() + ahead + 1
  }

  lemma FundedTable(s: State, i: nat, room: nat, ahead: nat)
    requires Funded(s, room, ahead) && i < |s.running|
    ensures var q := s.running[i];
            && q.id in s.cache.tables
            && |s.cache.tables[q.id].blocks| <= Reserve(q, s.cache.pool.blockSize, room)
            && (Backed(s, q) <= q.TotalLen() + ahead ==>
                  CeilDiv(s.cache.tables[q.id].numTokens + 1, s.cache.pool.blockSize) <= Reserve(q, s.cache.pool.blockSize, room))
  {
    hide Consistent, CeilDiv, Order;
    var q, size := s.running[i], s.cache.pool.blockSize;
    assert q.id in IdSet(s.running);
    assert Servable(s, q);
    TableShape(s.cache, q.id);
    CeilMonotone(s.cache.tables[q.id].numTokens, |q.prompt| + q.params.maxTokens + room, size);
    if Backed(s, q) <= q.TotalLen() + ahead {
      CeilMonotone(s.cache.tables[q.id].numTokens + 1, |q.prompt| + q.params.maxTokens + room, size);
    }
  }

  lemma TableShape(m: Manager, s: SequenceId)
    requires Consistent(m) && s in m.tables
    ensures m.pool.blockSize > 0 && |m.tables[s].blocks| == CeilDiv(m.tables[s].numTokens, m.pool.blockSize)
  {
  }

  lemma FreeAtLeast(s: State, room: nat, ahead: nat)
    requires Funded(s, room, ahead)
    ensures forall i :: 0 <= i < |s.running| ==> s.running[i].id in s.cache.tables
    ensures |s.cache.pool.freeList| >= |s.cache.pool.blocks| - TableSum(s.cache.tables, s.running)
  {
    hide Consistent, CeilDiv, Order, AllRefs;
    forall i | 0 <= i < |s.running| ensures s.running[i].id in s.cache.tables {
      FundedTable(s, i, room, ahead);
    }
    IdsAreDistinct(s);
    FreeBlocksExact(s.cache);
    ReferencesAreTables(s.cache.tables, s.running);
    HeldAtMostReferences(AllRefs(s.cache.tables));
  }

  /** A sequence that has not yet grown in this pass can always append. */
  lemma RoomToAppend(s: State, j: nat, room: nat, ahead: nat)
    requires Funded(s, room, ahead) && j < |s.running| && Backed(s, s.running[j]) <= s.running[j].TotalLen() + ahead
    ensures CanAppend(s.cache, s.running[j].id)
  {
    hide Consistent, CeilDiv, Order, Funded, Reserve, ReserveSum, TableSum;
    var size, q := s.cache.pool.blockSize, s.running[j];
    FundedBasics(s, room, ahead);
    FundedTable(s, j, room, ahead);
    if s.cache.tables[q.id].numTokens % size == 0 {
      TableShape(s.cache, q.id);
      CeilSuccessor(s.cache.tables[q.id].numTokens, size);
      forall i | 0 <= i < |s.running|
        ensures s.running[i].id in s.cache.tables
                && |s.cache.tables[s.running[i].id].blocks| <= Reserve(s.running[i], size, room)
      {
        FundedTable(s, i, room, ahead);
      }
      TablesBelowReserve(s.cache.tables, s.running, size, j, room);
      FreeAtLeast(s, room, ahead);
    }
  }

  lemma FundedBasics(s: State, room: nat, ahead: nat)
    requires Funded(s, room, ahead)
    ensures s.cache.pool.blockSize > 0 && Consistent(s.cache) && Healthy(s) && NoneFinished(s)
    ensures AllServable(s) && ReservationsFit(s, room)
    ensures s.cache.WellFormed()
  {
  }

  /** The head of the queue always fits. */
  lemma RoomToAdmit(s: State, room: nat, ahead: nat)
    requires Funded(s, room, ahead) && s.waiting != []
    ensures s.cache.pool.blockSize > 0 && CanAllocate(s.cache, |s.waiting[0].prompt|)
  {
    hide Consistent, CeilDiv, Order, Funded, Reserve, TableSum;
    FundedBasics(s, room, ahead);
    var size, head := s.cache.pool.blockSize, s.waiting[0];
    forall i | 0 <= i < |s.running|
      ensures s.running[i].id in s.cache.tables
              && |s.cache.tables[s.running[i].id].blocks| <= Reserve(s.running[i], size, room)
    {
      FundedTable(s, i, room, ahead);
    }
    TablesWithinReserve(s.cache.tables, s.running, size, room);
    FreeAtLeast(s, room, ahead);
    HeadReserve(s.waiting, size, room);
    ReserveCoversPrompt(head, size, room);
  }

  lemma ReserveCoversPrompt(q: Sequence, size: nat, room: nat)
    requires size > 0
    ensures CeilDiv(|q.prompt|, size) <= Reserve(q, size, room)
  {
    CeilMonotone(|q.prompt|, |q.prompt| + q.params.maxTokens + room, size);
  }

  lemma {:induction false} HeadReserve(list: seq<Sequence>, size: nat, room: nat)
    requires size > 0 && list != []
    ensures Reserve(list[0], size, room) <= ReserveSum(list, size, room)
    ensures ReserveSum(list, size, room) == Reserve(list[0], size, room) + ReserveSum(list[1..], size, room)
  {
    if |list| > 1 {
      HeadReserve(list[..|list| - 1], size, room);
      assert list[..|list| - 1][1..] == list[1..][..|list| - 2];
    } else {
      assert list[..0] == [] && list[1..] == [];
    }
  }

  // ----- Work -----

  /** Prompt tokens still to prefill and output tokens still to generate. */
  ghost function WorkOf(q: Sequence): nat {
    q.RemainingPrefill() + SaturatingSub(q.params.maxTokens, |q.output|)
  }

  ghost function WorkSum(list: seq<Sequence>): nat {
    if list == [] then 0 else WorkSum(list[..|list| - 1]) + WorkOf(list[|list| - 1])
  }

  ghost function Work(s: State): nat {
    WorkSum(s.running) + WorkSum(s.waiting)
  }

  lemma {:induction false} WorkUpdate(list: seq<Sequence>, pos: nat, q: Sequence)
    requires pos < |list|
    ensures WorkSum(list[pos := q]) == WorkSum(list) - WorkOf(list[pos]) + WorkOf(q)
  {
    var front := list[..|list| - 1];
    if pos < |list| - 1 {
      WorkUpdate(front, pos, q);
      assert list[pos := q][..|list| - 1] == front[pos := q];
    } else {
      assert list[pos := q][..|list| - 1] == front;
    }
  }

  lemma {:induction false} WorkHead(list: seq<Sequence>)
    requires list != []
    ensures WorkSum(list) == WorkOf(list[0]) + WorkSum(list[1..])
  {
    if |list| > 1 {
      WorkHead(list[..|list| - 1]);
      assert list[..|list| - 1][1..] == list[1..][..|list| - 2];
    } else {
      assert list[..0] == [] && list[1..] == [];
    }
  }

  lemma WorkPush(list: seq<Sequence>, q: Sequence)
    ensures WorkSum(list + [q]) == WorkSum(list) + WorkOf(q)
  {
    assert (list + [q])[..|list|] == list;
  }

  lemma ReservePush(list: seq<Sequence>, q: Sequence, size: nat, room: nat)
    requires size > 0
    ensures ReserveSum(list + [q], size, room) == ReserveSum(list, size, room) + Reserve(q, size, room)
  {
    assert (list + [q])[..|list|] == list;
  }

  lemma {:induction false} ReserveSame(a: seq<Sequence>, b: seq<Sequence>, size: nat, room: nat)
    requires size > 0 && |a| == |b|
    requires forall i :: 0 <= i < |a| ==> a[i].prompt == b[i].prompt && a[i].params == b[i].params
    ensures ReserveSum(a, size, room) == ReserveSum(b, size, room)
  {
    if a != [] {
      ReserveSame(a[..|a| - 1], b[..|b| - 1], size, room);
    }
  }

  // ----- A pass under reservations preempts nobody -----

  ghost predicate ScheduledIn(batch: seq<Scheduled>, id: SequenceId) {
    exists k :: 0 <= k < |batch| && batch[k].id == id
  }

  /** A table runs further ahead of its sequence by one token at most, and only while its decode is scheduled. */
  ghost predicate Granted(p: Pass, q: Sequence, ahead: nat) {
    || Backed(p.s, q) <= q.TotalLen() + ahead
    || (Backed(p.s, q) == q.TotalLen() + ahead + 1 && q.state.Decoding? && ScheduledIn(p.scheduled, q.id))
  }

  ghost predicate PassFunded(p: Pass, room: nat, ahead: nat) {
    && PassOk(p) && p.s.cache.pool.blockSize > 0
    && AllServable(p.s) && ReservationsFit(p.s, room) && ahead <= room && p.preempted == []
    && forall i :: 0 <= i < |p.s.running| ==> Granted(p, p.s.running[i], ahead)
  }

  lemma PassIsFunded(p: Pass, room: nat, ahead: nat)
    requires PassFunded(p, room, ahead)
    ensures Funded(p.s, room, ahead)
  {
    hide Consistent, Order, Servable, ReserveSum;
  }

  /** Reservations and servability depend only on what scheduling leaves alone. */
  lemma OrderKeepsReservations(s: State, after: State, room: nat)
    requires s.cache.pool.blockSize > 0 && AllServable(s) && ReservationsFit(s, room)
    requires Order(after) == Order(s) && SamePool(s, after)
    ensures AllServable(after) && ReservationsFit(after, room)
  {
    ReserveOfOrder(s, room);
    ReserveOfOrder(after, room);
    ServableByOrder(s, after);
  }

  lemma ServableByOrder(s: State, after: State)
    requires s.cache.pool.blockSize > 0 && AllServable(s)
    requires Order(after) == Order(s) && SamePool(s, after)
    ensures AllServable(after)
  {
    hide CeilDiv;
    forall i | 0 <= i < |Order(s)| ensures Servable(after, Order(s)[i]) {
      if i < |s.running| {
        assert Servable(s, s.running[i]);
      } else {
        assert Servable(s, s.waiting[i - |s.running|]);
      }
    }
    forall i | 0 <= i < |after.running| ensures Servable(after, after.running[i]) {
      assert Order(after)[i] == Core(after.running[i]);
    }
    forall i | 0 <= i < |after.waiting| ensures Servable(after, after.waiting[i]) {
      assert Order(after)[|after.running| + i] == Core(after.waiting[i]);
    }
  }

  lemma {:induction false} ReserveConcat(a: seq<Sequence>, b: seq<Sequence>, size: nat, room: nat)
    requires size > 0
    ensures ReserveSum(a + b, size, room) == ReserveSum(a, size, room) + ReserveSum(b, size, room)
  {
    if b == [] {
      assert a + b == a;
    } else {
      ReserveConcat(a, b[..|b| - 1], size, room);
      assert (a + b)[..|a + b| - 1] == a + b[..|b| - 1];
    }
  }

  lemma ReserveOfOrder(s: State, room: nat)
    requires s.cache.pool.blockSize > 0
    ensures ReserveSum(Order(s), s.cache.pool.blockSize, room)
            == ReserveSum(s.running, s.cache.pool.blockSize, room) + ReserveSum(s.waiting, s.cache.pool.blockSize, room)
  {
    var size := s.cache.pool.blockSize;
    ReserveConcat(Cores(s.running), Cores(s.waiting), size, room);
    ReserveSame(Cores(s.running), s.running, size, room);
    ReserveSame(Cores(s.waiting), s.waiting, size, room);
  }

  // Decodes

  /** The candidates are distinct decoding sequences that have not grown yet. */
  ghost predicate CandidatesPending(s: State, candidates: seq<(SequenceId, nat)>, ahead: nat) {
    && (forall i, j :: 0 <= i < j < |candidates| ==> candidates[i].0 != candidates[j].0)
    && (forall i :: 0 <= i < |candidates| ==> Pending(s, candidates[i].0, ahead))
  }

  ghost predicate Pending(s: State, id: SequenceId, ahead: nat) {
    exists j :: 0 <= j < |s.running| && s.running[j].id == id && s.running[j].state.Decoding?
                && Backed(s, s.running[j]) <= s.running[j].TotalLen() + ahead
  }

  lemma {:induction false} DecodeCandidatesPending(s: State, n: nat, ahead: nat)
    requires n <= |s.running| && DistinctIds(s.running)
    requires forall i :: 0 <= i < |s.running| ==> Backed(s, s.running[i]) <= s.running[i].TotalLen() + ahead
    ensures CandidatesPending(s, DecodeCandidates(s.running[..n]), ahead)
    ensures forall i :: 0 <= i < |DecodeCandidates(s.running[..n])| ==>
              exists k :: 0 <= k < n && s.running[k].id == DecodeCandidates(s.running[..n])[i].0
  {
    if n > 0 {
      DecodeCandidatesPending(s, n - 1, ahead);
      assert s.running[..n][..n - 1] == s.running[..n - 1];
      var front, all := DecodeCandidates(s.running[..n - 1]), DecodeCandidates(s.running[..n]);
      assert forall i :: 0 <= i < |front| ==> front[i] == all[i];
    }
  }

  lemma DecodeOneFunded(p: Pass, id: SequenceId, totalLen: nat, room: nat, ahead: nat)
    requires PassFunded(p, room, ahead) && Pending(p.s, id, ahead)
    ensures p.s.cache.WellFormed()
    ensures var (q, go) := DecodeOne(p, id, totalLen);
            && go && PassFunded(q, room, ahead)
            && q.s.running == p.s.running && q.s.waiting == p.s.waiting && q.used == p.used + 1
            && q.scheduled == p.scheduled + [Scheduled(id, 1, totalLen, false)]
            && forall x :: x != id && Pending(p.s, x, ahead) ==> Pending(q.s, x, ahead)
  {
    hide Consistent, Order, Appended, Servable, ReserveSum, Granted, DistinctIds;
    PassIsFunded(p, room, ahead);
    FundedBasics(p.s, room, ahead);
    var j :| 0 <= j < |p.s.running| && p.s.running[j].id == id && p.s.running[j].state.Decoding?
             && Backed(p.s, p.s.running[j]) <= p.s.running[j].TotalLen() + ahead;
    RoomToAppend(p.s, j, room, ahead);
    AppendingIsExact(p.s.cache, id);
    var q := DecodeOne(p, id, totalLen).0;
    DecodeOneOk(p, id, totalLen);
    OrderIgnoresCache(p.s, q.s.cache);
    OrderKeepsReservations(p.s, q.s, room);
    IdsAreDistinct(p.s);
    AppendGrants(p, q, j, ahead);
  }

  lemma AppendGrants(p: Pass, q: Pass, j: nat, ahead: nat)
    requires DistinctIds(p.s.running) && j < |p.s.running| && p.s.running[j].state.Decoding?
    requires Backed(p.s, p.s.running[j]) <= p.s.running[j].TotalLen() + ahead
    requires forall i :: 0 <= i < |p.s.running| ==> Granted(p, p.s.running[i], ahead)
    requires q.s.running == p.s.running && p.scheduled < q.scheduled && q.scheduled[|p.scheduled|].id == p.s.running[j].id
    requires forall i :: 0 <= i < |p.s.running| ==>
               Backed(q.s, p.s.running[i])
               <= Backed(p.s, p.s.running[i]) + if p.s.running[i].id == p.s.running[j].id then 1 else 0
    ensures forall i :: 0 <= i < |p.s.running| ==> Granted(q, p.s.running[i], ahead)
  {
    hide Backed;
    forall i | 0 <= i < |p.s.running| ensures Granted(q, p.s.running[i], ahead) {
      assert Granted(p, p.s.running[i], ahead);
      ScheduledInMore(p.scheduled, q.scheduled, p.s.running[i].id);
    }
  }

  lemma {:induction false} DecodesFunded(p: Pass, candidates: seq<(SequenceId, nat)>, budget: nat, room: nat, ahead: nat)
    requires PassFunded(p, room, ahead) && CandidatesPending(p.s, candidates, ahead)
    requires p.used + |candidates| <= budget
    ensures p.s.cache.WellFormed()
    ensures var r := Decodes(p, candidates, budget);
            && PassFunded(r, room, ahead)
            && r.s.running == p.s.running && r.s.waiting == p.s.waiting
            && |r.scheduled| == |p.scheduled| + |candidates| && p.scheduled <= r.scheduled
            && forall k :: 0 <= k < |candidates| ==>
                 r.scheduled[|p.scheduled| + k].id == candidates[k].0
    decreases |candidates|
  {
    hide DecodeOne, PassFunded, Pending;
    FundedBasics(p.s, room, ahead) by { PassIsFunded(p, room, ahead); }
    if candidates != [] {
      DecodeOneFunded(p, candidates[0].0, candidates[0].1, room, ahead);
      var q := DecodeOne(p, candidates[0].0, candidates[0].1).0;
      DecodesFunded(q, candidates[1..], budget, room, ahead);
    }
  }

  // Partial prefills

  lemma PartialOneFunded(p: Pass, c: PartialPrefill, budget: nat, room: nat, ahead: nat)
    requires PassFunded(p, room, ahead) && PartialMatches(p.s.running, c) && p.used < budget && p.s.config.chunkedPrefill
    ensures var q := PartialOne(p, c, budget);
            && PassFunded(q, room, ahead) && Work(q.s) + q.used == Work(p.s) + p.used
  {
    hide Consistent, Order, Servable, ReserveSum, WorkSum;
    var pos, q := Position(p.s.running, c.id), PartialOne(p, c, budget);
    PartialOneOk(p, c, budget);
    UpdateKeepsOrder(p.s, pos, q.s.running[pos]);
    assert Order(q.s) == Order(p.s);
    OrderKeepsReservations(p.s, q.s, room);
    WorkUpdate(p.s.running, pos, q.s.running[pos]);
    forall i | 0 <= i < |q.s.running| ensures Granted(q, q.s.running[i], ahead) {
      assert Granted(p, p.s.running[i], ahead);
      ScheduledInMore(p.scheduled, q.scheduled, p.s.running[i].id);
    }
  }

  lemma {:induction false} PartialsFunded(p: Pass, candidates: seq<PartialPrefill>, budget: nat, room: nat, ahead: nat)
    requires PassFunded(p, room, ahead) && PartialsMatch(p.s.running, candidates) && p.s.config.chunkedPrefill
    ensures var r := Partials(p, candidates, budget);
            PassFunded(r, room, ahead) && Work(r.s) + r.used == Work(p.s) + p.used
    decreases |candidates|
  {
    hide PartialOne, PassFunded, PartialMatches, Work;
    if candidates != [] && p.used < budget {
      PartialOneFunded(p, candidates[0], budget, room, ahead);
      var q := PartialOne(p, candidates[0], budget);
      forall i | 0 < i < |candidates| ensures PartialMatches(q.s.running, candidates[i]) {
        PartialOneKeepsOthers(p, candidates[0], budget, candidates[i]);
      }
      PartialOneConfig(p, candidates[0], budget);
      PartialsFunded(q, candidates[1..], budget, room, ahead);
    }
  }

  lemma PartialOneConfig(p: Pass, c: PartialPrefill, budget: nat)
    requires p.used < budget
    ensures PartialOne(p, c, budget).s.config == p.s.config
  {
  }

  // Admission

  /** With room for the head, the round admits it with as much of its prompt as the budget allows. */
  lemma AdmitRoundIsHead(p: Pass, budget: nat, room: nat, ahead: nat)
    requires PassFunded(p, room, ahead) && p.s.config.chunkedPrefill && CanRun(p, budget)
    ensures p.s.cache.WellFormed()
    ensures var head := p.s.waiting[0];
            var chunk := Min(|head.prompt|, budget - p.used);
            && Queued(head) && chunk > 0 && head.id !in p.s.cache.tables
            && Allocated(p.s.cache, head.id, head.prompt).1.Ok?
            && AdmitRound(p, budget) == Again(AdmitHead(p, Allocated(p.s.cache, head.id, head.prompt).0, chunk))
  {
    hide Consistent, Order, Servable, ReserveSum, Allocated, Freed, AdmitHead, DistinctIds, Granted;
    PassIsFunded(p, room, ahead);
    FundedBasics(p.s, room, ahead);
    var head := p.s.waiting[0];
    assert Queued(head);
    ServableHasPrompt(p.s, head);
    RoomToAdmit(p.s, room, ahead);
    IdsAreDistinct(p.s);
    assert head.id !in IdSet(p.s.running);
    AllocationIsExact(p.s.cache, head.id, head.prompt);
  }

  lemma AdmitHeadGranted(p: Pass, cache: Manager, chunk: nat, room: nat, ahead: nat)
    requires PassFunded(p, room, ahead) && p.s.waiting != [] && Queued(p.s.waiting[0])
    requires p.s.waiting[0].id in cache.tables && cache.tables[p.s.waiting[0].id].numTokens == |p.s.waiting[0].prompt|
    requires forall x :: x in p.s.cache.tables ==> x in cache.tables && cache.tables[x] == p.s.cache.tables[x]
    ensures var q := AdmitHead(p, cache, chunk);
            forall i :: 0 <= i < |q.s.running| ==> Granted(q, q.s.running[i], ahead)
  {
    hide Consistent, Order, Servable, ReserveSum, AdmittedSequence;
    var q := AdmitHead(p, cache, chunk);
    forall i | 0 <= i < |q.s.running| ensures Granted(q, q.s.running[i], ahead) {
      if i < |p.s.running| {
        assert Granted(p, p.s.running[i], ahead);
        assert p.s.running[i].id in IdSet(p.s.running);
        ScheduledInMore(p.scheduled, q.scheduled, p.s.running[i].id);
      } else {
        AdmittedKeepsLength(p.s.waiting[0], chunk);
      }
    }
  }

  lemma AdmittedKeepsLength(q: Sequence, chunk: nat)
    ensures AdmittedSequence(q, chunk).TotalLen() == q.TotalLen()
    ensures AdmittedSequence(q, chunk).id == q.id
  {
  }

  lemma ScheduledInMore(a: seq<Scheduled>, b: seq<Scheduled>, id: SequenceId)
    requires a <= b
    ensures ScheduledIn(a, id) ==> ScheduledIn(b, id)
  {
    if ScheduledIn(a, id) {
      var k :| 0 <= k < |a| && a[k].id == id;
      assert b[k] == a[k];
    }
  }

  lemma AdmitHeadWork(p: Pass, cache: Manager, chunk: nat)
    requires p.s.waiting != [] && Queued(p.s.waiting[0]) && chunk <= |p.s.waiting[0].prompt|
    ensures var q := AdmitHead(p, cache, chunk);
            Work(q.s) + q.used == Work(p.s) + p.used
  {
    hide WorkSum;
    WorkHead(p.s.waiting);
    WorkPush(p.s.running, AdmittedSequence(p.s.waiting[0], chunk));
  }

  lemma AdmitRoundFunded(p: Pass, budget: nat, room: nat, ahead: nat)
    requires PassFunded(p, room, ahead) && p.s.config.chunkedPrefill
    ensures p.s.cache.WellFormed()
    ensures var next := AdmitRound(p, budget);
            && PassFunded(next.p, room, ahead) && Work(next.p.s) + next.p.used == Work(p.s) + p.used
            && next.p.s.config == p.s.config && p.used <= next.p.used
            && (next.Done? ==> next.p == p) && (next.Again? ==> next.p.used > p.used)
  {
    hide Order, AllServable, ReserveSum, Work, Allocated, Granted, PassOk, ReservationsFit, AdmitRound;
    PassFundedIsWellFormed(p, room, ahead);
    AdmitRoundOk(p, budget);
    AdmitRoundKeepsOrder(p, budget);
    AdmitRoundProgress(p, budget);
    if CanRun(p, budget) {
      AdmitRoundIsHead(p, budget, room, ahead);
      var head := p.s.waiting[0];
      var cache, chunk := Allocated(p.s.cache, head.id, head.prompt).0, Min(|head.prompt|, budget - p.used);
      AllocationTables(p.s.cache, head.id, head.prompt);
      OrderKeepsReservations(p.s, AdmitRound(p, budget).p.s, room);
      AdmitHeadWork(p, cache, chunk);
      AdmitHeadGranted(p, cache, chunk, room, ahead);
    } else {
      AdmitRoundStops(p, budget);
    }
  }

  lemma PassFundedIsWellFormed(p: Pass, room: nat, ahead: nat)
    requires PassFunded(p, room, ahead)
    ensures p.s.cache.WellFormed() && Consistent(p.s.cache)
  {
  }

  lemma ServableHasPrompt(s: State, q: Sequence)
    requires s.cache.pool.blockSize > 0 && AllServable(s) && q in s.waiting
    ensures |q.prompt| > 0
  {
  }

  lemma AllocationTables(m: Manager, s: SequenceId, prompt: seq<TokenId>)
    requires Consistent(m) && Allocated(m, s, prompt).1.Ok?
    ensures var after := Allocated(m, s, prompt).0;
            && s in after.tables && after.tables[s].numTokens == |prompt|
            && (forall x :: x in m.tables ==> x in after.tables && after.tables[x] == m.tables[x])
            && |after.pool.blocks| == |m.pool.blocks| && after.pool.blockSize == m.pool.blockSize
  {
    hide Allocated, Consistent, LeadingRun, FreshTail;
    AllocationIsExact(m, s, prompt);
  }

  lemma {:induction false} AdmitFunded(p: Pass, budget: nat, room: nat, ahead: nat)
    requires PassFunded(p, room, ahead) && p.s.config.chunkedPrefill
    ensures p.s.cache.WellFormed()
    ensures var r := Admit(p, budget);
            && PassFunded(r, room, ahead) && Work(r.s) + r.used == Work(p.s) + p.used
            && p.used <= r.used && (r.used == p.used ==> r == p)
    decreases SaturatingSub(budget, p.used), |p.s.running|
  {
    hide AdmitRound, PassFunded, Work;
    AdmitRoundFunded(p, budget, room, ahead);
    AdmitRoundProgress(p, budget);
    match AdmitRound(p, budget)
    case Done(q) =>
    case Again(q) => AdmitFunded(q, budget, room, ahead);
  }

  /** A reserved state schedules without preempting; the batch is decodes, then prefill work. */
  lemma ScheduleFunded(s: State, room: nat, ahead: nat)
    requires Reserved(s, room, ahead)
    ensures s.cache.WellFormed()
    ensures var p := DecodePass(StartPass(s), s.config.maxBatchedTokens);
            var r := Schedule(s);
            && PassFunded(r, room, ahead)
            && p.s.running == s.running && p.s.waiting == s.waiting
            && Work(r.s) + r.used == Work(s) + p.used && p.used <= r.used && (r.used == p.used ==> r == p)
  {
    hide Consistent, Order, Servable, ReserveSum, Decodes, DecodeCandidates, Partials,
      PartialCandidates, PartialsMatch, DistinctIds, Pending, Admit;
    HealthyIsWellFormed(s);
    var start, budget := StartPass(s), s.config.maxBatchedTokens;
    StartOk(s);
    assert PassFunded(start, room, ahead);
    IdsAreDistinct(s);
    DecodeCandidatesPending(s, |s.running|, ahead);
    assert s.running[..|s.running|] == s.running;
    DecodeCandidatesShape(s.running);
    CandidatesPendingAtStart(s, DecodeCandidates(s.running), ahead);
    DecodesFunded(start, DecodeCandidates(s.running), budget, room, ahead);
    DecodesShape(start, DecodeCandidates(s.running), budget);
    ResumeAndAdmit(DecodePass(start, budget), budget, room, ahead);
  }

  lemma CandidatesPendingAtStart(s: State, candidates: seq<(SequenceId, nat)>, ahead: nat)
    requires CandidatesPending(s, candidates, ahead)
    ensures CandidatesPending(StartPass(s).s, candidates, ahead)
  {
  }

  lemma ResumeAndAdmit(p: Pass, budget: nat, room: nat, ahead: nat)
    requires PassFunded(p, room, ahead) && p.s.config.chunkedPrefill
    ensures p.s.cache.WellFormed()
    ensures var r := Prefills(p, budget);
            && PassFunded(r, room, ahead) && Work(r.s) + r.used == Work(p.s) + p.used
            && p.used <= r.used && (r.used == p.used ==> r == p)
  {
    hide Consistent, Order, Servable, ReserveSum, Partials, PartialCandidates, PartialsMatch,
      DistinctIds, Admit, Work, Granted, AllServable, ReservationsFit;
    PassFundedIsWellFormed(p, room, ahead);
    IdsAreDistinct(p.s);
    PartialCandidatesFrom(p.s.running, |p.s.running|);
    assert p.s.running[..|p.s.running|] == p.s.running;
    var candidates := PartialCandidates(p.s.running);
    PartialsFunded(p, candidates, budget, room, ahead);
    PartialsShape(p, candidates, budget);
    AdmitFunded(Partials(p, candidates, budget), budget, room, ahead);
  }

  // ----- Rounds -----

  type Draw = nat -> TokenId

  /** One token for a scheduled sequence that is resident, through its prefill and unfinished. */
  function Emit(s: State, e: Scheduled, token: TokenId, eosIds: seq<TokenId>): State {
    var pos := Position(s.running, e.id);
    if pos < |s.running| && s.running[pos].PrefillComplete() && !s.running[pos].state.Finished?
    then Tokened(s, e.id, token, eosIds).0
    else s
  }

  function EmitAll(s: State, batch: seq<Scheduled>, draw: Draw, eosIds: seq<TokenId>): State
    decreases |batch|
  {
    if batch == [] then s else EmitAll(Emit(s, batch[0], draw(|batch|), eosIds), batch[1..], draw, eosIds)
  }

  /** One engine round: schedule, one token for each sequence that yields one, publish, retire. */
  ghost function NextRound(s: State, draw: Draw, eosIds: seq<TokenId>): State
    requires s.cache.WellFormed()
  {
    var p := Schedule(s);
    EmitAllKeepsCache(p.s, p.scheduled, draw, eosIds);
    Reaped(CommitAll(EmitAll(p.s, p.scheduled, draw, eosIds), p.scheduled)).0
  }

  lemma {:induction false} EmitAllKeepsCache(s: State, batch: seq<Scheduled>, draw: Draw, eosIds: seq<TokenId>)
    ensures EmitAll(s, batch, draw, eosIds).cache == s.cache
    ensures EmitAll(s, batch, draw, eosIds).waiting == s.waiting
    ensures EmitAll(s, batch, draw, eosIds).config == s.config
    decreases |batch|
  {
    if batch != [] {
      EmitAllKeepsCache(Emit(s, batch[0], draw(|batch|), eosIds), batch[1..], draw, eosIds);
    }
  }

  /** While tokens go out: only a sequence still in line for its token has run further ahead. */
  ghost predicate Emitting(s: State, rest: seq<Scheduled>, ahead: nat) {
    && Healthy(s) && |s.running| <= s.config.maxNumSeqs
    && forall i :: 0 <= i < |s.running| && !s.running[i].state.Finished? ==> Due(s, s.running[i], rest, ahead)
  }

  ghost predicate Due(s: State, q: Sequence, rest: seq<Scheduled>, ahead: nat) {
    && |q.output| < q.params.maxTokens
    && (|| Backed(s, q) <= q.TotalLen() + ahead
        || (Backed(s, q) == q.TotalLen() + ahead + 1 && q.PrefillComplete() && ScheduledIn(rest, q.id)))
  }

  lemma EmitWork(s: State, e: Scheduled, rest: seq<Scheduled>, token: TokenId, eosIds: seq<TokenId>, ahead: nat)
    requires Emitting(s, [e] + rest, ahead)
    ensures var after := Emit(s, e, token, eosIds);
            && Emitting(after, rest, ahead) && Work(after) <= Work(s)
            && ReserveSumsAgree(after, s)
            && (Work(after) == Work(s) ==> after == s)
            && (after == s ==> NoneYields(s, e.id))
  {
    hide Consistent, Order, Resident, WithToken, Healthy, WorkSum;
    var pos, after := Position(s.running, e.id), Emit(s, e, token, eosIds);
    forall i | 0 <= i < |s.running| && s.running[i].id != e.id
      ensures ScheduledIn([e] + rest, s.running[i].id) ==> ScheduledIn(rest, s.running[i].id)
    {
      ScheduledInTail(e, rest, s.running[i].id);
    }
    HealthyIsDistinct(s);
    if pos < |s.running| {
      assert forall i :: 0 <= i < |s.running| && s.running[i].id == e.id ==> i == pos;
      var q := s.running[pos];
      if q.PrefillComplete() && !q.state.Finished? {
        assert Due(s, q, [e] + rest, ahead);
        TokenHealthy(s, e.id, token, eosIds);
        TokenWork(q, token, eosIds);
        WorkUpdate(s.running, pos, after.running[pos]);
        forall i | 0 <= i < |after.running| && !after.running[i].state.Finished?
          ensures Due(after, after.running[i], rest, ahead)
        {
          assert i != pos ==> Due(s, s.running[i], [e] + rest, ahead);
        }
      } else {
        forall i | 0 <= i < |s.running| && !s.running[i].state.Finished? ensures Due(s, s.running[i], rest, ahead) {
          assert Due(s, s.running[i], [e] + rest, ahead);
        }
      }
    } else {
      forall i | 0 <= i < |s.running| && !s.running[i].state.Finished? ensures Due(s, s.running[i], rest, ahead) {
        assert Due(s, s.running[i], [e] + rest, ahead);
      }
    }
  }

  /** No resident sequence with this id would take a token. */
  ghost predicate NoneYields(s: State, id: SequenceId) {
    forall i :: 0 <= i < |s.running| && s.running[i].PrefillComplete() && !s.running[i].state.Finished? ==>
      s.running[i].id != id
  }

  lemma HealthyIsDistinct(s: State)
    requires Healthy(s)
    ensures DistinctIds(s.running)
  {
    IdsAreDistinct(s);
  }

  lemma ScheduledInTail(e: Scheduled, rest: seq<Scheduled>, id: SequenceId)
    requires id != e.id
    ensures ScheduledIn([e] + rest, id) ==> ScheduledIn(rest, id)
  {
    if ScheduledIn([e] + rest, id) {
      var k :| 0 <= k < |[e] + rest| && ([e] + rest)[k].id == id;
      assert rest[k - 1].id == id;
    }
  }

  /** The same requests, as far as reservations go. */
  ghost predicate ReserveSumsAgree(a: State, b: State) {
    && a.waiting == b.waiting && |a.running| == |b.running| && a.config == b.config && a.cache == b.cache
    && forall i :: 0 <= i < |a.running| ==>
         && a.running[i].id == b.running[i].id
         && a.running[i].prompt == b.running[i].prompt && a.running[i].params == b.running[i].params
  }

  lemma TokenWork(q: Sequence, token: TokenId, eosIds: seq<TokenId>)
    requires |q.output| < q.params.maxTokens && !q.state.Finished?
    ensures var r := WithToken(q, token, eosIds).0;
            && WorkOf(r) == WorkOf(q) - 1 && r.TotalLen() == q.TotalLen() + 1
            && r.id == q.id && r.prompt == q.prompt && r.params == q.params && r.computed == q.computed
            && (!r.state.Finished? ==> |r.output| < r.params.maxTokens && r.state == q.state)
  {
  }

  lemma {:induction false} EmitAllWork(s: State, batch: seq<Scheduled>, draw: Draw, eosIds: seq<TokenId>, ahead: nat)
    requires Emitting(s, batch, ahead)
    ensures var after := EmitAll(s, batch, draw, eosIds);
            && Emitting(after, [], ahead) && Work(after) <= Work(s) && ReserveSumsAgree(after, s)
            && ((exists i :: 0 <= i < |s.running| && s.running[i].PrefillComplete()
                             && !s.running[i].state.Finished? && ScheduledIn(batch, s.running[i].id)) ==>
                  Work(after) < Work(s))
    decreases |batch|
  {
    hide Emitting, Emit, Work;
    if batch != [] {
      assert batch == [batch[0]] + batch[1..];
      EmitWork(s, batch[0], batch[1..], draw(|batch|), eosIds, ahead);
      var next := Emit(s, batch[0], draw(|batch|), eosIds);
      EmitAllWork(next, batch[1..], draw, eosIds, ahead);
      if next == s {
        forall i | 0 <= i < |s.running| && s.running[i].PrefillComplete() && !s.running[i].state.Finished?
                   && ScheduledIn(batch, s.running[i].id)
          ensures ScheduledIn(batch[1..], s.running[i].id)
        {
          ScheduledInTail(batch[0], batch[1..], s.running[i].id);
        }
      }
    }
  }

  lemma {:induction false} CommitAllKeeps(s: State, batch: seq<Scheduled>)
    requires Healthy(s)
    ensures s.cache.WellFormed()
    ensures var after := CommitAll(s, batch);
            && Healthy(after) && after.running == s.running && after.waiting == s.waiting && SamePool(s, after)
            && after.cache.tables == s.cache.tables
    decreases |batch|
  {
    hide Consistent, Committed, Resident, Queued, Position;
    HealthyIsWellFormed(s);
    if batch != [] {
      var pos := Position(s.running, batch[0].id);
      if pos < |s.running| {
        CommittingConserves(s.cache, batch[0].id, s.running[pos].prompt);
      }
      CommittedStateWellFormed(s, batch[0].id);
      var next := if batch[0].isPrefill then CommittedState(s, batch[0].id) else s;
      assert Order(next) == Order(s);
      CommitAllKeeps(next, batch[1..]);
    }
  }

  lemma {:induction false} UnfinishedSums(list: seq<Sequence>, size: nat, room: nat)
    requires size > 0
    ensures ReserveSum(Unfinished(list), size, room) <= ReserveSum(list, size, room)
    ensures WorkSum(Unfinished(list)) <= WorkSum(list)
  {
    if list != [] {
      var front, q := list[..|list| - 1], list[|list| - 1];
      UnfinishedSums(front, size, room);
      ReservePush(Unfinished(front), q, size, room);
      WorkPush(Unfinished(front), q);
    }
  }

  /** Retiring the finished leaves a reserved state again. */
  lemma ReapReserves(s: State, room: nat, ahead: nat)
    requires Emitting(s, [], ahead) && RunsWell(s.config) && s.cache.pool.blockSize > 0 && ReservationsFit(s, room)
    requires forall i :: 0 <= i < |s.running| ==> Fits(s.cache, s.running[i])
    requires ahead <= room && forall i :: 0 <= i < |s.waiting| ==> Servable(s, s.waiting[i])
    ensures Reserved(Reaped(s).0, room, ahead) && Work(Reaped(s).0) <= Work(s)
  {
    hide Consistent, Order, Resident, Without, FreedAll, ReserveSum, WorkSum, Fits;
    var after := Reaped(s).0;
    ReapHealthy(s);
    UnfinishedSplits(s.running);
    UnfinishedSums(s.running, s.cache.pool.blockSize, room);
    FreedAllConserves(s.cache, FinishedOnly(s.running));
    IdsAreDistinct(s);
    UnfinishedIsWithout(s.running);
    forall i | 0 <= i < |after.running|
      ensures Servable(after, after.running[i]) && Backed(after, after.running[i]) <= after.running[i].TotalLen() + ahead
              && !after.running[i].state.Finished?
    {
      ReapedMember(s, i, ahead);
    }
    forall i | 0 <= i < |after.waiting| ensures Servable(after, after.waiting[i]) {
      assert Servable(s, s.waiting[i]);
      FitsSamePool(s.cache, after.cache, s.waiting[i]);
    }
    AllServableFits(after);
  }

  lemma FitsSamePool(a: Manager, b: Manager, q: Sequence)
    requires a.pool.blockSize > 0 && b.pool.blockSize == a.pool.blockSize && |b.pool.blocks| == |a.pool.blocks|
    requires Fits(a, q)
    ensures Fits(b, q)
  {
  }

  lemma ReapedMember(s: State, i: nat, ahead: nat)
    requires Emitting(s, [], ahead) && s.cache.pool.blockSize > 0
    requires forall i :: 0 <= i < |s.running| ==> Fits(s.cache, s.running[i])
    requires i < |Unfinished(s.running)|
    ensures var after := Reaped(s).0; var q := after.running[i];
            && after.cache.pool.blockSize > 0
            && Servable(after, q) && Backed(after, q) <= q.TotalLen() + ahead && !q.state.Finished?
  {
    hide Order, Resident, FreedAll, Fits;
    var after := Reaped(s).0;
    var q := after.running[i];
    UnfinishedSplits(s.running);
    FreedAllConserves(s.cache, FinishedOnly(s.running));
    var k :| 0 <= k < |s.running| && s.running[k] == q;
    assert Due(s, q, [], ahead);
    FitsSamePool(s.cache, after.cache, q);
    IdsAreDistinct(s);
    UnfinishedIsWithout(s.running);
    assert q.id in IdSet(Unfinished(s.running));
  }

  lemma AllServableFits(s: State)
    requires s.cache.pool.blockSize > 0 && AllServable(s)
    ensures AllFit(s)
  {
    forall i | 0 <= i < |Order(s)| ensures Fits(s.cache, Order(s)[i]) {
      if i < |s.running| {
        assert Servable(s, s.running[i]);
      } else {
        assert Servable(s, s.waiting[i - |s.running|]);
      }
    }
  }

  lemma FundedIsEmitting(p: Pass, room: nat, ahead: nat)
    requires PassFunded(p, room, ahead) && |p.s.running| <= p.s.config.maxNumSeqs
    ensures Emitting(p.s, p.scheduled, ahead)
  {
    hide Consistent, Order, Fits;
    forall i | 0 <= i < |p.s.running| && !p.s.running[i].state.Finished?
      ensures Due(p.s, p.s.running[i], p.scheduled, ahead)
    {
      assert Granted(p, p.s.running[i], ahead);
      assert Servable(p.s, p.s.running[i]);
      assert Resident(p.s.running[i]);
    }
  }

  /** When only decodes are scheduled, a scheduled resident yields a token. */
  lemma DecodesYieldTokens(s: State, room: nat, ahead: nat)
    requires Reserved(s, room, ahead) && s.running + s.waiting != []
    ensures s.cache.WellFormed()
    ensures var budget := s.config.maxBatchedTokens;
            var r := Schedule(s);
            r == DecodePass(StartPass(s), budget) ==>
              exists i :: 0 <= i < |r.s.running| && r.s.running[i].PrefillComplete()
                          && !r.s.running[i].state.Finished? && ScheduledIn(r.scheduled, r.s.running[i].id)
  {
    hide Consistent, Order, Servable, ReserveSum, Prefills, Decodes, AllFit, DistinctIds, Schedule;
    HealthyIsWellFormed(s);
    WorkNeverStalls(s);
    ScheduleFunded(s, room, ahead);
    var r := Schedule(s);
    if r == DecodePass(StartPass(s), s.config.maxBatchedTokens) {
      var k, i :| 0 <= k < |r.scheduled| && 0 <= i < |r.s.running| && r.scheduled[k].id == r.s.running[i].id;
      ScheduledIsCandidate(s, k, room, ahead);
      var j :| 0 <= j < |s.running| && s.running[j].id == r.scheduled[k].id && s.running[j].state.Decoding?;
      HealthyIsDistinct(s);
      SameIdSamePlace(s.running, i, j);
      assert Resident(s.running[i]);
      assert ScheduledIn(r.scheduled, r.s.running[i].id);
    }
  }

  lemma SameIdSamePlace(list: seq<Sequence>, i: nat, j: nat)
    requires DistinctIds(list) && i < |list| && j < |list| && list[i].id == list[j].id
    ensures i == j
  {
  }

  lemma ScheduledIsCandidate(s: State, k: nat, room: nat, ahead: nat)
    requires Reserved(s, room, ahead) && s.cache.WellFormed()
    requires k < |DecodePass(StartPass(s), s.config.maxBatchedTokens).scheduled|
    ensures exists j :: 0 <= j < |s.running| && s.running[j].state.Decoding?
                        && s.running[j].id == DecodePass(StartPass(s), s.config.maxBatchedTokens).scheduled[k].id
  {
    hide Consistent, Order, Servable, ReserveSum, Decodes, DecodeCandidates, DistinctIds, AllFit;
    var start, candidates := StartPass(s), DecodeCandidates(s.running);
    StartOk(s);
    assert PassFunded(start, room, ahead);
    IdsAreDistinct(s);
    DecodeCandidatesPending(s, |s.running|, ahead);
    assert s.running[..|s.running|] == s.running;
    DecodeCandidatesShape(s.running);
    DecodesFunded(start, candidates, s.config.maxBatchedTokens, room, ahead);
    assert Pending(s, candidates[k].0, ahead);
  }

  /** One round under reservations: nobody is preempted, the state stays reserved, work shrinks. */
  lemma RoundMakesProgress(s: State, draw: Draw, eosIds: seq<TokenId>, room: nat, ahead: nat)
    requires Reserved(s, room, ahead)
    ensures s.cache.WellFormed()
    ensures Schedule(s).preempted == []
    ensures Reserved(NextRound(s, draw, eosIds), room, ahead)
    ensures s.running + s.waiting != [] ==> Work(NextRound(s, draw, eosIds)) < Work(s)
    ensures Work(NextRound(s, draw, eosIds)) <= Work(s)
  {
    hide Consistent, Order, Servable, ReserveSum, Prefills, DecodePass, AllFit, Work,
      Healthy, EmitAll, CommitAll, Schedule, Fits, PassOk, Due, Granted;
    HealthyIsWellFormed(s);
    ScheduleFunded(s, room, ahead);
    ScheduleWithinBudgets(s);
    var r := Schedule(s);
    FundedIsEmitting(r, room, ahead);
    EmitAllWork(r.s, r.scheduled, draw, eosIds, ahead);
    EmitAllKeepsCache(r.s, r.scheduled, draw, eosIds);
    var e := EmitAll(r.s, r.scheduled, draw, eosIds);
    CommitAllKeeps(e, r.scheduled);
    var c := CommitAll(e, r.scheduled);
    if s.running + s.waiting != [] {
      DecodesYieldTokens(s, room, ahead);
    }
    CommittedReserves(r.s, e, c, room, ahead);
    ReapReserves(c, room, ahead);
  }

  lemma CommittedReserves(r: State, e: State, c: State, room: nat, ahead: nat)
    requires r.cache.pool.blockSize > 0 && AllServable(r) && ReservationsFit(r, room)
    requires ReserveSumsAgree(e, r) && Emitting(e, [], ahead)
    requires Healthy(c) && c.running == e.running && c.waiting == e.waiting && SamePool(e, c)
    requires c.cache.tables == e.cache.tables
    ensures c.cache.pool.blockSize > 0 && Emitting(c, [], ahead) && ReservationsFit(c, room) && Work(c) == Work(e)
    ensures forall i :: 0 <= i < |c.running| ==> Fits(c.cache, c.running[i])
    ensures forall i :: 0 <= i < |c.waiting| ==> Servable(c, c.waiting[i])
  {
    hide Healthy, ReserveSum, CeilDiv;
    ReserveSame(c.running, r.running, r.cache.pool.blockSize, room);
    forall i | 0 <= i < |c.running| ensures Fits(c.cache, c.running[i]) {
      assert Servable(r, r.running[i]);
    }
    forall i | 0 <= i < |c.waiting| ensures Servable(c, c.waiting[i]) {
      assert Servable(r, r.waiting[i]);
    }
    forall i | 0 <= i < |c.running| && !c.running[i].state.Finished? ensures Due(c, c.running[i], [], ahead) {
      assert Due(e, e.running[i], [], ahead);
    }
  }

  ghost function Rounds(s: State, draws: seq<Draw>, eosIds: seq<TokenId>, room: nat, ahead: nat): (r: State)
    requires Reserved(s, room, ahead)
    ensures Reserved(r, room, ahead)
    decreases |draws|
  {
    if draws == [] then s
    else
      RoundMakesProgress(s, draws[0], eosIds, room, ahead);
      Rounds(NextRound(s, draws[0], eosIds), draws[1..], eosIds, room, ahead)
  }

  /** The work of a state is at most all its prompt and output tokens. */
  ghost function TokenTotal(list: seq<Sequence>): nat {
    if list == [] then 0 else TokenTotal(list[..|list| - 1]) + |list[|list| - 1].prompt| + list[|list| - 1].params.maxTokens
  }

  lemma {:induction false} WorkAtMostTokens(list: seq<Sequence>)
    ensures WorkSum(list) <= TokenTotal(list)
  {
    if list != [] {
      WorkAtMostTokens(list[..|list| - 1]);
    }
  }

  lemma {:induction false} RoundsDrain(s: State, draws: seq<Draw>, eosIds: seq<TokenId>, room: nat, ahead: nat)
    requires Reserved(s, room, ahead) && |draws| >= Work(s)
    ensures var r := Rounds(s, draws, eosIds, room, ahead); r.running == [] && r.waiting == []
    decreases |draws|
  {
    hide Reserved, Work;
    if s.running + s.waiting != [] {
      RequestsAreWork(s, room, ahead);
    }
    if draws != [] {
      RoundMakesProgress(s, draws[0], eosIds, room, ahead);
      if s.running + s.waiting == [] {
        EmptyStaysEmpty(s, draws, eosIds, room, ahead);
      } else {
        RoundsDrain(NextRound(s, draws[0], eosIds), draws[1..], eosIds, room, ahead);
      }
    }
  }

  lemma RequestsAreWork(s: State, room: nat, ahead: nat)
    requires Reserved(s, room, ahead) && s.running + s.waiting != []
    ensures Work(s) > 0
  {
    hide Consistent, Order;
    if s.running != [] {
      assert Servable(s, s.running[|s.running| - 1]);
    } else {
      assert Servable(s, s.waiting[|s.waiting| - 1]);
    }
  }

  lemma {:induction false} EmptyStaysEmpty(s: State, draws: seq<Draw>, eosIds: seq<TokenId>, room: nat, ahead: nat)
    requires Reserved(s, room, ahead) && s.running == [] && s.waiting == []
    ensures var r := Rounds(s, draws, eosIds, room, ahead); r.running == [] && r.waiting == []
    decreases |draws|
  {
    if draws != [] {
      hide Reserved;
      RoundMakesProgress(s, draws[0], eosIds, room, ahead);
      var next := NextRound(s, draws[0], eosIds);
      if next.running + next.waiting != [] {
        RequestsAreWork(next, room, ahead);
      }
      EmptyStaysEmpty(NextRound(s, draws[0], eosIds), draws[1..], eosIds, room, ahead);
    }
  }

  /**
   * Every request finishes when reservations fit: if the blocks that all live requests can
   * ever need add up to at most the pool, then rounds of schedule, tokens and retirement
   * never preempt, and drain everything within as many rounds as there are prompt and
   * output tokens, whatever tokens are drawn.
   */
  lemma EveryRequestFinishes(s: State, draws: seq<Draw>, eosIds: seq<TokenId>, room: nat, ahead: nat)
    requires Reserved(s, room, ahead) && |draws| >= TokenTotal(s.running) + TokenTotal(s.waiting)
    ensures var r := Rounds(s, draws, eosIds, room, ahead); r.running == [] && r.waiting == []
    ensures forall n :: 0 <= n <= |draws| ==>
              var t := Rounds(s, draws[..n], eosIds, room, ahead); t.cache.WellFormed() && Schedule(t).preempted == []
  {
    hide Reserved;
    WorkAtMostTokens(s.running);
    WorkAtMostTokens(s.waiting);
    RoundsDrain(s, draws, eosIds, room, ahead);
    forall n | 0 <= n <= |draws|
      ensures var t := Rounds(s, draws[..n], eosIds, room, ahead); t.cache.WellFormed() && Schedule(t).preempted == []
    {
      RoundMakesProgress(Rounds(s, draws[..n], eosIds, room, ahead), i => 0, eosIds, room, ahead);
    }
  }

  // ----- Reserved states arise by admission -----

  lemma NewStateReserved(config: Config, numBlocks: nat, blockSize: nat, prefixCaching: bool, room: nat, ahead: nat)
    requires RunsWell(config) && blockSize > 0 && ahead <= room
    ensures Reserved(NewState(config, NewManager(numBlocks, blockSize, prefixCaching)), room, ahead)
  {
    NewManagerConsistent(numBlocks, blockSize, prefixCaching);
    var s := NewState(config, NewManager(numBlocks, blockSize, prefixCaching));
    NotInAny(s.running);
    assert Order(s) == [];
  }

  /** Neither the queue nor the context length stands in the way of the request. */
  predicate WithinLimits(s: State, q: Sequence) {
    && |s.waiting| < s.config.maxWaiting
    && (s.config.maxModelLen.None? || |q.prompt| + q.params.maxTokens <= s.config.maxModelLen.value)
  }

  lemma FittingPromptIsAdmitted(s: State, q: Sequence)
    requires s.cache.WellFormed() && Fits(s.cache, q)
    ensures AddCheck(s, q) == None <==> WithinLimits(s, q)
  {
  }

  /**
   * A request whose own reservation still fits is admitted exactly when the queue and the
   * context length allow it, and the state stays reserved.
   */
  lemma AdmissionReserves(s: State, q: Sequence, room: nat, ahead: nat)
    requires Reserved(s, room, ahead) && Queued(q) && q.output == [] && q.params.maxTokens > 0 && |q.prompt| > 0
    requires forall i :: 0 <= i < |Order(s)| ==> Order(s)[i].id != q.id
    requires ReserveSum(s.running, s.cache.pool.blockSize, room) + ReserveSum(s.waiting, s.cache.pool.blockSize, room)
             + Reserve(q, s.cache.pool.blockSize, room) <= |s.cache.pool.blocks|
    ensures s.cache.WellFormed()
    ensures AddCheck(s, q) == None <==> WithinLimits(s, q)
    ensures Reserved(Added(s, q), room, ahead)
    ensures WithinLimits(s, q) ==> Added(s, q).waiting == s.waiting + [q]
  {
    hide Consistent, CeilDiv, AddCheck, Order, Healthy, Fits, ReserveSum, Reserve;
    HealthyIsWellFormed(s);
    var size, after := s.cache.pool.blockSize, Added(s, q);
    ReservePush(s.waiting, q, size, room);
    PromptFits(s, q, room);
    FittingPromptIsAdmitted(s, q);
    NewToOrder(s, q.id);
    AddHealthy(s, q);
    assert forall i :: 0 <= i < |s.waiting| ==> (s.waiting + [q])[i] == s.waiting[i];
    AllServableFits(after);
  }

  lemma NewToOrder(s: State, id: SequenceId)
    requires forall i :: 0 <= i < |Order(s)| ==> Order(s)[i].id != id
    ensures id !in Ids(Order(s))
  {
  }

  lemma PromptFits(s: State, q: Sequence, room: nat)
    requires s.cache.pool.blockSize > 0 && |q.prompt| > 0
    requires Reserve(q, s.cache.pool.blockSize, room) <= |s.cache.pool.blocks|
    ensures Fits(s.cache, q)
  {
    ReserveCoversPrompt(q, s.cache.pool.blockSize, room);
  }
}
