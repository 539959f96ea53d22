// Passes over small states, step by step: what concrete runs are evaluated with.
module SmallPasses {
  import opened Prelude
  import opened Arithmetic
  import opened KvCache
  import opened KvConservation
  import opened Sequences
  import opened Scheduling
  import NoStall

  // ----- The admission loop -----

  /** The head's prompt has blocks, and it is allocated. */
  predicate Admissible(s: State)
    requires s.cache.WellFormed()
  {
    && s.waiting != []
    && CanAllocate(s.cache, |s.waiting[0].prompt|)
    && Allocated(s.cache, s.waiting[0].id, s.waiting[0].prompt).1.Ok?
  }

  predicate RoomFor(p: Pass, budget: nat) {
    && p.s.config.chunkedPrefill && |p.s.running| < p.s.config.maxNumSeqs && p.used < budget
    && p.s.waiting != [] && p.s.waiting[0].computed == 0 && |p.s.waiting[0].prompt| > 0
  }

  function AdmittedFirst(p: Pass, budget: nat): (r: Pass)
    requires p.s.cache.WellFormed() && RoomFor(p, budget)
    ensures r.s.cache.WellFormed()
  {
    var q := p.s.waiting[0];
    AllocatedWellFormed(p.s.cache, q.id, q.prompt);
    AdmitHead(p, Allocated(p.s.cache, q.id, q.prompt).0, Min(|q.prompt|, budget - p.used))
  }

  lemma AdmitsHead(p: Pass, budget: nat)
    requires p.s.cache.WellFormed() && RoomFor(p, budget) && Admissible(p.s)
    ensures Admit(p, budget) == Admit(AdmittedFirst(p, budget), budget)
  {
    hide Allocated, CeilDiv;
    assert AdmitRound(p, budget) == Again(AdmittedFirst(p, budget));
  }

  lemma AdmitEvicts(p: Pass, budget: nat)
    requires p.s.cache.WellFormed() && RoomFor(p, budget) && p.s.running != []
    requires !CanAllocate(p.s.cache, |p.s.waiting[0].prompt|)
    ensures PreemptOne(p).Some? && PreemptOne(p).value.s.cache.WellFormed()
    ensures Admit(p, budget) == Admit(PreemptOne(p).value, budget)
  {
    hide Allocated, Freed, CeilDiv;
    PreemptOneWellFormed(p);
    assert AdmitRound(p, budget) == Again(PreemptOne(p).value);
  }

  lemma AdmitEnds(p: Pass, budget: nat)
    requires p.s.cache.WellFormed()
    requires || |p.s.running| >= p.s.config.maxNumSeqs || p.used >= budget || p.s.waiting == []
             || p.s.waiting[0].RemainingPrefill() == 0
    ensures Admit(p, budget) == p
  {
  }

  // ----- Decodes and resumed prefills of few sequences -----

  lemma OneDecode(s: State, q: Sequence)
    requires s.cache.WellFormed() && s.running == [q] && q.state.Decoding? && s.config.maxBatchedTokens > 0
    requires Appended(s.cache, q.id).1.None?
    ensures DecodePass(StartPass(s), s.config.maxBatchedTokens)
            == Pass(s.(cache := Appended(s.cache, q.id).0), [Scheduled(q.id, 1, q.TotalLen(), false)], [], 1)
    ensures PartialCandidates(s.running) == []
  {
    hide Appended;
    AppendedWellFormed(s.cache, q.id);
    assert s.running[..0] == [];
    assert DecodeCandidates([]) == [] && PartialCandidates([]) == [];
    var candidates := DecodeCandidates(s.running);
    assert candidates == [(q.id, q.TotalLen())];
    var p, budget := StartPass(s), s.config.maxBatchedTokens;
    var next := TryAppend(p, q.id, q.TotalLen()).0;
    assert DecodeOne(p, q.id, q.TotalLen()) == (next, true);
    assert candidates[1..] == [];
    assert Decodes(next, [], budget) == next;
  }

  lemma {:induction false} NoCandidates(list: seq<Sequence>)
    requires forall i :: 0 <= i < |list| ==> list[i].state.Finished?
    ensures DecodeCandidates(list) == [] && PartialCandidates(list) == []
  {
    if list != [] {
      NoCandidates(list[..|list| - 1]);
    }
  }

  /** With decodes first and only finished sequences running, the pass is its admission loop. */
  lemma OnlyAdmission(s: State)
    requires s.cache.WellFormed() && s.config.prioritizeDecode
    requires forall i :: 0 <= i < |s.running| ==> s.running[i].state.Finished?
    ensures Schedule(s) == Admit(StartPass(s), s.config.maxBatchedTokens)
  {
    hide Admit;
    NoCandidates(s.running);
  }

  lemma NothingCached(m: Manager, prompt: seq<TokenId>, b: BlockId)
    requires m.pool.blockSize > 0 && m.entries == map[]
    ensures !CachedAt(m.entries, prompt, 0, m.pool.blockSize, b)
  {
    hide BlockDigest;
  }

  /** A cache with nothing published yet gives a prompt only new blocks. */
  lemma FreshAllocation(m: Manager, s: SequenceId, prompt: seq<TokenId>)
    requires Consistent(m) && m.entries == map[] && s !in m.tables
    requires CeilDiv(|prompt|, m.pool.blockSize) <= |m.pool.freeList|
    ensures var (after, r) := Allocated(m, s, prompt);
            && r.Ok? && Consistent(after) && after.tables == m.tables[s := after.tables[s]]
            && after.tables[s].numTokens == |prompt|
            && |after.pool.freeList| == |m.pool.freeList| - CeilDiv(|prompt|, m.pool.blockSize)
            && |after.pool.blocks| == |m.pool.blocks| && after.pool.blockSize == m.pool.blockSize
  {
    hide Allocated, Consistent, FreshTail, CeilDiv, CachedAt;
    NoStall.ConsistentIsWellFormed(m);
    AllocationIsExact(m, s, prompt);
    var (after, r) := Allocated(m, s, prompt);
    var table := after.tables[s].blocks;
    if r.value.reused > 0 {
      NothingCached(m, prompt, table[0]);
      assert false;
    }
    assert Revived(m, table, 0) == {};
  }
}
