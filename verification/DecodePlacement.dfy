// A run in which a re-admitted request decodes at a position without a slot.
module DecodePlacement {
  import opened Prelude
  import opened Arithmetic
  import opened KvCache
  import opened KvConservation
  import opened Sequences
  import opened Scheduling
  import opened SchedulerInvariant
  import opened SchedulerRuns
  import opened SchedulerCacheRuns
  import opened BatchBuilding
  import opened SmallPasses
  import Drain
  import NoStall
  import opened Attention
  import opened Transformer
  import opened BatchAcceptance

  const PAIR := Config(2, 2, None, true, 2, true)
  const PARAMS := PlainParams(8)
  const FIRST := NewSequence(0, [0], PARAMS)
  const SECOND := NewSequence(1, [0, 0, 0], PARAMS)

  /** The first request, decoding after some output. */
  function FirstWith(output: seq<TokenId>): Sequence {
    FIRST.(computed := 1, state := Decoding, output := output)
  }

  /** It runs alone in a pool of three blocks of two tokens. */
  ghost predicate Alone(s: State, output: seq<TokenId>, waiting: seq<Sequence>, backed: nat, free: nat) {
    && s.config == PAIR && s.running == [FirstWith(output)] && s.waiting == waiting
    && Consistent(s.cache) && |s.cache.pool.blocks| == 3 && s.cache.pool.blockSize == 2
    && s.cache.tables.Keys == {0} && s.cache.tables[0].numTokens == backed && |s.cache.pool.freeList| == free
  }

  ghost function Run(ops: seq<Op>): (v: Life)
    ensures v.s.cache.WellFormed()
  {
    NewLifeAgrees(PAIR, 3, 2, false);
    RunLife(NewLife(PAIR, 3, 2, false), ops)
  }

  lemma RunPush(ops: seq<Op>, op: Op)
    ensures Run(ops + [op]) == StepLife(Run(ops), op)
  {
    hide StepLife, RunLife;
    NewLifeAgrees(PAIR, 3, 2, false);
    RunLifePush(NewLife(PAIR, 3, 2, false), ops, op);
  }

  /** The request is admitted with its whole prompt. */
  lemma FirstIsAdmitted(s: State)
    requires Consistent(s.cache) && s.cache.WellFormed() && s.cache.tables == map[] && s.cache.entries == map[]
    requires |s.cache.pool.blocks| == 3 == |s.cache.pool.freeList| && s.cache.pool.blockSize == 2
    requires s.config == PAIR && s.running == [] && s.waiting == [FIRST]
    ensures Alone(Schedule(s).s, [], [], 1, 2)
  {
    hide Consistent, Schedule, Admit, Allocated;
    assert CeilDiv(1, 2) == 1;
    FreshAllocation(s.cache, 0, [0]);
    OnlyAdmission(s);
    var p := StartPass(s);
    AdmitsHead(p, 2);
    AdmitEnds(AdmittedFirst(p, 2), 2);
  }

  lemma Starts()
    ensures var v := Run([OpAdd(FIRST), OpSchedule]); Alone(v.s, [], [], 1, 2) && v.seen == {0}
  {
    hide Consistent, StepLife, Schedule;
    var v := NewLife(PAIR, 3, 2, false);
    NewManagerConsistent(3, 2, false);
    NewLifeAgrees(PAIR, 3, 2, false);
    FirstArrives(v);
    var u := StepLife(v, OpAdd(FIRST));
    FirstIsAdmitted(u.s);
    RunLifeTwo(v, OpAdd(FIRST), OpSchedule);
    SchedulesLife(u);
  }

  lemma FirstArrives(v: Life)
    requires v == NewLife(PAIR, 3, 2, false) && v.s.cache.WellFormed()
    ensures StepLife(v, OpAdd(FIRST)) == Life(v.s.(waiting := [FIRST]), {0})
  {
    assert CeilDiv(1, 2) == 1;
  }

  lemma SchedulesLife(v: Life)
    requires v.s.cache.WellFormed()
    ensures StepLife(v, OpSchedule) == v.(s := Schedule(v.s).s)
  {
  }

  lemma Samples(s: State, output: seq<TokenId>, backed: nat, free: nat)
    requires Alone(s, output, [], backed, free) && |output| < 7
    ensures Alone(Tokened(s, 0, 0, []).0, output + [0], [], backed, free)
  {
    hide Consistent;
    assert WithToken(FirstWith(output), 0, []).0 == FirstWith(output + [0]);
  }

  /** A pass over the lone request appends one token to its table. */
  lemma DecodesOnce(s: State, output: seq<TokenId>, backed: nat, free: nat)
    requires s.cache.WellFormed() && Alone(s, output, [], backed, free) && (backed % 2 != 0 || free > 0)
    ensures Alone(Schedule(s).s, output, [], backed + 1, if backed % 2 == 0 then free - 1 else free)
  {
    hide Consistent, Appended, Partials, Admit;
    var q := FirstWith(output);
    AppendingIsExact(s.cache, 0);
    OneDecode(s, q);
    var p := DecodePass(StartPass(s), 2);
    assert Partials(p, [], 2) == p by { PartialsOfNothing(p, 2); }
    AdmitEnds(p, 2);
  }

  lemma PartialsOfNothing(p: Pass, budget: nat)
    ensures Partials(p, [], budget) == p
  {
  }

  lemma Arrives(v: Life, output: seq<TokenId>, backed: nat, free: nat)
    requires v.s.cache.WellFormed() && Alone(v.s, output, [], backed, free) && v.seen == {0}
    ensures Alone(StepLife(v, OpAdd(SECOND)).s, output, [SECOND], backed, free)
  {
    hide Consistent;
    assert CeilDiv(3, 2) == 2;
  }

  /** The pass after its decode: the newcomer needs two blocks and one is free. */
  ghost predicate Crowded(p: Pass) {
    && p.s.config == PAIR && p.s.running == [FirstWith([0, 0])] && p.s.waiting == [SECOND]
    && Consistent(p.s.cache) && |p.s.cache.pool.blocks| == 3 && p.s.cache.pool.blockSize == 2
    && p.s.cache.tables.Keys == {0} && |p.s.cache.pool.freeList| == 1 && p.used == 1
  }

  lemma Crowds(s: State)
    requires s.cache.WellFormed() && Alone(s, [0, 0], [SECOND], 3, 1)
    ensures var p := DecodePass(StartPass(s), 2);
            Crowded(p) && p.scheduled == [Scheduled(0, 1, 3, false)] && Schedule(s) == Admit(p, 2)
  {
    hide Consistent, Appended, Partials, Admit;
    AppendingIsExact(s.cache, 0);
    OneDecode(s, FirstWith([0, 0]));
    var p := DecodePass(StartPass(s), 2);
    assert Partials(p, [], 2) == p by { PartialsOfNothing(p, 2); }
  }

  /** The decoding request is evicted, and all blocks are free. */
  lemma Evicts(p: Pass)
    requires p.s.cache.WellFormed() && Crowded(p)
    ensures PreemptOne(p).Some?
    ensures var e := PreemptOne(p).value;
            && e.s.cache.WellFormed() && Admit(p, 2) == Admit(e, 2)
            && e.s.config == PAIR && e.s.running == [] && e.s.waiting == [FirstWith([0, 0]).Preempt(), SECOND]
            && Consistent(e.s.cache) && e.s.cache.pool.blockSize == 2
            && e.s.cache.tables == map[] && |e.s.cache.pool.freeList| == 3
            && e.used == 1 && e.scheduled == p.scheduled
  {
    hide Consistent, Admit, Freed;
    assert CeilDiv(3, 2) == 2;
    AdmitEvicts(p, 2);
    FreeingConserves(p.s.cache, 0);
    assert PreemptOne(p).value.s.cache.tables == map[];
    NoTablesAllFree(PreemptOne(p).value.s.cache);
  }

  /** Being first in the queue, it is re-admitted in the same pass, with a table for its prompt. */
  lemma Readmits(s: State)
    requires s.cache.WellFormed() && Alone(s, [0, 0], [SECOND], 3, 1)
    ensures var r := Schedule(s);
            && r.s.running == [FirstWith([0, 0])]
            && Consistent(r.s.cache) && r.s.cache.pool.blockSize == 2
            && 0 in r.s.cache.tables && r.s.cache.tables[0].numTokens == 1
            && r.scheduled == [Scheduled(0, 1, 3, false), Scheduled(0, 1, 0, true)]
  {
    hide Consistent, Admit, Allocated, Alone, Crowded, Schedule;
    Crowds(s);
    var p := DecodePass(StartPass(s), 2);
    Evicts(p);
    var e := PreemptOne(p).value;
    hide DecodePass, PreemptOne;
    assert CeilDiv(1, 2) == 1;
    AllocationIsExact(e.s.cache, 0, [0]);
    AllocationKeys(e.s.cache, 0, [0]);
    Drain.AllocationTables(e.s.cache, 0, [0]);
    AdmitsHead(e, 2);
    AdmitEnds(AdmittedFirst(e, 2), 2);
  }

  /** One request generates two tokens, its second step failing past scheduling; then another arrives. */
  const HISTORY: seq<Op> := [
    OpAdd(FIRST), OpSchedule, OpToken(0, 0, []), OpSchedule, OpSchedule, OpToken(0, 0, []), OpAdd(SECOND), OpSchedule]

  lemma HistoryStep(k: nat)
    requires k < |HISTORY|
    ensures Run(HISTORY[..k + 1]) == StepLife(Run(HISTORY[..k]), HISTORY[k])
  {
    hide StepLife, Run;
    assert HISTORY[..k + 1] == HISTORY[..k] + [HISTORY[k]];
    RunPush(HISTORY[..k], HISTORY[k]);
  }

  /** Up to the newcomer's arrival the request fills two blocks. */
  lemma HistoryGrows()
    ensures Alone(Run(HISTORY[..6]).s, [0, 0], [], 3, 1) && Run(HISTORY[..6]).seen == {0}
  {
    hide Alone, Run, Tokened, Schedule;
    Starts();
    assert HISTORY[..2] == [OpAdd(FIRST), OpSchedule];
    HistoryStep(2);
    Samples(Run(HISTORY[..2]).s, [], 1, 2);
    assert [] + [0] == [0] && [0] + [0] == [0, 0];
    HistoryStep(3);
    DecodesOnce(Run(HISTORY[..3]).s, [0], 1, 2);
    HistoryStep(4);
    DecodesOnce(Run(HISTORY[..4]).s, [0], 2, 2);
    HistoryStep(5);
    Samples(Run(HISTORY[..5]).s, [0], 3, 1);
  }

  /**
   * A decode scheduled before its sequence is evicted and re-admitted in the same pass: it
   * found a slot, but the table that reaches the model is the new one, and no model runs it.
   */
  lemma EvictedDecodeMissesItsSlot(m: Model)
    ensures var s := Run(HISTORY[..7]).s;
            && s.cache.WellFormed()
            && var r := Schedule(s);
               && r.scheduled == [Scheduled(0, 1, 3, false), Scheduled(0, 1, 0, true)]
               && HasTable(r.s, r.scheduled[0]) && !EntryRuns(r.s, m, r.scheduled[0])
  {
    hide Run, Alone, Consistent, Schedule;
    HistoryGrows();
    HistoryStep(6);
    Arrives(Run(HISTORY[..6]), [0, 0], 3, 1);
    Readmits(Run(HISTORY[..7]).s);
    var r := Schedule(Run(HISTORY[..7]).s);
    NoStall.ConsistentIsWellFormed(r.s.cache);
    assert |r.s.cache.tables[0].blocks| == CeilDiv(1, 2) == 1;
  }

  /**
   * A reachable input at which the slot is missing though the total length fills no block:
   * the re-admitted request has generated two tokens, its table backs its prompt of one, and
   * its decode is scheduled at position 3 of a table of one block of two.
   */
  lemma ReadmittedDecodeMissesItsSlot()
    ensures var s, q := Run(HISTORY).s, FirstWith([0, 0]);
            && s.cache.WellFormed() && s.running == [q] && DecodeCandidates(s.running) == [(0, q.TotalLen())]
            && q.TotalLen() == 3 && s.cache.pool.blockSize == 2
            && 0 in s.cache.tables && s.cache.tables[0].numTokens == |q.prompt|
            && var (p, ok) := TryAppend(StartPass(s), 0, 3);
               ok && 0 in p.s.cache.tables && Locate(p.s.cache.tables[0].blocks, 3, 2) == None
  {
    hide Run, Alone, Consistent, Schedule, Appended;
    HistoryGrows();
    HistoryStep(6);
    Arrives(Run(HISTORY[..6]), [0, 0], 3, 1);
    HistoryStep(7);
    Readmits(Run(HISTORY[..7]).s);
    assert HISTORY[..8] == HISTORY;
    var s := Run(HISTORY).s;
    assert s.running[..0] == [] && DecodeCandidates([]) == [];
    AppendingIsExact(s.cache, 0);
    assert CeilDiv(2, 2) == 1;
    DecodeMayMissItsSlot(StartPass(s), FirstWith([0, 0]));
  }
}
