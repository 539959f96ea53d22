// Exactly when a step's batch can be built and the model accepts it.
module BatchAcceptance {
  import opened Prelude
  import opened Arithmetic
  import opened BlockPools
  import opened PoolInvariant
  import opened PrefixIndex
  import opened KvCache
  import opened KvConservation
  import opened Sequences
  import opened Scheduling
  import opened SchedulerOrder
  import opened SchedulerInvariant
  import opened EngineSteps
  import opened BatchBuilding
  import opened SchedulerRuns
  import opened SchedulerCacheRuns
  import NoStall
  import StreamProtocol
  import EngineRuns
  import opened KvStores
  import opened Transformer
  import P = PrefixSoundness

  // ----- The flat batch -----

  /** The rows laid end to end, each token with its position. */
  function Flat(rows: seq<BatchRow>): Batch {
    if rows == [] then Batch([], [], [], [], [], [])
    else
      var front, row := Flat(rows[..|rows| - 1]), rows[|rows| - 1];
      Batch(front.tokens + row.tokens,
            front.positions + seq(|row.tokens|, j requires 0 <= j < |row.tokens| => row.startPosition + j),
            front.ids + [row.id], front.counts + [|row.tokens|],
            front.contextLens + [row.contextLen], front.tables + [row.table])
  }

  function RowItems(row: BatchRow): seq<Item> {
    seq(|row.tokens|, j requires 0 <= j < |row.tokens| => Item(row.tokens[j], row.startPosition + j, row.table))
  }

  function AllItems(rows: seq<BatchRow>): seq<Item> {
    if rows == [] then [] else AllItems(rows[..|rows| - 1]) + RowItems(rows[|rows| - 1])
  }

  lemma FlatItems(front: Batch, b: Batch, row: BatchRow)
    requires Aligned(front) && Aligned(b)
    requires b.tokens == front.tokens + row.tokens && b.tables == front.tables + [row.table]
    requires b.positions == front.positions + seq(|row.tokens|, j requires 0 <= j < |row.tokens| => row.startPosition + j)
    requires Owners(b.counts) == Owners(front.counts) + seq(|row.tokens|, _ => |front.ids|)
    ensures Items(b) == Items(front) + RowItems(row)
  {
    hide Owners, Total;
    var n := |front.tokens|;
    assert |Owners(front.counts)| == n;
    forall r | 0 <= r < |b.tokens| ensures Items(b)[r] == (Items(front) + RowItems(row))[r] {
      if r < n {
        assert Owners(b.counts)[r] == Owners(front.counts)[r] < |front.counts|;
      } else {
        assert Owners(b.counts)[r] == |front.ids|;
      }
    }
  }

  lemma {:induction false} FlatIsAligned(rows: seq<BatchRow>)
    ensures Aligned(Flat(rows)) && |Flat(rows).ids| == |rows|
    ensures Items(Flat(rows)) == AllItems(rows)
    ensures forall i :: 0 <= i < |rows| ==> Flat(rows).counts[i] == |rows[i].tokens|
  {
    if rows != [] {
      var n := |rows| - 1;
      FlatIsAligned(rows[..n]);
      var b, front, row := Flat(rows), Flat(rows[..n]), rows[n];
      assert b.counts[..n] == front.counts;
      assert Owners(b.counts) == Owners(front.counts) + seq(|row.tokens|, _ => n);
      FlatItems(front, b, row);
    }
  }

  // ----- What the model accepts -----

  /** Tokens of the vocabulary, at positions with rotary entries, in blocks that the table and the arena have. */
  predicate RowAccepted(m: Model, d: Dims, row: BatchRow)
    requires d.blockSize > 0
  {
    var end := row.startPosition + |row.tokens|;
    && (forall j :: 0 <= j < |row.tokens| ==> row.tokens[j] < |m.embed.rows|)
    && end <= |m.cos|
    && TableReaches(d, row.table, end)
  }

  /** A position is in the first `n` blocks' worth of tokens exactly when its block is. */
  lemma BlockBelow(p: nat, end: nat, size: nat)
    requires size > 0 && p < end
    ensures p / size < CeilDiv(end, size)
  {
    CeilMonotone(p + 1, end, size);
    CeilSuccessor(p, size);
  }

  lemma BlockHasPosition(i: nat, end: nat, size: nat)
    requires size > 0 && i < CeilDiv(end, size)
    ensures i * size < end && (i * size) / size == i
  {
    MulDivExact(i, size);
    if end <= i * size {
      CeilMonotone(end, i * size, size);
      CeilSuccessor(i * size, size);
    }
  }

  /** The table covers `end` tokens with blocks that the arena has. */
  predicate TableReaches(d: Dims, table: seq<BlockId>, end: nat)
    requires d.blockSize > 0
  {
    && end <= |table| * d.blockSize
    && forall i :: 0 <= i < CeilDiv(end, d.blockSize) && i < |table| ==> table[i] < d.blocks
  }

  lemma ReachedIsCovered(d: Dims, table: seq<BlockId>, end: nat)
    requires d.blockSize > 0 && forall p: nat :: p < end ==> Reaches(d, table, p)
    ensures TableReaches(d, table, end)
  {
    hide CeilDiv;
    if end > 0 {
      assert Reaches(d, table, end - 1);
      LocateIsBounded(table, end - 1, d.blockSize);
    }
    forall i | 0 <= i < CeilDiv(end, d.blockSize) && i < |table| ensures table[i] < d.blocks {
      BlockHasPosition(i, end, d.blockSize);
      assert Reaches(d, table, i * d.blockSize);
    }
  }

  lemma CoveredIsReached(d: Dims, table: seq<BlockId>, end: nat, p: nat)
    requires d.blockSize > 0 && TableReaches(d, table, end) && p < end
    ensures Reaches(d, table, p)
  {
    hide CeilDiv;
    LocateIsBounded(table, p, d.blockSize);
    BlockBelow(p, end, d.blockSize);
  }

  lemma RowItemsReady(m: Model, d: Dims, row: BatchRow)
    requires d.blockSize > 0 && row.tokens != []
    ensures BatchReady(m, d, RowItems(row)) <==> RowAccepted(m, d, row)
  {
    hide Reaches, TableReaches;
    var n, items := |row.tokens|, RowItems(row);
    var end := row.startPosition + n;
    if TableReaches(d, row.table, end) {
      forall p: nat | p < end ensures Reaches(d, row.table, p) {
        CoveredIsReached(d, row.table, end, p);
      }
    }
    if BatchReady(m, d, items) {
      assert ItemReady(m, d, items[n - 1]);
      ReachedIsCovered(d, row.table, end);
      forall j | 0 <= j < n ensures row.tokens[j] < |m.embed.rows| {
        assert ItemReady(m, d, items[j]);
      }
    }
  }

  lemma ReadyConcat(m: Model, d: Dims, a: seq<Item>, b: seq<Item>)
    requires d.blockSize > 0
    ensures BatchReady(m, d, a + b) <==> BatchReady(m, d, a) && BatchReady(m, d, b)
  {
    hide ItemReady;
    if BatchReady(m, d, a + b) {
      assert forall r :: 0 <= r < |a| ==> (a + b)[r] == a[r];
      assert forall r :: 0 <= r < |b| ==> (a + b)[|a| + r] == b[r];
    }
  }

  lemma {:induction false} AllItemsReady(m: Model, d: Dims, rows: seq<BatchRow>)
    requires d.blockSize > 0 && forall r :: 0 <= r < |rows| ==> rows[r].tokens != []
    ensures BatchReady(m, d, AllItems(rows)) <==> forall r :: 0 <= r < |rows| ==> RowAccepted(m, d, rows[r])
  {
    hide RowAccepted, ItemReady;
    if rows != [] {
      var n := |rows| - 1;
      AllItemsReady(m, d, rows[..n]);
      RowItemsReady(m, d, rows[n]);
      ReadyConcat(m, d, AllItems(rows[..n]), RowItems(rows[n]));
      assert forall r :: 0 <= r < n ==> rows[..n][r] == rows[r];
    }
  }

  /** The forward pass accepts a batch exactly when it accepts every row. */
  lemma ForwardAcceptsExactly(m: Model, d: Dims, rows: seq<BatchRow>)
    requires d.blockSize > 0 && forall r :: 0 <= r < |rows| ==> rows[r].tokens != []
    ensures Runs(m, d, Flat(rows)) <==> forall r :: 0 <= r < |rows| ==> RowAccepted(m, d, rows[r])
  {
    hide RowAccepted, BatchReady, Flat, AllItems, Aligned, Items;
    FlatIsAligned(rows);
    AllItemsReady(m, d, rows);
    if rows == [] {
      NothingFlat(rows);
    } else {
      NotAllEmpty(rows);
    }
  }

  lemma NothingFlat(rows: seq<BatchRow>)
    requires rows == []
    ensures Flat(rows).tokens == []
  {
  }

  lemma NotAllEmpty(rows: seq<BatchRow>)
    requires rows != [] && rows[|rows| - 1].tokens != []
    ensures Flat(rows).tokens != []
  {
  }

  // ----- The batch of a pass -----

  /** The tokens an entry brings for its sequence. */
  function EntryTokens(q: Sequence, e: Scheduled): seq<TokenId> {
    if e.isPrefill then
      if e.startPosition > |q.prompt| then []
      else q.prompt[e.startPosition..Min(e.startPosition + e.numTokens, |q.prompt|)]
    else if q.output != [] then [q.output[|q.output| - 1]]
    else if q.prompt != [] then [q.prompt[|q.prompt| - 1]]
    else []
  }

  /** An entry whose sequence left since makes no row; otherwise the sequence must have its table. */
  predicate EntryBuilds(s: State, e: Scheduled) {
    var pos := Position(s.running, e.id);
    pos < |s.running| ==>
      e.id in s.cache.tables && (e.isPrefill ==> e.startPosition <= |s.running[pos].prompt|)
  }

  /** A resident sequence is scheduled with its table. */
  predicate HasTable(s: State, e: Scheduled) {
    Position(s.running, e.id) < |s.running| ==> e.id in s.cache.tables
  }

  /** The tokens are in the vocabulary and within the rotary tables, and a decode is within the block table. */
  predicate EntryRuns(s: State, m: Model, e: Scheduled) {
    var pos := Position(s.running, e.id);
    pos < |s.running| ==>
      var tokens := EntryTokens(s.running[pos], e);
      tokens != [] ==>
        && e.id in s.cache.tables
        && (forall j :: 0 <= j < |tokens| ==> tokens[j] < |m.embed.rows|)
        && e.startPosition + |tokens| <= |m.cos|
        && (e.isPrefill || e.startPosition < |s.cache.tables[e.id].blocks| * s.cache.pool.blockSize)
  }

  lemma {:induction false} BatchBuildsExactly(s: State, batch: seq<Scheduled>)
    ensures BuildBatch(s, batch).Some? <==> forall k :: 0 <= k < |batch| ==> EntryBuilds(s, batch[k])
    ensures BuildBatch(s, batch).Some? ==>
              forall r :: 0 <= r < |BuildBatch(s, batch).value| ==> BuildBatch(s, batch).value[r].tokens != []
  {
    hide Position;
    if batch != [] {
      var n := |batch| - 1;
      BatchBuildsExactly(s, batch[..n]);
      assert forall k :: 0 <= k < n ==> batch[..n][k] == batch[k];
    }
  }

  /** The blocks of every table exist, and back at least the prompt. */
  ghost predicate TablesCover(s: State) {
    && s.cache.pool.blockSize > 0
    && (forall id, i :: id in s.cache.tables && 0 <= i < |s.cache.tables[id].blocks| ==>
          s.cache.tables[id].blocks[i] < |s.cache.pool.blocks|)
    && (forall i :: 0 <= i < |s.running| && s.running[i].id in s.cache.tables ==>
          |s.running[i].prompt| <= |s.cache.tables[s.running[i].id].blocks| * s.cache.pool.blockSize)
  }

  predicate SameBlocks(s: State, d: Dims) {
    d.blockSize == s.cache.pool.blockSize > 0 && d.blocks == |s.cache.pool.blocks|
  }

  lemma EntryRunsExactly(s: State, m: Model, d: Dims, e: Scheduled)
    requires TablesCover(s) && SameBlocks(s, d) && EntryBuilds(s, e) && (e.isPrefill || e.numTokens == 1)
    ensures EntryRuns(s, m, e) <==> (RowFor(s, e).Run? ==> RowAccepted(m, d, RowFor(s, e).row))
  {
    hide CeilDiv;
    var pos := Position(s.running, e.id);
    if pos < |s.running| {
      var q := s.running[pos];
      var tokens := EntryTokens(q, e);
      if tokens != [] {
        var row := RowFor(s, e).row;
        assert row == BatchRow(e.id, tokens, e.startPosition, e.startPosition + |tokens|, s.cache.tables[e.id].blocks);
        assert |q.prompt| <= |row.table| * d.blockSize;
      }
    }
  }

  lemma AcceptedPush(m: Model, d: Dims, rows: seq<BatchRow>, row: BatchRow)
    requires d.blockSize > 0
    ensures (forall r :: 0 <= r < |rows + [row]| ==> RowAccepted(m, d, (rows + [row])[r]))
            <==> (forall r :: 0 <= r < |rows| ==> RowAccepted(m, d, rows[r])) && RowAccepted(m, d, row)
  {
    hide RowAccepted;
    assert (rows + [row])[|rows|] == row;
    assert forall r :: 0 <= r < |rows| ==> (rows + [row])[r] == rows[r];
  }

  lemma {:induction false} BatchRunsExactly(s: State, m: Model, d: Dims, batch: seq<Scheduled>)
    requires TablesCover(s) && SameBlocks(s, d) && BuildBatch(s, batch).Some?
    requires forall k :: 0 <= k < |batch| ==> EntryBuilds(s, batch[k]) && (batch[k].isPrefill || batch[k].numTokens == 1)
    ensures (forall k :: 0 <= k < |batch| ==> EntryRuns(s, m, batch[k]))
            <==> forall r :: 0 <= r < |BuildBatch(s, batch).value| ==> RowAccepted(m, d, BuildBatch(s, batch).value[r])
  {
    hide TablesCover, EntryBuilds, EntryRuns, RowFor, RowAccepted;
    if batch != [] {
      var n := |batch| - 1;
      assert forall k :: 0 <= k < n ==> batch[..n][k] == batch[k];
      BatchRunsExactly(s, m, d, batch[..n]);
      EntryRunsExactly(s, m, d, batch[n]);
      var rows, all := BuildBatch(s, batch[..n]).value, BuildBatch(s, batch).value;
      assert forall r :: 0 <= r < |rows| ==> all[r] == rows[r];
      if RowFor(s, batch[n]).Run? {
        AcceptedPush(m, d, rows, RowFor(s, batch[n]).row);
      } else {
        assert all == rows;
      }
    }
  }

  // ----- Every pass of every run -----

  lemma AgreesCovers(h: P.History, s: State)
    requires Agrees(h, s)
    ensures TablesCover(s)
  {
    hide Conserves, NoDuplicates, Order, P.OriginsKnown, P.Indexed, CeilDiv, AllRefs;
    forall id, i | id in s.cache.tables && 0 <= i < |s.cache.tables[id].blocks|
      ensures s.cache.tables[id].blocks[i] < |s.cache.pool.blocks|
    {
      assert P.BlockHashed(s.cache.pool, s.cache.pool.blockSize, h.prompts[id], s.cache.tables[id].blocks[i], i);
    }
    forall i | 0 <= i < |s.running| && s.running[i].id in s.cache.tables
      ensures |s.running[i].prompt| <= |s.cache.tables[s.running[i].id].blocks| * s.cache.pool.blockSize
    {
      RunningInOrder(s, i);
      CeilReaches(s.cache.tables[s.running[i].id].numTokens, s.cache.pool.blockSize);
    }
  }

  /** Entries fit their prompts, so only a missing table stops the batch. */
  lemma FitBuilds(s: State, batch: seq<Scheduled>, k: nat)
    requires EntriesFit(Order(s), batch) && k < |batch|
    ensures EntryBuilds(s, batch[k]) <==> HasTable(s, batch[k])
  {
    hide Order, EntryFits;
    var pos := Position(s.running, batch[k].id);
    if pos < |s.running| {
      EntryInPrompt(s, pos, batch[k]);
    }
  }

  /** The batch is built exactly when no table is missing, and accepted exactly when every entry runs. */
  ghost predicate RunsExactly(p: Pass, m: Model, d: Dims)
    requires d.blockSize > 0
  {
    && (BuildBatch(p.s, p.scheduled).Some? <==> forall k :: 0 <= k < |p.scheduled| ==> HasTable(p.s, p.scheduled[k]))
    && (BuildBatch(p.s, p.scheduled).Some? ==>
          (Runs(m, d, Flat(BuildBatch(p.s, p.scheduled).value))
           <==> forall k :: 0 <= k < |p.scheduled| ==> EntryRuns(p.s, m, p.scheduled[k])))
  }

  /**
   * Exactly when a pass gives a batch that can be built, and exactly when the model accepts
   * it: every resident sequence scheduled has its table; and its tokens are in the
   * vocabulary, within the rotary tables and, for a decode, within its blocks. Prefill
   * chunks are always within their blocks.
   */
  lemma PassRunsExactly(h: P.History, s: State, m: Model, d: Dims)
    requires Agrees(h, s) && s.cache.WellFormed() && P.Tracked(h) && SameBlocks(Schedule(s).s, d)
    ensures RunsExactly(Schedule(s), m, d)
  {
    hide Agrees, Schedule, P.Tracked, P.Run, EntryBuilds, HasTable, EntryRuns, TablesCover, RowAccepted, Runs, BuildBatch, EntryFits, Order;
    var p := Schedule(s);
    ScheduleFollows(h, s);
    AgreesCovers(P.Run(h, ScheduleOps(s)), p.s);
    AgreesDistinct(h, s);
    ScheduleFits(s);
    ScheduleKeepsOrder(s);
    BatchBuildsExactly(p.s, p.scheduled);
    forall k | 0 <= k < |p.scheduled| ensures EntryBuilds(p.s, p.scheduled[k]) <==> HasTable(p.s, p.scheduled[k]) {
      FitBuilds(p.s, p.scheduled, k);
    }
    if BuildBatch(p.s, p.scheduled).Some? {
      BatchRunsExactly(p.s, m, d, p.scheduled);
      ForwardAcceptsExactly(m, d, BuildBatch(p.s, p.scheduled).value);
    }
  }

  lemma AgreesDistinct(h: P.History, s: State)
    requires Agrees(h, s)
    ensures NoDuplicates(Ids(Order(s)))
  {
  }

  // ----- The arena stays as large as the pool -----

  ghost predicate SameSize(a: Manager, b: Manager) {
    |b.pool.blocks| == |a.pool.blocks| && b.pool.blockSize == a.pool.blockSize
  }

  lemma {:induction false} EvictingKeepsSize(m: Manager, count: nat)
    requires m.WellFormed()
    ensures SameSize(m, EvictedCached(m, count))
    decreases count
  {
    if count > 0 && EvictOldest(m.pool).Some? {
      var e := EvictOldest(m.pool).value;
      EvictingKeepsSize(m.(pool := e.pool, entries := Dropped(m.entries, e.hash, e.block)), count - 1);
    }
  }

  lemma AllocatingKeepsSize(m: Manager, s: SequenceId, prompt: seq<TokenId>)
    requires Consistent(m)
    ensures m.WellFormed() && SameSize(m, Allocated(m, s, prompt).0)
  {
    hide Allocated, Consistent, LeadingRun, FreshTail;
    AllocationIsExact(m, s, prompt);
    NoStall.ConsistentIsWellFormed(m);
    if Allocated(m, s, prompt).1.Ok? {
      AllocationKeys(m, s, prompt);
    }
  }

  lemma CacheStepKeepsSize(h: P.History, op: P.CacheOp)
    requires P.Tracked(h)
    ensures SameSize(h.m, P.Step(h, op).m)
  {
    hide Conserves, Allocated, Appended, Freed, Committed, EvictedCached, Evictable;
    match op
    case OpAllocate(s, prompt) => AllocatingKeepsSize(h.m, s, prompt);
    case OpCommit(s) => if s in h.prompts { CommittingConserves(h.m, s, h.prompts[s]); }
    case OpAppend(s) => AppendingIsExact(h.m, s);
    case OpFree(s) => FreeingConserves(h.m, s);
    case OpEvict(count) => EvictingKeepsSize(h.m, count);
    case OpClear => EvictingKeepsSize(h.m, Evictable(h.m.pool, |h.m.pool.freeList|));
  }

  lemma {:induction false} CacheRunKeepsSize(h: P.History, ops: seq<P.CacheOp>)
    requires P.Tracked(h)
    ensures SameSize(h.m, P.Run(h, ops).m)
    decreases |ops|
  {
    hide P.Tracked, P.Step;
    if ops != [] {
      P.StepKeepsTracked(h, ops[0]);
      CacheStepKeepsSize(h, ops[0]);
      CacheRunKeepsSize(P.Step(h, ops[0]), ops[1..]);
    }
  }

  /**
   * Over every engine run and every set of late requests: the step that follows builds its
   * batch exactly when each resident sequence it scheduled has its table, and the model
   * accepts the batch exactly when each entry runs.
   */
  lemma StepRunsExactly(config: Config, numBlocks: nat, blockSize: nat, prefixCaching: bool, eosIds: seq<TokenId>,
                        calls: seq<StreamProtocol.Call>, late: set<SequenceId>, m: Model, d: Dims)
    requires blockSize > 0 && d.blockSize == blockSize && d.blocks == numBlocks
    ensures var s := Expired(EngineRuns.EngineAfter(config, numBlocks, blockSize, prefixCaching, eosIds, calls).s, late).0;
            s.cache.WellFormed() && RunsExactly(Schedule(s), m, d)
  {
    hide Agrees, P.Tracked, P.StateAfter, After, CacheRun, EngineRuns.EngineAfter, EngineRuns.FreshOps, Schedule, RunsExactly, Expired;
    var ops := EngineRuns.FreshOps(config, numBlocks, blockSize, prefixCaching, eosIds, calls);
    EngineRuns.EngineRunsTheScheduler(config, numBlocks, blockSize, prefixCaching, eosIds, calls);
    SchedulerRunsTheCache(config, numBlocks, blockSize, prefixCaching, ops);
    var s0 := After(config, numBlocks, blockSize, prefixCaching, ops);
    var cacheOps := CacheRun(config, numBlocks, blockSize, prefixCaching, ops);
    var h := P.StateAfter(numBlocks, blockSize, prefixCaching, cacheOps);
    HistorySize(numBlocks, blockSize, prefixCaching, cacheOps);
    ExpireFollows(h, s0, late);
    var s := Expired(s0, late).0;
    AgreesParts(h, s);
    PassKeepsSize(h, s);
    PassRunsExactly(h, s, m, d);
  }

  lemma HistorySize(numBlocks: nat, blockSize: nat, prefixCaching: bool, ops: seq<P.CacheOp>)
    requires blockSize > 0
    ensures var h := P.StateAfter(numBlocks, blockSize, prefixCaching, ops);
            |h.m.pool.blocks| == numBlocks && h.m.pool.blockSize == blockSize
  {
    P.NewHistoryTracked(numBlocks, blockSize, prefixCaching);
    CacheRunKeepsSize(P.NewHistory(numBlocks, blockSize, prefixCaching), ops);
  }

  lemma PassKeepsSize(h: P.History, s: State)
    requires Agrees(h, s) && s.cache.WellFormed() && P.Tracked(h)
    ensures SameSize(s.cache, Schedule(s).s.cache)
  {
    hide Schedule, P.Run, P.Tracked;
    ScheduleFollows(h, s);
    CacheRunKeepsSize(h, ScheduleOps(s));
  }
}
