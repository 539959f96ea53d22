// Requests stay in arrival order, over every run.
module ArrivalOrder {
  import opened Prelude
  import opened KvCache
  import opened Sequences
  import opened Scheduling
  import opened SchedulerOrder
  import opened SchedulerInvariant
  import opened SchedulerRuns

  /** The ids admitted in a run, in order of arrival. */
  ghost function Arrivals(v: Life, ops: seq<Op>): seq<SequenceId>
    requires v.s.cache.WellFormed()
    decreases |ops|
  {
    if ops == [] then []
    else
      StepLifeWellFormed(v, ops[0]);
      ComeIn(v, ops[0]) + Arrivals(StepLife(v, ops[0]), ops[1..])
  }

  /** The ids that leave in a run. */
  ghost function Departures(v: Life, ops: seq<Op>): set<SequenceId>
    requires v.s.cache.WellFormed()
    decreases |ops|
  {
    if ops == [] then {}
    else
      StepLifeWellFormed(v, ops[0]);
      GoneIn(v.s, ops[0]) + Departures(StepLife(v, ops[0]), ops[1..])
  }

  /** What arrives is new, and arrives once. */
  lemma {:induction false} ArrivalsAreNew(v: Life, ops: seq<Op>)
    requires v.s.cache.WellFormed()
    ensures NoDuplicates(Arrivals(v, ops)) && forall x :: x in Arrivals(v, ops) ==> x !in v.seen
    decreases |ops|
  {
    hide StepLife, ComeIn;
    if ops != [] {
      StepLifeWellFormed(v, ops[0]);
      SeenGrows(v, ops[0]);
      ComeIsNew(v, ops[0]);
      var come, rest := ComeIn(v, ops[0]), Arrivals(StepLife(v, ops[0]), ops[1..]);
      ArrivalsAreNew(StepLife(v, ops[0]), ops[1..]);
      assert forall i :: |come| <= i < |come + rest| ==> (come + rest)[i] == rest[i - |come|] && rest[i - |come|] in rest;
      assert forall i :: 0 <= i < |come| ==> (come + rest)[i] == come[i] && come[i] in come;
    }
  }

  lemma ComeIsNew(v: Life, op: Op)
    requires v.s.cache.WellFormed()
    ensures |ComeIn(v, op)| <= 1 && forall x :: x in ComeIn(v, op) ==> x !in v.seen
  {
    hide AddCheck;
  }

  /** One step and then a run: what goes in the step is not among what comes. */
  lemma StepThenRun(listed: seq<SequenceId>, gone: set<SequenceId>, come: seq<SequenceId>, rest: set<SequenceId>)
    requires forall x :: x in gone ==> x !in come
    ensures Without(Without(listed, gone) + come, rest) == Without(listed + come, gone + rest)
  {
    hide Without;
    WithoutConcat(Without(listed, gone), come, rest);
    WithoutConcat(listed, come, gone + rest);
    WithoutTwice(listed, gone, rest);
    WithoutSame(come, rest, gone + rest);
  }

  lemma {:induction false} RunKeepsOrder(v: Life, ops: seq<Op>)
    requires v.s.cache.WellFormed() && AllSeen(v)
    ensures Listed(RunLife(v, ops).s) == Without(Listed(v.s) + Arrivals(v, ops), Departures(v, ops))
    ensures forall x :: x in Departures(v, ops) ==> x in Listed(v.s) + Arrivals(v, ops)
    decreases |ops|
  {
    hide StepLife, Without, GoneIn, ComeIn, NoDuplicates;
    if ops == [] {
      assert Listed(v.s) + [] == Listed(v.s);
      NobodyGone(Listed(v.s));
    } else {
      var op, rest := ops[0], ops[1..];
      StepLifeWellFormed(v, op);
      StepIds(v, op);
      StepSeen(v, op);
      SeenGrows(v, op);
      ComeIsNew(v, op);
      var next := StepLife(v, op);
      ArrivalsAreNew(next, rest);
      RunKeepsOrder(next, rest);
      var come := ComeIn(v, op) + Arrivals(next, rest);
      assert Listed(next.s) + Arrivals(next, rest) == Without(Listed(v.s), GoneIn(v.s, op)) + come;
      StepThenRun(Listed(v.s), GoneIn(v.s, op), come, Departures(next, rest));
      WithoutIsSublist(Listed(v.s), GoneIn(v.s, op));
    }
  }

  // ----- The number of running sequences -----

  ghost predicate WithinLimit(s: State) {
    |s.running| <= s.config.maxNumSeqs
  }

  lemma StepWithinLimit(v: Life, op: Op)
    requires v.s.cache.WellFormed() && WithinLimit(v.s)
    ensures WithinLimit(StepLife(v, op).s) && StepLife(v, op).s.config == v.s.config
  {
    hide Schedule, AddCheck, Freed, FreedAll, Committed, Position, WithToken;
    match op
    case OpSchedule => ScheduleWithinBudgets(v.s);
    case OpReap => UnfinishedSplits(v.s.running);
    case _ =>
  }

  lemma {:induction false} RunWithinLimit(v: Life, ops: seq<Op>)
    requires v.s.cache.WellFormed() && WithinLimit(v.s)
    ensures WithinLimit(RunLife(v, ops).s) && RunLife(v, ops).s.config == v.s.config
    decreases |ops|
  {
    hide StepLife, WithinLimit;
    if ops != [] {
      StepLifeWellFormed(v, ops[0]);
      StepWithinLimit(v, ops[0]);
      RunWithinLimit(StepLife(v, ops[0]), ops[1..]);
    }
  }

  // ----- First in, first out -----

  lemma {:induction false} WithoutKeepsOrder(ids: seq<SequenceId>, gone: set<SequenceId>, i: nat, j: nat)
    requires NoDuplicates(ids) && i < j < |Without(ids, gone)|
    ensures exists a, b :: 0 <= a < b < |ids| && ids[a] == Without(ids, gone)[i] && ids[b] == Without(ids, gone)[j]
  {
    var front, kept := ids[..|ids| - 1], Without(ids, gone);
    if j < |Without(front, gone)| {
      WithoutKeepsOrder(front, gone, i, j);
      var a, b :| 0 <= a < b < |front| && front[a] == Without(front, gone)[i] && front[b] == Without(front, gone)[j];
      assert ids[a] == kept[i] && ids[b] == kept[j];
    } else {
      WithoutIsSublist(front, gone);
      assert kept[i] in Without(front, gone);
      var a :| 0 <= a < |front| && front[a] == kept[i];
      assert ids[a] == kept[i] && ids[|ids| - 1] == kept[j];
    }
  }

  lemma EarlierIsInFront(ids: seq<SequenceId>, gone: set<SequenceId>, r: seq<SequenceId>, w: seq<SequenceId>, a: nat, b: nat)
    requires NoDuplicates(ids) && r + w == Without(ids, gone)
    requires a < b < |ids| && ids[b] in r && ids[a] !in gone
    ensures ids[a] in r
  {
    LiveIsListed(ids, gone, a);
    if ids[a] !in r {
      var i :| 0 <= i < |r| && r[i] == ids[b];
      assert ids[a] in w;
      var j :| 0 <= j < |w| && w[j] == ids[a];
      WithoutKeepsOrder(ids, gone, i, |r| + j);
    }
  }

  lemma {:induction false} LiveIsListed(ids: seq<SequenceId>, gone: set<SequenceId>, a: nat)
    requires a < |ids| && ids[a] !in gone
    ensures ids[a] in Without(ids, gone)
  {
    if a < |ids| - 1 {
      LiveIsListed(ids[..|ids| - 1], gone, a);
    }
  }

  /**
   * Over every run, whatever finishes, times out, is evicted or cancelled in between: running
   * followed by waiting is the live requests in order of arrival, so that no request waits
   * while a later arrival is resident, and at most the configured number run.
   */
  lemma ArrivalOrderIsKept(config: Config, numBlocks: nat, blockSize: nat, prefixCaching: bool, ops: seq<Op>)
    requires blockSize > 0
    ensures NewLife(config, numBlocks, blockSize, prefixCaching).s.cache.WellFormed()
    ensures var v, s := NewLife(config, numBlocks, blockSize, prefixCaching), After(config, numBlocks, blockSize, prefixCaching, ops);
            var arrivals, departed := Arrivals(v, ops), Departures(v, ops);
            && NoDuplicates(arrivals) && (forall x :: x in departed ==> x in arrivals)
            && Ids(s.running) + Ids(s.waiting) == Without(arrivals, departed)
            && (forall a, b :: 0 <= a < b < |arrivals| && arrivals[b] in Ids(s.running) && arrivals[a] !in departed ==>
                  arrivals[a] in Ids(s.running))
            && |s.running| <= config.maxNumSeqs
  {
    hide Arrivals, Departures, RunLife, Without, NoDuplicates;
    NewLifeIsEmpty(config, numBlocks, blockSize, prefixCaching);
    var v, s := NewLife(config, numBlocks, blockSize, prefixCaching), After(config, numBlocks, blockSize, prefixCaching, ops);
    var arrivals, departed := Arrivals(v, ops), Departures(v, ops);
    assert [] + arrivals == arrivals;
    ArrivalsAreNew(v, ops);
    RunKeepsOrder(v, ops);
    RunWithinLimit(v, ops);
    forall a, b | 0 <= a < b < |arrivals| && arrivals[b] in Ids(s.running) && arrivals[a] !in departed
      ensures arrivals[a] in Ids(s.running)
    {
      EarlierIsInFront(arrivals, departed, Ids(s.running), Ids(s.waiting), a, b);
    }
  }
}
