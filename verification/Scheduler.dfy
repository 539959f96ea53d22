// The scheduler object over its queues and the cache manager.
module Schedulers {
  import opened Prelude
  import opened Arithmetic
  import opened KvCache
  import opened KvCacheManagers
  import opened Sequences
  import opened Queues
  import opened Scheduling

  class Scheduler {
    const config: Config
    const waiting: WaitingQueue
    const running: RunningQueue
    const cache: KvCacheManager

    function View(): State
      reads this, waiting, running, cache, cache.pool, cache.prefixCache
    {
      State(config, waiting.inner, running.inner, cache.State())
    }

    ghost predicate Valid()
      reads this, waiting, running, cache, cache.pool, cache.prefixCache
    {
      cache.Valid()
    }

    constructor (config: Config, cache: KvCacheManager)
      requires cache.Valid()
      ensures Valid() && this.cache == cache && fresh(waiting) && fresh(running)
      ensures View() == NewState(config, cache.State())
    {
      this.config := config;
      this.cache := cache;
      waiting := new WaitingQueue();
      running := new RunningQueue();
    }

    method AddRequest(q: Sequence) returns (r: Result<SequenceId>)
      requires Valid()
      modifies waiting
      ensures Valid() && View() == Added(old(View()), q)
      ensures r == match AddCheck(old(View()), q) case None => Ok(q.id) case Some(e) => Err(e)
    {
      if |waiting.inner| >= config.maxWaiting {
        return Err(QueueFull(|waiting.inner|, config.maxWaiting));
      }
      var needed := |q.prompt| + q.params.maxTokens;
      if config.maxModelLen.Some? && needed > config.maxModelLen.value {
        return Err(ContextLengthExceeded(|q.prompt|, q.params.maxTokens, config.maxModelLen.value));
      }
      var blocks := CeilDiv(|q.prompt|, cache.pool.blockSize);
      if blocks > |cache.pool.blocks| {
        return Err(CacheExhausted(blocks, |cache.pool.blocks|));
      }
      waiting.PushBack(q);
      r := Ok(q.id);
    }

    method Cancel(id: SequenceId) returns (found: bool)
      requires Valid()
      modifies waiting, running, cache, cache.pool
      ensures Valid() && (View(), found) == CancelledState(old(View()), id)
    {
      FreedWellFormed(cache.State(), id);
      var w := waiting.Remove(id);
      if w.Some? {
        return true;
      }
      var q := running.Remove(id);
      if q.Some? {
        cache.Free(id);
        return true;
      }
      found := false;
    }

    /** Sends the sequence admitted last back to the queue; its id is returned for the step's record. */
    method PreemptNewest(ghost p: Pass) returns (victim: Option<SequenceId>)
      requires Valid() && p.s == View()
      modifies waiting, running, cache, cache.pool
      ensures Valid()
      ensures match PreemptOne(p)
              case None => victim == None && View() == old(View())
              case Some(q) => victim.Some? && View() == q.s && q.preempted == p.preempted + [victim.value]
    {
      hide Freed;
      PreemptOneWellFormed(p);
      var newest := running.PopNewest();
      if newest.None? {
        return None;
      }
      cache.Free(newest.value.id);
      waiting.PushFront(newest.value.Preempt());
      victim := Some(newest.value.id);
    }

    method CollectDecodes() returns (candidates: seq<(SequenceId, nat)>)
      ensures candidates == DecodeCandidates(running.inner)
    {
      candidates := [];
      for i := 0 to |running.inner|
        invariant candidates == DecodeCandidates(running.inner[..i])
      {
        assert running.inner[..i + 1][..i] == running.inner[..i];
        var q := running.inner[i];
        if q.state.Decoding? {
          candidates := candidates + [(q.id, q.TotalLen())];
        }
      }
      assert running.inner[..|running.inner|] == running.inner;
    }

    method CollectPartials() returns (candidates: seq<PartialPrefill>)
      ensures candidates == PartialCandidates(running.inner)
    {
      candidates := [];
      for i := 0 to |running.inner|
        invariant candidates == PartialCandidates(running.inner[..i])
      {
        assert running.inner[..i + 1][..i] == running.inner[..i];
        var q := running.inner[i];
        if q.state.Prefilling? && !q.PrefillComplete() {
          candidates := candidates + [PartialPrefill(q.id, q.computed, q.RemainingPrefill())];
        }
      }
      assert running.inner[..|running.inner|] == running.inner;
    }

    method ScheduleDecodes(scheduled: seq<Scheduled>, preempted: seq<SequenceId>, budget: nat, used: nat)
      returns (scheduled': seq<Scheduled>, preempted': seq<SequenceId>, used': nat)
      requires Valid()
      modifies waiting, running, cache, cache.pool, cache.prefixCache
      ensures Valid()
      ensures Pass(View(), scheduled', preempted', used')
              == DecodePass(Pass(old(View()), scheduled, preempted, used), budget)
    {
      hide Appended, Freed, DecodeCandidates;
      scheduled', preempted', used' := scheduled, preempted, used;
      ghost var start := Pass(View(), scheduled, preempted, used);
      var candidates := CollectDecodes();
      var i := 0;
      assert candidates[0..] == candidates;
      while i < |candidates| && used' < budget
        invariant i <= |candidates| && Valid()
        invariant Decodes(Pass(View(), scheduled', preempted', used'), candidates[i..], budget)
                  == Decodes(start, candidates, budget)
      {
        ghost var p := Pass(View(), scheduled', preempted', used');
        assert candidates[i..][1..] == candidates[i + 1..];
        var (id, totalLen) := candidates[i];
        var err := cache.AppendToken(id);
        if err.None? {
          scheduled' := scheduled' + [Scheduled(id, 1, totalLen, false)];
          used' := used' + 1;
        } else {
          // No block for the new token: one eviction, one more try.
          var victim := PreemptNewest(Pass(View(), scheduled', preempted', used'));
          if victim.None? {
            break;
          }
          preempted' := preempted' + [victim.value];
          err := cache.AppendToken(id);
          if err.None? {
            scheduled' := scheduled' + [Scheduled(id, 1, totalLen, false)];
            used' := used' + 1;
          }
        }
        assert Pass(View(), scheduled', preempted', used') == DecodeOne(p, id, totalLen).0;
        i := i + 1;
      }
    }

    method SchedulePartialPrefills(scheduled: seq<Scheduled>, ghost preempted: seq<SequenceId>, budget: nat, used: nat)
      returns (scheduled': seq<Scheduled>, used': nat)
      requires Valid()
      modifies running
      ensures Valid()
      ensures Pass(View(), scheduled', preempted, used')
              == Partials(Pass(old(View()), scheduled, preempted, used), PartialCandidates(old(running.inner)), budget)
    {
      hide PartialCandidates, Prefilled, Position, Chunk;
      scheduled', used' := scheduled, used;
      ghost var start := Pass(View(), scheduled, preempted, used);
      var candidates := CollectPartials();
      var i := 0;
      assert candidates[0..] == candidates;
      while i < |candidates| && used' < budget
        invariant i <= |candidates| && Valid()
        invariant Partials(Pass(View(), scheduled', preempted, used'), candidates[i..], budget)
                  == Partials(start, candidates, budget)
      {
        assert candidates[i..][1..] == candidates[i + 1..];
        var c := candidates[i];
        i := i + 1;
        var chunk := Chunk(config, c.remaining, budget - used');
        if chunk == None || chunk == Some(0) {
          continue;
        }
        var q := running.Get(c.id);
        if q.None? {
          continue;
        }
        running.Put(Prefilled(q.value, chunk.value));
        scheduled' := scheduled' + [Scheduled(c.id, chunk.value, c.already, true)];
        used' := used' + chunk.value;
      }
    }

    /** One round of the admission loop; `again` says whether another round follows. */
    method AdmitNext(scheduled: seq<Scheduled>, preempted: seq<SequenceId>, budget: nat, used: nat)
      returns (again: bool, scheduled': seq<Scheduled>, preempted': seq<SequenceId>, used': nat)
      requires Valid()
      modifies waiting, running, cache, cache.pool, cache.prefixCache
      ensures Valid()
      ensures var p := Pass(View(), scheduled', preempted', used');
              AdmitRound(Pass(old(View()), scheduled, preempted, used), budget)
              == if again then Again(p) else Done(p)
    {
      hide Allocated, Freed, CeilDiv, AdmittedSequence, Chunk;
      scheduled', preempted', used' := scheduled, preempted, used;
      again := false;
      if |running.inner| >= config.maxNumSeqs || used >= budget {
        return;
      }
      var next := waiting.Peek();
      if next.None? {
        return;
      }
      var chunk := Chunk(config, next.value.RemainingPrefill(), budget - used);
      if chunk == None || chunk == Some(0) {
        return;
      }
      // With prefill progress the table is there already.
      var isFirstChunk := next.value.computed == 0;
      if isFirstChunk && CeilDiv(|next.value.prompt|, cache.pool.blockSize) > |cache.pool.freeList| {
        var victim := PreemptNewest(Pass(View(), scheduled, preempted, used));
        if victim.Some? {
          preempted' := preempted + [victim.value];
          again := true;
        }
        return;
      }
      var popped := waiting.PopFront();
      var q := popped.value;
      if isFirstChunk {
        var r := cache.Allocate(q.id, q.prompt);
        if r.Err? {
          waiting.PushFront(q.Preempt());
          return;
        }
      }
      scheduled' := scheduled + [Scheduled(q.id, chunk.value, q.computed, true)];
      used' := used + chunk.value;
      running.Push(AdmittedSequence(q, chunk.value));
      again := true;
    }

    method SchedulePrefills(scheduled: seq<Scheduled>, preempted: seq<SequenceId>, budget: nat, used: nat)
      returns (scheduled': seq<Scheduled>, preempted': seq<SequenceId>, used': nat)
      requires Valid()
      modifies waiting, running, cache, cache.pool, cache.prefixCache
      ensures Valid()
      ensures Pass(View(), scheduled', preempted', used')
              == Prefills(Pass(old(View()), scheduled, preempted, used), budget)
    {
      hide AdmitRound, PartialCandidates;
      preempted' := preempted;
      scheduled', used' := SchedulePartialPrefills(scheduled, preempted, budget, used);
      ghost var resumed := Pass(View(), scheduled', preempted', used');
      var again := true;
      while again
        invariant Valid()
        invariant if again
                  then Admit(Pass(View(), scheduled', preempted', used'), budget) == Admit(resumed, budget)
                  else Pass(View(), scheduled', preempted', used') == Admit(resumed, budget)
        decreases again, SaturatingSub(budget, used'), |running.inner|
      {
        AdmitRoundProgress(Pass(View(), scheduled', preempted', used'), budget);
        again, scheduled', preempted', used' := AdmitNext(scheduled', preempted', budget, used');
      }
    }

    /** One pass: which sequences run next, and with how many tokens. */
    method ScheduleStep() returns (scheduled: seq<Scheduled>, preempted: seq<SequenceId>, used: nat)
      requires Valid()
      modifies waiting, running, cache, cache.pool, cache.prefixCache
      ensures Valid()
      ensures Pass(View(), scheduled, preempted, used) == Schedule(old(View()))
    {
      hide Prefills, DecodePass;
      var budget := config.maxBatchedTokens;
      scheduled, preempted, used := [], [], 0;
      if config.prioritizeDecode {
        scheduled, preempted, used := ScheduleDecodes(scheduled, preempted, budget, used);
        scheduled, preempted, used := SchedulePrefills(scheduled, preempted, budget, used);
      } else {
        scheduled, preempted, used := SchedulePrefills(scheduled, preempted, budget, used);
        scheduled, preempted, used := ScheduleDecodes(scheduled, preempted, budget, used);
      }
    }

    method OnToken(id: SequenceId, token: TokenId, eosIds: seq<TokenId>) returns (reason: Option<FinishReason>)
      requires Valid()
      modifies running
      ensures Valid() && (View(), reason) == Tokened(old(View()), id, token, eosIds)
    {
      var q := running.Get(id);
      if q.None? {
        return None;
      }
      var pushed := q.value.PushToken(token);
      reason := StopReason(pushed, token, eosIds);
      running.Put(if reason.Some? then pushed.Finish(reason.value) else pushed);
    }

    method ReapFinished() returns (finished: seq<Sequence>)
      requires Valid()
      modifies running, cache, cache.pool
      ensures Valid() && (View(), finished) == Reaped(old(View()))
    {
      hide Freed;
      ghost var m := cache.State();
      finished := running.TakeFinished();
      FreedAllWellFormed(m, finished);
      assert finished[0..] == finished;
      for i := 0 to |finished|
        invariant Valid() && running.inner == Unfinished(old(running.inner)) && waiting.inner == old(waiting.inner)
        invariant FreedAll(cache.State(), finished[i..]) == FreedAll(m, finished)
      {
        assert finished[i..][1..] == finished[i + 1..];
        cache.Free(finished[i].id);
      }
    }

    /** Times out the sequences in `late`, the ones past the configured deadline. */
    method ExpireTimeouts(late: set<SequenceId>) returns (expired: seq<SequenceId>)
      requires Valid()
      modifies waiting, running
      ensures Valid() && (View(), expired) == Expired(old(View()), late)
    {
      ghost var before := running.inner;
      expired := [];
      for i := 0 to |running.inner|
        invariant Valid() && waiting.inner == old(waiting.inner) && cache.State() == old(cache.State())
        invariant |running.inner| == |before|
        invariant forall k :: 0 <= k < i ==> running.inner[k] == FinishIn(before, late, Timeout)[k]
        invariant forall k :: i <= k < |before| ==> running.inner[k] == before[k]
        invariant expired == Ids(Selected(before[..i], late))
      {
        assert before[..i + 1][..i] == before[..i];
        var q := running.inner[i];
        if q.id in late {
          running.inner := running.inner[i := q.Finish(Timeout)];
          expired := expired + [q.id];
        }
      }
      assert before[..|before|] == before;
      assert running.inner == FinishIn(before, late, Timeout);
      var drained := waiting.DrainWhere(late);
      expired := expired + Ids(drained);
    }

    method CommitPrefill(id: SequenceId)
      requires Valid()
      modifies cache.pool, cache.prefixCache
      ensures Valid() && View() == CommittedState(old(View()), id)
    {
      var q := running.Get(id);
      if q.Some? && q.value.PrefillComplete() {
        cache.CommitPrefill(id, q.value.prompt);
      }
    }
  }
}
