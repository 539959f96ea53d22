// The continuous batching scheduler, as functions of its state.
module Scheduling {
  import opened Prelude
  import opened Arithmetic
  import opened KvCache
  import opened Sequences

  datatype Config = Config(
    maxNumSeqs: nat,
    maxBatchedTokens: nat,
    maxModelLen: Option<nat>,
    chunkedPrefill: bool,
    maxWaiting: nat,
    prioritizeDecode: bool)

  /** One entry of a batch: so many tokens of a sequence, from a position on. */
  datatype Scheduled = Scheduled(id: SequenceId, numTokens: nat, startPosition: nat, isPrefill: bool)

  datatype State = State(config: Config, waiting: seq<Sequence>, running: seq<Sequence>, cache: Manager)

  /** A scheduling pass under way: the state, the batch so far, and the tokens it uses. */
  datatype Pass = Pass(s: State, scheduled: seq<Scheduled>, preempted: seq<SequenceId>, used: nat)

  function TokenSum(batch: seq<Scheduled>): nat {
    if batch == [] then 0 else TokenSum(batch[..|batch| - 1]) + batch[|batch| - 1].numTokens
  }

  function NewState(config: Config, cache: Manager): State {
    State(config, [], [], cache)
  }

  // ----- Admission of requests -----

  function AddCheck(s: State, q: Sequence): Option<EngineError>
    requires s.cache.WellFormed()
  {
    if |s.waiting| >= s.config.maxWaiting then Some(QueueFull(|s.waiting|, s.config.maxWaiting))
    else if s.config.maxModelLen.Some? && |q.prompt| + q.params.maxTokens > s.config.maxModelLen.value then
      Some(ContextLengthExceeded(|q.prompt|, q.params.maxTokens, s.config.maxModelLen.value))
    else if BlocksNeeded(s.cache, |q.prompt|) > |s.cache.pool.blocks| then
      Some(CacheExhausted(BlocksNeeded(s.cache, |q.prompt|), |s.cache.pool.blocks|))
    else None
  }

  function Added(s: State, q: Sequence): State
    requires s.cache.WellFormed()
  {
    if AddCheck(s, q).Some? then s else s.(waiting := s.waiting + [q])
  }

  function CancelledState(s: State, id: SequenceId): (State, bool) {
    if Position(s.waiting, id) < |s.waiting| then
      (s.(waiting := RemoveAt(s.waiting, Position(s.waiting, id))), true)
    else if Position(s.running, id) < |s.running| then
      (s.(running := RemoveAt(s.running, Position(s.running, id)), cache := Freed(s.cache, id)), true)
    else (s, false)
  }

  // ----- Preemption -----

  /** The sequence admitted last gives up its blocks and is next in line again. */
  function PreemptOne(p: Pass): Option<Pass> {
    if p.s.running == [] then None
    else
      var victim := p.s.running[|p.s.running| - 1];
      Some(p.(s := p.s.(running := p.s.running[..|p.s.running| - 1],
                        cache := Freed(p.s.cache, victim.id),
                        waiting := [victim.Preempt()] + p.s.waiting),
              preempted := p.preempted + [victim.id]))
  }

  // ----- Decodes -----

  function DecodeCandidates(list: seq<Sequence>): seq<(SequenceId, nat)> {
    if list == [] then []
    else
      var front := DecodeCandidates(list[..|list| - 1]);
      var q := list[|list| - 1];
      if q.state.Decoding? then front + [(q.id, q.TotalLen())] else front
  }

  /** Tries to reserve the next token of `id`, with the decode entry on success. */
  function TryAppend(p: Pass, id: SequenceId, totalLen: nat): (Pass, bool)
    requires p.s.cache.WellFormed()
  {
    var (cache, err) := Appended(p.s.cache, id);
    var q := p.(s := p.s.(cache := cache));
    if err.None? then
      (q.(scheduled := q.scheduled + [Scheduled(id, 1, totalLen, false)], used := q.used + 1), true)
    else (q, false)
  }

  /** One candidate of the decode pass; the flag says whether the pass goes on. */
  function DecodeOne(p: Pass, id: SequenceId, totalLen: nat): (Pass, bool)
    requires p.s.cache.WellFormed()
  {
    AppendedWellFormed(p.s.cache, id);
    var (q, ok) := TryAppend(p, id, totalLen);
    if ok then (q, true)
    else
      match PreemptOne(q)
      case None => (q, false)
      case Some(evicted) =>
        PreemptOneWellFormed(q);
        (TryAppend(evicted, id, totalLen).0, true)
  }

  lemma PreemptOneWellFormed(p: Pass)
    requires p.s.cache.WellFormed()
    ensures PreemptOne(p).Some? ==>
              var q := PreemptOne(p).value;
              && q.s.cache.WellFormed() && q.used == p.used && q.scheduled == p.scheduled
              && q.s.config == p.s.config && |q.s.running| == |p.s.running| - 1
  {
    if p.s.running != [] {
      FreedWellFormed(p.s.cache, p.s.running[|p.s.running| - 1].id);
    }
  }

  lemma DecodeOneWellFormed(p: Pass, id: SequenceId, totalLen: nat)
    requires p.s.cache.WellFormed()
    ensures var q := DecodeOne(p, id, totalLen).0;
            q.s.cache.WellFormed() && q.s.config == p.s.config && |q.s.running| <= |p.s.running|
  {
    hide Appended, Freed;
    AppendedWellFormed(p.s.cache, id);
    var (q, ok) := TryAppend(p, id, totalLen);
    PreemptOneWellFormed(q);
    if !ok && PreemptOne(q).Some? {
      AppendedWellFormed(PreemptOne(q).value.s.cache, id);
    }
  }

  function Decodes(p: Pass, candidates: seq<(SequenceId, nat)>, budget: nat): (r: Pass)
    requires p.s.cache.WellFormed()
    ensures r.s.cache.WellFormed()
    decreases |candidates|
  {
    if candidates == [] || p.used >= budget then p
    else
      DecodeOneWellFormed(p, candidates[0].0, candidates[0].1);
      var (q, go) := DecodeOne(p, candidates[0].0, candidates[0].1);
      if go then Decodes(q, candidates[1..], budget) else q
  }

  // ----- Partial prefills -----

  datatype PartialPrefill = PartialPrefill(id: SequenceId, already: nat, remaining: nat)

  function PartialCandidates(list: seq<Sequence>): seq<PartialPrefill> {
    if list == [] then []
    else
      var front := PartialCandidates(list[..|list| - 1]);
      var q := list[|list| - 1];
      if q.state.Prefilling? && !q.PrefillComplete()
      then front + [PartialPrefill(q.id, q.computed, q.RemainingPrefill())] else front
  }

  /** Tokens of a prefill that fit in the room left; None when it must wait for a later step. */
  function Chunk(config: Config, remaining: nat, room: nat): Option<nat> {
    if config.chunkedPrefill then Some(Min(remaining, room))
    else if remaining <= room then Some(remaining)
    else None
  }

  /** The sequence after `chunk` more prompt tokens, decoding once its prompt is through. */
  function Prefilled(q: Sequence, chunk: nat): (r: Sequence)
    ensures r.id == q.id && Core(r) == Core(q)
  {
    var advanced := q.AdvancePrefill(chunk);
    if advanced.PrefillComplete() then advanced.TransitionTo(Decoding) else advanced
  }

  function PartialOne(p: Pass, c: PartialPrefill, budget: nat): Pass
    requires p.used < budget
  {
    var chunk := Chunk(p.s.config, c.remaining, budget - p.used);
    var pos := Position(p.s.running, c.id);
    if chunk == None || chunk == Some(0) || pos == |p.s.running| then p
    else
      p.(s := p.s.(running := p.s.running[pos := Prefilled(p.s.running[pos], chunk.value)]),
         scheduled := p.scheduled + [Scheduled(c.id, chunk.value, c.already, true)],
         used := p.used + chunk.value)
  }

  function Partials(p: Pass, candidates: seq<PartialPrefill>, budget: nat): (r: Pass)
    ensures r.s.cache == p.s.cache && |r.s.running| == |p.s.running|
    decreases |candidates|
  {
    if candidates == [] || p.used >= budget then p
    else Partials(PartialOne(p, candidates[0], budget), candidates[1..], budget)
  }

  // ----- Admission of waiting sequences -----

  datatype Round = Done(p: Pass) | Again(p: Pass)

  /** The sequence after its admission with a first chunk. */
  function AdmittedSequence(q: Sequence, chunk: nat): (r: Sequence)
    ensures r.id == q.id && Core(r) == Core(q)
  {
    var advanced := q.AdvancePrefill(chunk);
    var started := if advanced.state.Waiting? then advanced.TransitionTo(Prefilling) else advanced;
    if started.PrefillComplete() then started.TransitionTo(Decoding) else started
  }

  /** The head of the waiting queue joins the running set with `chunk` tokens. */
  function AdmitHead(p: Pass, cache: Manager, chunk: nat): Pass
    requires p.s.waiting != []
  {
    var q := p.s.waiting[0];
    p.(s := p.s.(waiting := p.s.waiting[1..], running := p.s.running + [AdmittedSequence(q, chunk)], cache := cache),
       scheduled := p.scheduled + [Scheduled(q.id, chunk, q.computed, true)],
       used := p.used + chunk)
  }

  /** One round of the admission loop. */
  function AdmitRound(p: Pass, budget: nat): Round
    requires p.s.cache.WellFormed()
  {
    if |p.s.running| >= p.s.config.maxNumSeqs || p.used >= budget || p.s.waiting == [] then Done(p)
    else
      var next := p.s.waiting[0];
      match Chunk(p.s.config, next.RemainingPrefill(), budget - p.used)
      case None => Done(p)
      case Some(chunk) =>
        if chunk == 0 then Done(p)
        else if next.computed == 0 && !CanAllocate(p.s.cache, |next.prompt|) then
          (match PreemptOne(p) case None => Done(p) case Some(q) => Again(q))
        else if next.computed == 0 then
          var (cache, r) := Allocated(p.s.cache, next.id, next.prompt);
          if r.Err? then
            Done(p.(s := p.s.(waiting := [next.Preempt()] + p.s.waiting[1..], cache := cache)))
          else Again(AdmitHead(p, cache, chunk))
        else Again(AdmitHead(p, p.s.cache, chunk))
  }

  /** The admission loop shrinks the running set or spends budget in every round. */
  lemma AdmitRoundProgress(p: Pass, budget: nat)
    requires p.s.cache.WellFormed()
    ensures AdmitRound(p, budget).p.s.cache.WellFormed()
    ensures AdmitRound(p, budget).p.s.config == p.s.config
    ensures AdmitRound(p, budget).Done? ==>
              var q := AdmitRound(p, budget).p;
              && q.preempted == p.preempted && q.used == p.used && q.scheduled == p.scheduled
              && q.s.running == p.s.running
    ensures AdmitRound(p, budget).Again? ==>
              var q := AdmitRound(p, budget).p;
              && p.used < budget
              && (|| (q.used == p.used && |q.s.running| == |p.s.running| - 1
                      && q.preempted == p.preempted + [p.s.running[|q.s.running|].id])
                  || (p.used < q.used <= budget && |q.s.running| == |p.s.running| + 1 <= p.s.config.maxNumSeqs
                      && q.preempted == p.preempted))
  {
    hide Allocated, Freed, CeilDiv;
    PreemptOneWellFormed(p);
    if p.s.waiting != [] {
      AllocatedWellFormed(p.s.cache, p.s.waiting[0].id, p.s.waiting[0].prompt);
    }
  }

  function Admit(p: Pass, budget: nat): (r: Pass)
    requires p.s.cache.WellFormed()
    ensures r.s.cache.WellFormed()
    decreases SaturatingSub(budget, p.used), |p.s.running|
  {
    AdmitRoundProgress(p, budget);
    match AdmitRound(p, budget)
    case Done(q) => q
    case Again(q) => Admit(q, budget)
  }

  function Prefills(p: Pass, budget: nat): (r: Pass)
    requires p.s.cache.WellFormed()
    ensures r.s.cache.WellFormed()
  {
    Admit(Partials(p, PartialCandidates(p.s.running), budget), budget)
  }

  function DecodePass(p: Pass, budget: nat): (r: Pass)
    requires p.s.cache.WellFormed()
    ensures r.s.cache.WellFormed()
  {
    Decodes(p, DecodeCandidates(p.s.running), budget)
  }

  function StartPass(s: State): Pass {
    Pass(s, [], [], 0)
  }

  /** The batch of one engine step. */
  function Schedule(s: State): (r: Pass)
    requires s.cache.WellFormed()
    ensures r.s.cache.WellFormed()
  {
    var budget := s.config.maxBatchedTokens;
    if s.config.prioritizeDecode then Prefills(DecodePass(StartPass(s), budget), budget)
    else DecodePass(Prefills(StartPass(s), budget), budget)
  }

  // ----- After the forward pass -----

  function StopReason(q: Sequence, token: TokenId, eosIds: seq<TokenId>): Option<FinishReason> {
    if (token in eosIds || token in q.params.stopTokenIds) && q.MayStopOnEos() then Some(FinishReason.Stop)
    else if q.ReachedMaxTokens() then Some(FinishReason.Length)
    else None
  }

  /** A sequence after one generated token. */
  function WithToken(q: Sequence, token: TokenId, eosIds: seq<TokenId>): (Sequence, Option<FinishReason>) {
    var pushed := q.PushToken(token);
    match StopReason(pushed, token, eosIds)
    case None => (pushed, None)
    case Some(reason) => (pushed.Finish(reason), Some(reason))
  }

  function Tokened(s: State, id: SequenceId, token: TokenId, eosIds: seq<TokenId>): (State, Option<FinishReason>) {
    var pos := Position(s.running, id);
    if pos == |s.running| then (s, None)
    else
      var (q, reason) := WithToken(s.running[pos], token, eosIds);
      (s.(running := s.running[pos := q]), reason)
  }

  function FreedAll(m: Manager, list: seq<Sequence>): Manager
    decreases |list|
  {
    if list == [] then m else FreedAll(Freed(m, list[0].id), list[1..])
  }

  function Reaped(s: State): (State, seq<Sequence>) {
    (s.(running := Unfinished(s.running), cache := FreedAll(s.cache, FinishedOnly(s.running))),
     FinishedOnly(s.running))
  }

  function FinishIn(list: seq<Sequence>, ids: set<SequenceId>, reason: FinishReason): seq<Sequence> {
    seq(|list|, i requires 0 <= i < |list| =>
      if list[i].id in ids then list[i].Finish(reason) else list[i])
  }

  /** The sequences in `late` time out: running ones finish in place, waiting ones leave. */
  function Expired(s: State, late: set<SequenceId>): (State, seq<SequenceId>) {
    (s.(running := FinishIn(s.running, late, Timeout), waiting := Rejected(s.waiting, late)),
     Ids(Selected(s.running, late)) + Ids(Selected(s.waiting, late)))
  }

  function CommittedState(s: State, id: SequenceId): State
    requires s.cache.WellFormed()
  {
    var pos := Position(s.running, id);
    if pos == |s.running| || !s.running[pos].PrefillComplete() then s
    else s.(cache := Committed(s.cache, id, s.running[pos].prompt))
  }

  lemma CommittedStateWellFormed(s: State, id: SequenceId)
    requires s.cache.WellFormed()
    ensures CommittedState(s, id).cache.WellFormed()
  {
    var pos := Position(s.running, id);
    if pos < |s.running| {
      CommittedWellFormed(s.cache, id, s.running[pos].prompt);
    }
  }

  /** Publishes the completed prefills of a batch. */
  function CommitAll(s: State, batch: seq<Scheduled>): State
    requires s.cache.WellFormed()
    decreases |batch|
  {
    if batch == [] then s
    else
      CommittedStateWellFormed(s, batch[0].id);
      CommitAll(if batch[0].isPrefill then CommittedState(s, batch[0].id) else s, batch[1..])
  }

  lemma FreedAllWellFormed(m: Manager, list: seq<Sequence>)
    requires m.WellFormed()
    ensures FreedAll(m, list).WellFormed()
    decreases |list|
  {
    if list != [] {
      FreedWellFormed(m, list[0].id);
      FreedAllWellFormed(Freed(m, list[0].id), list[1..]);
    }
  }
}
