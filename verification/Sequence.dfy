// The sequence: token history and lifecycle of one request.
//
// A sequence is owned by exactly one queue at a time and moved between queues, so it is a
// value here; an update of a queued sequence replaces it in its queue.
module Sequences {
  import opened Prelude

  datatype SequenceState = Waiting | Prefilling | Decoding | Finished

  predicate CanTransition(from: SequenceState, next: SequenceState) {
    match from
    case Waiting => next.Prefilling? || next.Finished?
    case Prefilling => true
    case Decoding => !next.Prefilling?
    case Finished => false
  }

  datatype FinishReason = Stop | StopSequence | Length | Cancelled | Timeout | Error

  /** What a request asks for; a float that is not finite is None. */
  datatype SamplingParams = SamplingParams(
    maxTokens: nat,
    minTokens: nat,
    stopTokenIds: seq<TokenId>,
    temperature: Option<real>,
    topP: Option<real>,
    repetitionPenalty: Option<real>,
    logprobs: Option<nat>,
    stopSequences: seq<string>)

  const MAX_LOGPROBS := 20
  const MAX_STOP_SEQUENCES := 16

  predicate ValidParams(params: SamplingParams) {
    && params.temperature.Some? && params.temperature.value >= 0.0
    && params.topP.Some? && 0.0 < params.topP.value <= 1.0
    && params.repetitionPenalty.Some? && params.repetitionPenalty.value > 0.0
    && 1 <= params.maxTokens && params.minTokens <= params.maxTokens
    && (params.logprobs.Some? ==> params.logprobs.value <= MAX_LOGPROBS)
    && |params.stopSequences| <= MAX_STOP_SEQUENCES
    && forall i :: 0 <= i < |params.stopSequences| ==> params.stopSequences[i] != ""
  }

  /** The defaults, for so many tokens. */
  function PlainParams(maxTokens: nat): SamplingParams {
    SamplingParams(maxTokens, 0, [], Some(1.0), Some(1.0), Some(1.0), None, [])
  }

  /** The checks in their order; a request is refused exactly when its parameters are not valid. */
  method Validate(params: SamplingParams) returns (r: Option<EngineError>)
    ensures r == if ValidParams(params) then None else Some(InvalidRequest)
  {
    if params.temperature.None? || params.temperature.value < 0.0 {
      return Some(InvalidRequest);
    }
    if params.topP.None? || params.topP.value <= 0.0 || params.topP.value > 1.0 {
      return Some(InvalidRequest);
    }
    if params.repetitionPenalty.None? || params.repetitionPenalty.value <= 0.0 {
      return Some(InvalidRequest);
    }
    if params.maxTokens == 0 || params.minTokens > params.maxTokens {
      return Some(InvalidRequest);
    }
    if params.logprobs.Some? && params.logprobs.value > MAX_LOGPROBS {
      return Some(InvalidRequest);
    }
    if |params.stopSequences| > MAX_STOP_SEQUENCES {
      return Some(InvalidRequest);
    }
    for i := 0 to |params.stopSequences|
      invariant forall j :: 0 <= j < i ==> params.stopSequences[j] != ""
    {
      if params.stopSequences[i] == "" {
        return Some(InvalidRequest);
      }
    }
    r := None;
  }

  datatype Sequence = Sequence(
    id: SequenceId,
    prompt: seq<TokenId>,
    output: seq<TokenId>,
    computed: nat,
    state: SequenceState,
    finishReason: Option<FinishReason>,
    params: SamplingParams)
  {
    function TotalLen(): nat {
      |prompt| + |output|
    }

    function RemainingPrefill(): nat {
      SaturatingSub(|prompt|, computed)
    }

    predicate PrefillComplete() {
      computed >= |prompt|
    }

    /** An illegal transition leaves the sequence untouched. */
    function TransitionTo(next: SequenceState): Sequence {
      if CanTransition(state, next) then this.(state := next) else this
    }

    function AdvancePrefill(n: nat): Sequence {
      this.(computed := Min(computed + n, |prompt|))
    }

    function PushToken(token: TokenId): Sequence {
      this.(output := output + [token])
    }

    /** The first reason wins. */
    function Finish(reason: FinishReason): Sequence {
      if state.Finished? then this else this.(state := Finished, finishReason := Some(reason))
    }

    /** Back to waiting with no prefill progress; generated tokens are kept. */
    function Preempt(): Sequence {
      if CanTransition(state, Waiting) then this.(state := Waiting, computed := 0) else this
    }

    predicate ReachedMaxTokens() {
      |output| >= params.maxTokens
    }

    predicate MayStopOnEos() {
      |output| >= params.minTokens
    }
  }

  function NewSequence(id: SequenceId, prompt: seq<TokenId>, params: SamplingParams): Sequence {
    Sequence(id, prompt, [], 0, Waiting, None, params)
  }

  /** Everything about a sequence that scheduling must leave alone. */
  function Core(q: Sequence): Sequence {
    q.(computed := 0, state := if q.state.Finished? then Finished else Waiting)
  }

  function Cores(list: seq<Sequence>): seq<Sequence> {
    seq(|list|, i requires 0 <= i < |list| => Core(list[i]))
  }

  function Ids(list: seq<Sequence>): seq<SequenceId> {
    seq(|list|, i requires 0 <= i < |list| => list[i].id)
  }

  /** Position of the first sequence with this id, or |list|. */
  function Position(list: seq<Sequence>, id: SequenceId): (pos: nat)
    ensures pos <= |list|
    ensures pos < |list| ==> list[pos].id == id
    ensures forall i :: 0 <= i < pos ==> list[i].id != id
  {
    if list == [] || list[0].id == id then 0 else 1 + Position(list[1..], id)
  }

  lemma {:induction false} SamePosition(a: seq<Sequence>, b: seq<Sequence>, id: SequenceId)
    requires Ids(a) == Ids(b)
    ensures |a| == |b| && Position(a, id) == Position(b, id)
  {
    assert |Ids(a)| == |Ids(b)|;
    if a != [] {
      assert Ids(a)[0] == Ids(b)[0];
      if a[0].id != id {
        assert Ids(a[1..]) == Ids(a)[1..] && Ids(b[1..]) == Ids(b)[1..];
        SamePosition(a[1..], b[1..], id);
      }
    }
  }

  function RemoveAt(list: seq<Sequence>, pos: nat): seq<Sequence>
    requires pos < |list|
  {
    list[..pos] + list[pos + 1..]
  }

  function FinishedOnly(list: seq<Sequence>): seq<Sequence> {
    if list == [] then []
    else
      var front := FinishedOnly(list[..|list| - 1]);
      if list[|list| - 1].state.Finished? then front + [list[|list| - 1]] else front
  }

  function Unfinished(list: seq<Sequence>): seq<Sequence> {
    if list == [] then []
    else
      var front := Unfinished(list[..|list| - 1]);
      if list[|list| - 1].state.Finished? then front else front + [list[|list| - 1]]
  }

  /** The sequences whose id is in `ids`, and the others, in order. */
  function Selected(list: seq<Sequence>, ids: set<SequenceId>): seq<Sequence> {
    if list == [] then []
    else
      var front := Selected(list[..|list| - 1], ids);
      if list[|list| - 1].id in ids then front + [list[|list| - 1]] else front
  }

  function Rejected(list: seq<Sequence>, ids: set<SequenceId>): seq<Sequence> {
    if list == [] then []
    else
      var front := Rejected(list[..|list| - 1], ids);
      if list[|list| - 1].id in ids then front else front + [list[|list| - 1]]
  }
}
