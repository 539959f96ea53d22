// Over all engine runs: what each caller's event stream looks like, and who is still active.
module StreamProtocol {
  import opened Prelude
  import opened KvCache
  import opened Sequences
  import opened Scheduling
  import opened SchedulerOrder
  import opened SchedulerInvariant
  import opened EngineSteps

  // ----- Streams -----

  /** Why a request ends with its n-th token, if it does: a stop token once allowed, else the length limit. */
  ghost function ReasonAt(params: SamplingParams, tokens: seq<TokenId>, n: nat, eosIds: seq<TokenId>): Option<FinishReason>
    requires 0 < n <= |tokens|
  {
    var t := tokens[n - 1];
    if (t in eosIds || t in params.stopTokenIds) && n >= params.minTokens then Some(FinishReason.Stop)
    else if n >= params.maxTokens then Some(FinishReason.Length)
    else None
  }

  /** No token so far ends the request. */
  ghost predicate Unstopped(params: SamplingParams, tokens: seq<TokenId>, n: nat, eosIds: seq<TokenId>)
    requires n <= |tokens|
  {
    forall k :: 0 < k <= n ==> ReasonAt(params, tokens, k, eosIds) == None
  }

  ghost function StreamOf(tokens: seq<TokenId>): seq<Event> {
    seq(|tokens|, i requires 0 <= i < |tokens| => Token(tokens[i], i))
  }

  /** A request still running has streamed exactly these tokens. */
  ghost predicate Open(c: Client, tokens: seq<TokenId>, eosIds: seq<TokenId>) {
    && ValidParams(c.params)
    && c.received == StreamOf(tokens)
    && Unstopped(c.params, tokens, |tokens|, eosIds)
  }

  /** The last event: the count is exact when generation ended by itself. */
  ghost predicate GoodEnd(c: Client, tokens: seq<TokenId>, end: Event, eosIds: seq<TokenId>) {
    && end.Done?
    && end.promptTokens == |c.prompt|
    && match end.reason
       case Stop => |tokens| > 0 && end.completionTokens == |tokens|
                    && ReasonAt(c.params, tokens, |tokens|, eosIds) == Some(FinishReason.Stop)
       case Length => |tokens| > 0 && end.completionTokens == |tokens|
                      && ReasonAt(c.params, tokens, |tokens|, eosIds) == Some(FinishReason.Length)
       case Cancelled => end.completionTokens == 0 && Unstopped(c.params, tokens, |tokens|, eosIds)
       case Timeout => end.completionTokens in {0, |tokens|} && Unstopped(c.params, tokens, |tokens|, eosIds)
       case _ => false
  }

  ghost predicate StreamIs(c: Client, tokens: seq<TokenId>, end: Option<Event>, eosIds: seq<TokenId>) {
    && ValidParams(c.params)
    && (|tokens| > 0 ==> Unstopped(c.params, tokens, |tokens| - 1, eosIds))
    && match end
       case None => c.received == StreamOf(tokens)
       case Some(last) => c.received == StreamOf(tokens) + [last] && GoodEnd(c, tokens, last, eosIds)
  }

  /** Tokens numbered from zero, none of them after one that ends the request, then at most one last event. */
  ghost predicate Good(c: Client, eosIds: seq<TokenId>) {
    exists tokens, end :: StreamIs(c, tokens, end, eosIds)
  }

  // ----- The invariant -----

  /** An unfinished request is active, and its caller has received its output so far. */
  ghost predicate Owed(e: EngineState, q: Sequence) {
    && q.id in e.active && q.id in e.clients
    && e.active[q.id] == |q.prompt|
    && e.clients[q.id].prompt == q.prompt && e.clients[q.id].params == q.params
    && Open(e.clients[q.id], q.output, e.eosIds)
  }

  ghost predicate Known(e: EngineState, q: Sequence) {
    q.id < e.nextId && if q.state.Finished? then q.id !in e.active else Owed(e, q)
  }

  ghost predicate Live(live: seq<Sequence>, id: SequenceId) {
    exists q :: q in live && q.id == id && !q.state.Finished?
  }

  ghost predicate Serves(e: EngineState, live: seq<Sequence>) {
    && NoDuplicates(Ids(live))
    && (forall q :: q in live ==> Known(e, q))
    && (forall id :: id in e.active ==> Live(live, id))
    && (forall id :: id in e.clients ==> id < e.nextId && Good(e.clients[id], e.eosIds))
  }

  /** From `e` to `f` streams only grow, and one that is no longer active has ended for good. */
  ghost predicate Extends(e: EngineState, f: EngineState) {
    && f.eosIds == e.eosIds && e.nextId <= f.nextId
    && (forall id :: id in e.clients ==> id in f.clients && Continues(e.clients[id], f.clients[id]))
    && (forall id :: id < e.nextId && id !in e.active ==> id !in f.active)
    && (forall id :: id in e.clients && id !in e.active ==> id !in f.active && f.clients[id] == e.clients[id])
    && (forall id :: id < e.nextId && id in f.clients ==> id in e.clients)
  }

  ghost predicate Continues(c: Client, d: Client) {
    d.prompt == c.prompt && d.params == c.params && c.received <= d.received
  }

  lemma ExtendsTransitive(e: EngineState, f: EngineState, g: EngineState)
    requires Extends(e, f) && Extends(f, g)
    ensures Extends(e, g)
  {
    forall id | id in e.clients
      ensures id in g.clients && Continues(e.clients[id], g.clients[id])
    {
      assert id in f.clients && Continues(e.clients[id], f.clients[id]);
      assert Continues(f.clients[id], g.clients[id]);
    }
  }

  lemma MembersOfOrder(s: State)
    ensures forall i :: 0 <= i < |s.running| ==> Core(s.running[i]) in Order(s)
    ensures forall i :: 0 <= i < |s.waiting| ==> Core(s.waiting[i]) in Order(s)
    ensures forall q :: q in Order(s) ==>
              (exists i :: 0 <= i < |s.running| && q == Core(s.running[i]))
              || (exists i :: 0 <= i < |s.waiting| && q == Core(s.waiting[i]))
  {
    var live, n := Order(s), |s.running|;
    assert forall i :: 0 <= i < n ==> live[i] == Core(s.running[i]);
    forall i | 0 <= i < |s.waiting| ensures Core(s.waiting[i]) in live {
      assert live[n + i] == Core(s.waiting[i]);
    }
    forall q | q in live
      ensures (exists i :: 0 <= i < |s.running| && q == Core(s.running[i]))
              || (exists i :: 0 <= i < |s.waiting| && q == Core(s.waiting[i]))
    {
      var k :| 0 <= k < |live| && live[k] == q;
      if k >= n {
        assert q == Core(s.waiting[k - n]);
      }
    }
  }

  /** The requests in `gone` leave or finish; what their callers get is a good ending. */
  lemma CloseServes(e: EngineState, live: seq<Sequence>, f: EngineState, now: seq<Sequence>, gone: set<SequenceId>)
    requires Serves(e, live) && NoDuplicates(Ids(now))
    requires forall q :: q in now ==>
               if q.id in gone then q.state.Finished? && q.id < e.nextId else q in live
    requires forall q :: q in live && q.id !in gone ==> q in now
    requires f.active == e.active - gone && f.nextId == e.nextId && f.eosIds == e.eosIds
    requires f.clients.Keys == e.clients.Keys
    requires forall id :: id in e.clients ==>
               if id in gone && id in e.active then Continues(e.clients[id], f.clients[id]) && Good(f.clients[id], e.eosIds)
               else f.clients[id] == e.clients[id]
    ensures Serves(f, now) && Extends(e, f)
  {
    hide Good, Open, NoDuplicates;
    forall q | q in now ensures Known(f, q) {
      if q.id !in gone {
        assert Known(e, q);
      }
    }
    forall id | id in f.active ensures Live(now, id) {
      assert Live(live, id);
      var q :| q in live && q.id == id && !q.state.Finished?;
      assert q in now;
    }
  }

  // ----- Endings -----

  lemma EndingIsGood(c: Client, tokens: seq<TokenId>, end: Event, eosIds: seq<TokenId>)
    requires Open(c, tokens, eosIds) && GoodEnd(c, tokens, end, eosIds)
    ensures Good(c.(received := c.received + [end]), eosIds)
  {
    var d := c.(received := c.received + [end]);
    assert GoodEnd(d, tokens, end, eosIds);
    assert StreamIs(d, tokens, Some(end), eosIds);
  }

  lemma OpenIsGood(c: Client, tokens: seq<TokenId>, eosIds: seq<TokenId>)
    requires Open(c, tokens, eosIds)
    ensures Good(c, eosIds)
  {
    assert StreamIs(c, tokens, None, eosIds);
  }

  lemma {:induction false} FinishedAllEffect(e: EngineState, ids: seq<SequenceId>, reason: FinishReason, closed: set<SequenceId>)
    ensures var f := FinishedAll(e, ids, reason, closed);
            && f.s == e.s && f.eosIds == e.eosIds && f.nextId == e.nextId
            && f.active == e.active - Elements(ids) && f.clients.Keys == e.clients.Keys
            && forall id :: id in e.clients ==>
                 f.clients[id] == if id in ids && id in e.active && id !in closed
                                  then e.clients[id].(received := e.clients[id].received
                                         + [Event.Done(reason, e.active[id], OutputLen(e.s, id))])
                                  else e.clients[id]
    decreases |ids|
  {
    hide OutputLen, Elements;
    if ids == [] {
      assert e.active - Elements(ids) == e.active;
    } else {
      var mid, rest := FinishedRequest(e, ids[0], reason, closed), ids[1..];
      FinishedAllEffect(mid, rest, reason, closed);
      assert forall id :: id in ids <==> id == ids[0] || id in rest by {
        assert ids == [ids[0]] + rest;
      }
      assert Elements(ids) == {ids[0]} + Elements(rest);
      assert mid.active == e.active - {ids[0]};
      assert e.active - {ids[0]} - Elements(rest) == e.active - Elements(ids);
    }
  }

  lemma {:induction false} NobodyToNotify(e: EngineState, finished: seq<Sequence>, closed: set<SequenceId>)
    requires forall i :: 0 <= i < |finished| ==> finished[i].id !in e.active
    ensures NotifiedAll(e, finished, closed) == e
    decreases |finished|
  {
    if finished != [] {
      NobodyToNotify(e, finished[1..], closed);
    }
  }

  // ----- The calls -----

  ghost predicate Protocol(e: EngineState) {
    e.s.cache.WellFormed() && Serves(e, Order(e.s))
  }

  lemma SameOrderServes(e: EngineState, s: State)
    requires Protocol(e) && s.cache.WellFormed() && Order(s) == Order(e.s)
    ensures Protocol(e.(s := s)) && Extends(e, e.(s := s))
  {
    hide Order;
    CloseServes(e, Order(e.s), e.(s := s), Order(s), {});
  }

  lemma SubmitKeeps(e: EngineState, prompt: seq<TokenId>, params: SamplingParams)
    requires Protocol(e)
    ensures Protocol(Submitted(e, prompt, params).0) && Extends(e, Submitted(e, prompt, params).0)
  {
    hide AddCheck, NoDuplicates;
    var f := Submitted(e, prompt, params).0;
    var live, q := Order(e.s), NewSequence(e.nextId, prompt, params);
    if f.s == e.s {
      assert forall q :: q in live ==> Known(e, q);
    } else {
      CoresOfConcat(e.s.waiting, [q]);
      assert Cores([q]) == [q];
      assert Order(f.s) == live + [q];
      IdsPush(live, q);
      SubmittedServes(e, live, f, q);
    }
  }

  lemma SubmittedServes(e: EngineState, live: seq<Sequence>, f: EngineState, q: Sequence)
    requires Serves(e, live) && q == NewSequence(e.nextId, q.prompt, q.params) && ValidParams(q.params)
    requires f.active == e.active[q.id := |q.prompt|] && f.nextId == q.id + 1 && f.eosIds == e.eosIds
    requires f.clients == e.clients[q.id := Client(q.prompt, q.params, [])]
    ensures Serves(f, live + [q]) && Extends(e, f)
  {
    hide Good, Open, NoDuplicates;
    assert Known(f, q) && Good(f.clients[q.id], f.eosIds) by {
      NewIsOpen(q, f.eosIds);
    }
    var now := live + [q];
    IdsPush(live, q);
    assert q.id !in Ids(live) by {
      forall i | 0 <= i < |live| ensures live[i].id != q.id {
        assert Known(e, live[i]);
      }
    }
    NoDuplicatesPush(Ids(live), q.id);
    forall r | r in now ensures Known(f, r) {
      if r in live {
        assert Known(e, r);
      }
    }
    forall id | id in f.active ensures Live(now, id) {
      if id == q.id {
        assert q in now;
      } else {
        assert Live(live, id);
        var r :| r in live && r.id == id && !r.state.Finished?;
        assert r in now;
      }
    }
    forall id | id in e.active ensures id < e.nextId {
      assert Live(live, id);
      var r :| r in live && r.id == id && !r.state.Finished?;
      assert Known(e, r);
    }
  }

  lemma NewIsOpen(q: Sequence, eosIds: seq<TokenId>)
    requires q.output == [] && ValidParams(q.params)
    ensures Open(Client(q.prompt, q.params, []), q.output, eosIds)
    ensures Good(Client(q.prompt, q.params, []), eosIds)
  {
    var c := Client(q.prompt, q.params, []);
    assert StreamOf([]) == [];
    OpenIsGood(c, [], eosIds);
  }

  // ----- Cancellation -----

  lemma RetiredEffect(e: EngineState, q: Sequence, reason: FinishReason, completion: nat, closed: set<SequenceId>)
    requires Known(e, q)
    requires !q.state.Finished? ==> GoodEnd(e.clients[q.id], q.output, Event.Done(reason, |q.prompt|, completion), e.eosIds)
    ensures var f := Retired(e, q.id, reason, completion, closed);
            && f.s == e.s && f.active == e.active - {q.id} && f.nextId == e.nextId && f.eosIds == e.eosIds
            && f.clients.Keys == e.clients.Keys
            && (forall id :: id in e.clients && id != q.id ==> f.clients[id] == e.clients[id])
            && (q.state.Finished? ==> f.clients == e.clients)
            && (!q.state.Finished? ==> Continues(e.clients[q.id], f.clients[q.id]) && Good(f.clients[q.id], e.eosIds))
  {
    hide Good, Open, GoodEnd, StreamOf;
    if !q.state.Finished? {
      EndingIsGood(e.clients[q.id], q.output, Event.Done(reason, |q.prompt|, completion), e.eosIds);
      OpenIsGood(e.clients[q.id], q.output, e.eosIds);
    }
  }

  /** `now` is `live` without the requests in `gone`. */
  ghost predicate Leaves(live: seq<Sequence>, now: seq<Sequence>, gone: set<SequenceId>) {
    && NoDuplicates(Ids(now))
    && (forall q :: q in now ==> q in live && q.id !in gone)
    && (forall q :: q in live && q.id !in gone ==> q in now)
  }

  lemma OneLeaves(live: seq<Sequence>, now: seq<Sequence>, pos: nat)
    requires NoDuplicates(Ids(live)) && pos < |live| && now == live[..pos] + live[pos + 1..]
    ensures Leaves(live, now, {live[pos].id})
  {
    forall i, j | 0 <= i < j < |now| ensures Ids(now)[i] != Ids(now)[j] {
      assert now[i] == live[if i < pos then i else i + 1] && now[j] == live[if j < pos then j else j + 1];
      assert Ids(live)[if i < pos then i else i + 1] != Ids(live)[if j < pos then j else j + 1];
    }
    forall q | q in live && q.id != live[pos].id ensures q in now {
      var k :| 0 <= k < |live| && live[k] == q;
      assert q == now[if k < pos then k else k - 1];
    }
    forall q | q in now ensures q in live && q.id != live[pos].id {
      var k :| 0 <= k < |now| && now[k] == q;
      var j := if k < pos then k else k + 1;
      assert q == live[j];
      assert Ids(live)[j] != Ids(live)[pos];
    }
  }

  /** Where a cancelled request was; the others stay. */
  lemma CancelledStateEffect(s: State, id: SequenceId) returns (q: Sequence)
    requires NoDuplicates(Ids(Order(s)))
    requires CancelledState(s, id).1
    ensures q in Order(s) && q.id == id
    ensures Leaves(Order(s), Order(CancelledState(s, id).0), {id})
  {
    hide Freed, RemoveAt, NoDuplicates, Leaves;
    var live, t := Order(s), CancelledState(s, id).0;
    var w, r := Position(s.waiting, id), Position(s.running, id);
    var pos := if w < |s.waiting| then |s.running| + w else r;
    q := live[pos];
    assert Order(t) == live[..pos] + live[pos + 1..] by {
      if w < |s.waiting| {
        RemoveAtCores(s.waiting, w);
      } else {
        RemoveAtCores(s.running, r);
      }
    }
    OneLeaves(live, Order(t), pos);
  }

  lemma RemoveAtCores(list: seq<Sequence>, pos: nat)
    requires pos < |list|
    ensures Cores(RemoveAt(list, pos)) == Cores(list)[..pos] + Cores(list)[pos + 1..]
  {
  }

  lemma CancelKeeps(e: EngineState, id: SequenceId, closed: set<SequenceId>)
    requires Protocol(e)
    ensures Protocol(CancelledRequest(e, id, closed)) && Extends(e, CancelledRequest(e, id, closed))
  {
    hide Order, CancelledState, NoDuplicates, Good, Unstopped, StreamOf;
    var (s, found) := CancelledState(e.s, id);
    var live, f := Order(e.s), CancelledRequest(e, id, closed);
    if found {
      var q := CancelledStateEffect(e.s, id);
      CancelledStateWellFormed(e.s, id);
      assert Known(e, q);
      RetiredEffect(e.(s := s), q, FinishReason.Cancelled, 0, closed);
      CloseServes(e, live, f, Order(s), {id});
    } else {
      SameOrderServes(e, e.s);
    }
  }

  // ----- Timeouts and reaping -----

  lemma UniqueById(live: seq<Sequence>, q: Sequence, r: Sequence)
    requires NoDuplicates(Ids(live)) && q in live && r in live && q.id == r.id
    ensures q == r
  {
    var i :| 0 <= i < |live| && live[i] == q;
    var j :| 0 <= j < |live| && live[j] == r;
    assert Ids(live)[i] == Ids(live)[j];
  }

  lemma FinishInMembers(list: seq<Sequence>, late: set<SequenceId>)
    ensures Ids(FinishIn(list, late, Timeout)) == Ids(list)
    ensures forall i :: 0 <= i < |list| ==>
              var q := FinishIn(list, late, Timeout)[i];
              if list[i].id in late then Core(q).state.Finished? && q.output == list[i].output else q == list[i]
  {
  }

  lemma {:induction false} RejectedMembers(list: seq<Sequence>, late: set<SequenceId>)
    ensures forall i :: 0 <= i < |Rejected(list, late)| ==>
              Rejected(list, late)[i] in list && Rejected(list, late)[i].id !in late
    ensures forall q :: q in list && q.id !in late ==> q in Rejected(list, late)
  {
    if list != [] {
      RejectedMembers(list[..|list| - 1], late);
    }
  }

  lemma {:induction false} SelectedMembers(list: seq<Sequence>, late: set<SequenceId>)
    ensures forall id :: id in Ids(Selected(list, late)) <==> id in late && id in Ids(list)
  {
    if list != [] {
      var front, q := list[..|list| - 1], list[|list| - 1];
      SelectedMembers(front, late);
      assert Ids(list) == Ids(front) + [q.id];
      IdsPush(Selected(front, late), q);
    }
  }

  /** The late requests, running or waiting, are reported; the others are as before. */
  lemma ExpiredIds(s: State, late: set<SequenceId>)
    requires NoDuplicates(Ids(Order(s)))
    ensures forall id :: id in Expired(s, late).1 <==> id in late && id in Ids(Order(s))
    ensures NoDuplicates(Ids(Order(Expired(s, late).0)))
  {
    hide NoDuplicates, Selected, Rejected, Order;
    var t := Expired(s, late).0;
    SelectedMembers(s.running, late);
    SelectedMembers(s.waiting, late);
    IdsOfOrder(s);
    IdsOfOrder(t);
    FinishInMembers(s.running, late);
    RejectedIsWithout(s.waiting, late);
    IdsAreDistinct(s);
    var gone := IdSet(Selected(s.waiting, late));
    DepartFromBack(Ids(s.running), Ids(s.waiting), gone);
    WithoutIsSublist(Ids(s.running) + Ids(s.waiting), gone);
  }

  lemma ExpiredMembers(s: State, late: set<SequenceId>)
    ensures forall q :: q in Order(Expired(s, late).0) ==>
              if q.id in late then q.state.Finished? && q.id in Ids(Order(s)) else q in Order(s)
    ensures forall q :: q in Order(s) && q.id !in late ==> q in Order(Expired(s, late).0)
  {
    hide Selected, Rejected, Order, Core, FinishIn;
    var t := Expired(s, late).0;
    MembersOfOrder(s);
    MembersOfOrder(t);
    FinishInMembers(s.running, late);
    RejectedMembers(s.waiting, late);
    IdsOfOrder(s);
    CoreKeepsId(s.running);
    CoreKeepsId(s.waiting);
    CoreKeepsId(t.running);
    CoreKeepsId(t.waiting);
    forall q | q in Order(t)
      ensures if q.id in late then q.state.Finished? && q.id in Ids(Order(s)) else q in Order(s)
    {
      if i :| 0 <= i < |t.running| && q == Core(t.running[i]) {
        assert Ids(s.running)[i] == Ids(t.running)[i] == q.id;
      } else {
        var i :| 0 <= i < |t.waiting| && q == Core(t.waiting[i]);
        assert t.waiting[i] in s.waiting;
      }
    }
    forall q | q in Order(s) && q.id !in late ensures q in Order(t) {
      if i :| 0 <= i < |s.running| && q == Core(s.running[i]) {
        assert t.running[i] == s.running[i];
      } else {
        var i :| 0 <= i < |s.waiting| && q == Core(s.waiting[i]);
        assert s.waiting[i] in t.waiting;
      }
    }
  }

  lemma CoreKeepsId(list: seq<Sequence>)
    ensures forall i :: 0 <= i < |list| ==> Core(list[i]).id == list[i].id
  {
  }

  /** A request that times out reports all its tokens, or none if it was waiting. */
  lemma ExpiredOutput(s: State, late: set<SequenceId>, q: Sequence)
    requires NoDuplicates(Ids(Order(s))) && q in Order(s)
    ensures OutputLen(Expired(s, late).0, q.id) in {0, |q.output|}
  {
    hide Selected, Rejected, Order, FinishIn, NoDuplicates;
    var t := Expired(s, late).0;
    var pos := Position(t.running, q.id);
    if pos < |t.running| {
      FinishInMembers(s.running, late);
      MembersOfOrder(s);
      assert Ids(t.running)[pos] == Ids(s.running)[pos];
      UniqueById(Order(s), q, Core(s.running[pos]));
    }
  }

  lemma ExpireKeeps(e: EngineState, late: set<SequenceId>, closed: set<SequenceId>)
    requires Protocol(e)
    ensures Protocol(ExpiredRequests(e, late, closed)) && Extends(e, ExpiredRequests(e, late, closed))
  {
    hide Expired, Order, NoDuplicates, Good, OutputLen, Unstopped, StreamOf;
    var (s, ids) := Expired(e.s, late);
    var f, live := ExpiredRequests(e, late, closed), Order(e.s);
    ExpiredRequestsKeepCache(e, late, closed);
    ExpiredIds(e.s, late);
    ExpiredMembers(e.s, late);
    FinishedAllEffect(e.(s := s), ids, Timeout, closed);
    forall id | id in e.clients
      ensures if id in Elements(ids) && id in e.active
              then Continues(e.clients[id], f.clients[id]) && Good(f.clients[id], e.eosIds)
              else f.clients[id] == e.clients[id]
    {
      if id in ids && id in e.active && id !in closed {
        assert Live(live, id);
        var q :| q in live && q.id == id && !q.state.Finished?;
        assert Known(e, q);
        ExpiredOutput(e.s, late, q);
        EndingIsGood(e.clients[id], q.output, Event.Done(Timeout, e.active[id], OutputLen(s, id)), e.eosIds);
      }
    }
    assert forall q :: q in Order(s) && q.id in Elements(ids) ==> q.state.Finished? && q.id < e.nextId by {
      forall q | q in Order(s) && q.id in Elements(ids) ensures q.state.Finished? && q.id < e.nextId {
        KnownIds(e, live, q.id);
      }
    }
    forall q | q in live && q.id !in Elements(ids) ensures q in Order(s) {
      if q.id in late {
        InIds(live, q);
      }
    }
    CloseServes(e, live, f, Order(s), Elements(ids));
  }

  lemma InIds(live: seq<Sequence>, q: Sequence)
    requires q in live
    ensures q.id in Ids(live)
  {
    var i :| 0 <= i < |live| && live[i] == q;
    assert Ids(live)[i] == q.id;
  }

  lemma KnownIds(e: EngineState, live: seq<Sequence>, id: SequenceId)
    requires Serves(e, live) && id in Ids(live)
    ensures id < e.nextId
  {
    var i :| 0 <= i < |live| && Ids(live)[i] == id;
    assert Known(e, live[i]);
  }

  lemma {:induction false} FinishedMembers(list: seq<Sequence>)
    ensures forall i :: 0 <= i < |FinishedOnly(list)| ==> FinishedOnly(list)[i] in list && FinishedOnly(list)[i].state.Finished?
    ensures forall q :: q in list && !q.state.Finished? ==> q in Unfinished(list)
  {
    if list != [] {
      FinishedMembers(list[..|list| - 1]);
    }
  }

  lemma ReapedIdsGo(s: State)
    requires NoDuplicates(Ids(Order(s)))
    ensures NoDuplicates(Ids(Order(Reaped(s).0)))
    ensures forall x :: x in Ids(Order(Reaped(s).0)) ==> x !in IdSet(FinishedOnly(s.running))
  {
    hide FinishedOnly, Unfinished, Order, FreedAll, IdSet, Without;
    ReapedIds(s);
    IdsOfOrder(s);
    IdsOfOrder(Reaped(s).0);
    WithoutIsSublist(Ids(s.running) + Ids(s.waiting), IdSet(FinishedOnly(s.running)));
  }

  lemma ReapedWasThere(s: State, q: Sequence)
    requires q in Order(Reaped(s).0)
    ensures q in Order(s)
  {
    hide FinishedOnly, Unfinished, Order, FreedAll, Core, IdSet;
    var t := Reaped(s).0;
    MembersOfOrder(s);
    MembersOfOrder(t);
    UnfinishedSplits(s.running);
    if i :| 0 <= i < |t.running| && q == Core(t.running[i]) {
      assert t.running[i] in s.running;
    }
  }

  lemma UnreapedStays(s: State, q: Sequence)
    requires q in Order(s) && q.id !in IdSet(FinishedOnly(s.running))
    ensures q in Order(Reaped(s).0)
  {
    hide FinishedOnly, Unfinished, Order, FreedAll, Core, IdSet;
    var t := Reaped(s).0;
    MembersOfOrder(s);
    MembersOfOrder(t);
    CoreKeepsId(s.running);
    if i :| 0 <= i < |s.running| && q == Core(s.running[i]) {
      StaysUnlessFinished(s.running, i);
    }
  }

  /** Reaping drops the finished requests of the running set and nothing else. */
  lemma ReapedLeaves(s: State)
    requires NoDuplicates(Ids(Order(s)))
    ensures Leaves(Order(s), Order(Reaped(s).0), IdSet(FinishedOnly(s.running)))
  {
    hide NoDuplicates, FinishedOnly, Order, Reaped, IdSet;
    var t, gone := Reaped(s).0, IdSet(FinishedOnly(s.running));
    ReapedIdsGo(s);
    forall q | q in Order(t) ensures q in Order(s) && q.id !in gone {
      InIds(Order(t), q);
      ReapedWasThere(s, q);
    }
    forall q | q in Order(s) && q.id !in gone ensures q in Order(t) {
      UnreapedStays(s, q);
    }
  }

  lemma {:induction false} StaysUnlessFinished(list: seq<Sequence>, i: nat)
    requires i < |list|
    ensures list[i] in Unfinished(list) || list[i].id in IdSet(FinishedOnly(list))
  {
    hide IdSet;
    var front, q := list[..|list| - 1], list[|list| - 1];
    IdSetPush(FinishedOnly(front), q);
    if i < |list| - 1 {
      StaysUnlessFinished(front, i);
    }
  }

  /** Whoever is reaped has been told: reaping changes the queues and the cache alone. */
  lemma ReapTellsNobody(e: EngineState, closed: set<SequenceId>)
    requires Protocol(e)
    ensures ReapedRequests(e, closed) == e.(s := Reaped(e.s).0)
    ensures forall q :: q in Reaped(e.s).1 ==> q.id !in e.active
  {
    hide Protocol, FinishedOnly, Unfinished, FreedAll;
    var (s, finished) := Reaped(e.s);
    FinishedMembers(e.s.running);
    forall i | 0 <= i < |finished| ensures finished[i].id !in e.active {
      FinishedIsSettled(e, finished[i]);
    }
    NobodyToNotify(e.(s := s), finished, closed);
  }

  lemma ReapKeeps(e: EngineState, closed: set<SequenceId>)
    requires Protocol(e)
    ensures Protocol(ReapedRequests(e, closed)) && Extends(e, ReapedRequests(e, closed))
  {
    hide NoDuplicates, FinishedOnly, Unfinished, Order, FreedAll, Core, Good, Open, IdSet;
    var (s, finished) := Reaped(e.s);
    FreedAllWellFormed(e.s.cache, finished);
    ReapTellsNobody(e, closed);
    ReapedLeaves(e.s);
    var gone := IdSet(finished);
    assert gone !! e.active.Keys by {
      forall id | id in gone ensures id !in e.active {
        InFinished(finished, id);
      }
    }
    assert e.active - gone == e.active;
    CloseServes(e, Order(e.s), e.(s := s), Order(s), gone);
  }

  lemma InFinished(list: seq<Sequence>, id: SequenceId)
    requires id in IdSet(list)
    ensures exists i :: 0 <= i < |list| && list[i].id == id
  {
  }

  lemma FinishedIsSettled(e: EngineState, q: Sequence)
    requires Protocol(e) && q in e.s.running && q.state.Finished?
    ensures q.id !in e.active
  {
    hide NoDuplicates, Order, Good;
    MembersOfOrder(e.s);
    var i :| 0 <= i < |e.s.running| && e.s.running[i] == q;
    assert Known(e, Core(e.s.running[i]));
  }

  // ----- Tokens -----

  lemma UpdateServes(e: EngineState, live: seq<Sequence>, f: EngineState, pos: nat, q: Sequence)
    requires Serves(e, live) && pos < |live| && q.id == live[pos].id
    requires Known(f, q) && f.nextId == e.nextId && f.eosIds == e.eosIds && f.clients.Keys == e.clients.Keys
    requires forall id :: id in e.clients && id != q.id ==> f.clients[id] == e.clients[id]
    requires f.active - {q.id} == e.active - {q.id}
    requires q.id in e.active && q.id in e.clients
    requires Good(f.clients[q.id], e.eosIds) && Continues(e.clients[q.id], f.clients[q.id])
    ensures Serves(f, live[pos := q]) && Extends(e, f)
  {
    hide Good, Open, NoDuplicates;
    var now := live[pos := q];
    assert Ids(now) == Ids(live);
    forall id ensures id != q.id ==> (id in f.active <==> id in e.active) && (id in e.active ==> f.active[id] == e.active[id]) {
      if id != q.id {
        assert id in f.active <==> id in f.active - {q.id};
        assert id in e.active <==> id in e.active - {q.id};
      }
    }
    forall r | r in now ensures Known(f, r) {
      if r != q {
        OtherMember(live, pos, q, r);
        assert Known(e, r);
      }
    }
    forall id | id in f.active ensures Live(now, id) {
      if id == q.id {
        assert now[pos] == q;
      } else {
        assert Live(live, id);
        var r :| r in live && r.id == id && !r.state.Finished?;
        var i :| 0 <= i < |live| && live[i] == r;
        assert now[i] == r;
      }
    }
    forall id | id in e.clients ensures id < e.nextId && Good(f.clients[id], f.eosIds) {
      if id != q.id {
        assert Good(e.clients[id], e.eosIds);
      }
    }
  }

  lemma OtherMember(live: seq<Sequence>, pos: nat, q: Sequence, r: Sequence)
    requires pos < |live| && r in live[pos := q] && r != q && Serving(live) && q.id == live[pos].id
    ensures r in live && r.id != q.id
  {
    var i :| 0 <= i < |live| && live[pos := q][i] == r;
    assert live[i] == r && i != pos;
    assert Ids(live)[i] != Ids(live)[pos];
  }

  ghost predicate Serving(live: seq<Sequence>) {
    NoDuplicates(Ids(live))
  }

  lemma ReasonIsReasonAt(q: Sequence, token: TokenId, eosIds: seq<TokenId>)
    ensures var tokens := q.output + [token];
            WithToken(q, token, eosIds).1 == ReasonAt(q.params, tokens, |tokens|, eosIds)
    ensures var (r, reason) := WithToken(q, token, eosIds);
            && r.id == q.id && r.prompt == q.prompt && r.params == q.params && r.output == q.output + [token]
            && (!q.state.Finished? ==> r.state == if reason.Some? then Finished else q.state)
  {
  }

  lemma UnstoppedPush(params: SamplingParams, tokens: seq<TokenId>, token: TokenId, eosIds: seq<TokenId>)
    requires Unstopped(params, tokens, |tokens|, eosIds)
    ensures Unstopped(params, tokens + [token], |tokens|, eosIds)
    ensures ReasonAt(params, tokens + [token], |tokens| + 1, eosIds) == None
            ==> Unstopped(params, tokens + [token], |tokens| + 1, eosIds)
  {
    forall k | 0 < k <= |tokens| ensures ReasonAt(params, tokens + [token], k, eosIds) == None {
      assert ReasonAt(params, tokens, k, eosIds) == None;
    }
  }

  lemma StreamOfPush(tokens: seq<TokenId>, token: TokenId)
    ensures StreamOf(tokens + [token]) == StreamOf(tokens) + [Token(token, |tokens|)]
  {
  }

  /** An open stream takes its next token, and is then open, or may end, for the reason found. */
  lemma TokenExtendsStream(c: Client, tokens: seq<TokenId>, token: TokenId, eosIds: seq<TokenId>)
    requires Open(c, tokens, eosIds)
    ensures var more := tokens + [token];
            var d := c.(received := c.received + [Token(token, |tokens|)]);
            && Good(d, eosIds)
            && match ReasonAt(c.params, more, |more|, eosIds)
               case None => Open(d, more, eosIds)
               case Some(reason) =>
                 Good(d.(received := d.received + [Event.Done(reason, |c.prompt|, |more|)]), eosIds)
  {
    hide StreamOf;
    var more, d := tokens + [token], c.(received := c.received + [Token(token, |tokens|)]);
    UnstoppedPush(c.params, tokens, token, eosIds);
    StreamOfPush(tokens, token);
    assert StreamIs(d, more, None, eosIds);
    match ReasonAt(c.params, more, |more|, eosIds)
    case None =>
    case Some(reason) =>
      var end := Event.Done(reason, |c.prompt|, |more|);
      var ended := d.(received := d.received + [end]);
      assert GoodEnd(ended, more, end, eosIds);
      assert StreamIs(ended, more, Some(end), eosIds);
  }

  lemma TokenedOrder(s: State, pos: nat, token: TokenId, eosIds: seq<TokenId>)
    requires pos < |s.running| && Position(s.running, s.running[pos].id) == pos
    ensures Order(Tokened(s, s.running[pos].id, token, eosIds).0)
            == Order(s)[pos := Core(WithToken(s.running[pos], token, eosIds).0)]
  {
    hide WithToken, Core;
  }

  lemma StreamedKeeps(e: EngineState, pos: nat, token: TokenId, taken: bool, closed: set<SequenceId>)
    requires Protocol(e) && pos < |e.s.running| && Position(e.s.running, e.s.running[pos].id) == pos
    requires e.s.running[pos].id in e.active
    ensures var f := Streamed(e, e.s.running[pos], token, taken, closed);
            Protocol(f) && Extends(e, f)
  {
    hide Order, NoDuplicates, WithToken, Good, Open, Position, ReasonAt, CancelledState;
    var q := e.s.running[pos];
    var live := Order(e.s);
    var (s, reason) := Tokened(e.s, q.id, token, e.eosIds);
    var r := WithToken(q, token, e.eosIds).0;
    var f := Streamed(e, q, token, taken, closed);
    MembersOfOrder(e.s);
    OrderAt(e.s, pos);
    assert Known(e, Core(q)) && !q.state.Finished? && Owed(e, Core(q));
    TokenedOrder(e.s, pos, token, e.eosIds);
    ReasonIsReasonAt(q, token, e.eosIds);
    OpenLength(e, Core(q));
    if taken {
      TokenExtendsStream(e.clients[q.id], q.output, token, e.eosIds);
      PositionUnchanged(e.s.running, pos, r, q.id);
      UpdateServes(e, live, f, pos, Core(r));
    } else {
      AbandonKeeps(e, s, pos, Core(r));
    }
  }

  lemma OrderAt(s: State, pos: nat)
    requires pos < |s.running|
    ensures |Order(s)| >= |s.running| && Order(s)[pos] == Core(s.running[pos])
  {
  }

  lemma OpenLength(e: EngineState, q: Sequence)
    requires Owed(e, q)
    ensures SaturatingSub(q.TotalLen(), e.active[q.id]) == |q.output|
  {
  }

  /** A caller that is gone: its request leaves and its stream stays as it was. */
  lemma AbandonKeeps(e: EngineState, s: State, pos: nat, q: Sequence)
    requires Protocol(e) && s.cache == e.s.cache
    requires pos < |Order(e.s)| && q.id == Order(e.s)[pos].id && Order(s) == Order(e.s)[pos := q]
    requires pos < |s.running| && s.running[pos].id == q.id
    ensures var f := Abandoned(e.(s := s), q.id);
            Protocol(f) && Extends(e, f)
  {
    hide Order, NoDuplicates, Good, CancelledState;
    var live, now := Order(e.s), Order(CancelledState(s, q.id).0);
    var f := Abandoned(e.(s := s), q.id);
    assert Ids(Order(s)) == Ids(live);
    CancelFinds(s, pos);
    var _ := CancelledStateEffect(s, q.id);
    CancelledStateWellFormed(s, q.id);
    forall r | r in now ensures r in live && r.id != q.id {
      OtherMember(live, pos, q, r);
    }
    forall r | r in live && r.id != q.id ensures r in now {
      var i :| 0 <= i < |live| && live[i] == r;
      assert Order(s)[i] == r;
    }
    CloseServes(e, live, f, now, {q.id});
  }

  lemma CancelFinds(s: State, pos: nat)
    requires pos < |s.running|
    ensures CancelledState(s, s.running[pos].id).1
  {
    hide Freed;
  }

  lemma RowKeeps(e: EngineState, row: Row, closed: set<SequenceId>)
    requires Protocol(e)
    ensures Protocol(EmittedRow(e, row, closed).0) && Extends(e, EmittedRow(e, row, closed).0)
  {
    hide Serves, Order, Streamed, Position, Extends;
    SameOrderServes(e, e.s);
    var pos := Position(e.s.running, row.id);
    if pos < |e.s.running| && row.id in e.active && row.token.Some? {
      StreamedKeeps(e, pos, row.token.value, row.taken, closed);
    }
  }

  lemma NothingHappens(e: EngineState)
    requires Protocol(e)
    ensures Extends(e, e)
  {
    SameOrderServes(e, e.s);
  }

  lemma {:induction false} RowsKeep(e: EngineState, rows: seq<Row>, closed: set<SequenceId>)
    requires Protocol(e)
    ensures Protocol(EmittedRows(e, rows, closed).0) && Extends(e, EmittedRows(e, rows, closed).0)
    decreases |rows|
  {
    hide Protocol, Extends, EmittedRow;
    if rows == [] {
      NothingHappens(e);
    } else {
      RowKeeps(e, rows[0], closed);
      var (next, ok) := EmittedRow(e, rows[0], closed);
      if ok {
        RowsKeep(next, rows[1..], closed);
        ExtendsTransitive(e, next, EmittedRows(next, rows[1..], closed).0);
      }
    }
  }

  lemma {:induction false} CommitAllKeepsOrder(s: State, scheduled: seq<Scheduled>)
    requires s.cache.WellFormed()
    ensures CommitAll(s, scheduled).cache.WellFormed()
    ensures Order(CommitAll(s, scheduled)) == Order(s)
    decreases |scheduled|
  {
    hide Committed, Order;
    if scheduled != [] {
      CommittedStateWellFormed(s, scheduled[0].id);
      OrderIgnoresCache(s, CommittedState(s, scheduled[0].id).cache);
      CommitAllKeepsOrder(if scheduled[0].isPrefill then CommittedState(s, scheduled[0].id) else s, scheduled[1..]);
    }
  }

  lemma ConcludeKeeps(e: EngineState, scheduled: seq<Scheduled>, rows: seq<Row>, closed: set<SequenceId>)
    requires Protocol(e) && e.s.cache.WellFormed()
    ensures var f := Concluded(e, scheduled, rows, closed).0;
            Protocol(f) && Extends(e, f)
  {
    hide Serves, Extends, EmittedRows, ReapedRequests, CommitAll;
    RowsKeep(e, rows, closed);
    var (emitted, ok) := EmittedRows(e, rows, closed);
    if ok {
      CommitAllKeepsOrder(emitted.s, scheduled);
      var published := emitted.(s := CommitAll(emitted.s, scheduled));
      SameOrderServes(emitted, published.s);
      ReapKeeps(published, closed);
      ExtendsTransitive(e, emitted, published);
      ExtendsTransitive(e, published, ReapedRequests(published, closed));
    }
  }

  lemma StepKeeps(e: EngineState, input: StepInput)
    requires Protocol(e) && e.s.cache.WellFormed()
    ensures var f := Stepped(e, input).0;
            Protocol(f) && Extends(e, f)
  {
    hide Serves, Extends, ExpiredRequests, Schedule, BuildBatch, ReapedRequests, Concluded;
    ExpireKeeps(e, input.late, input.closed);
    var expired := ExpiredRequests(e, input.late, input.closed);
    var p := Schedule(expired.s);
    ScheduleKeepsOrder(expired.s);
    SameOrderServes(expired, p.s);
    var scheduled := expired.(s := p.s);
    ExtendsTransitive(e, expired, scheduled);
    if p.scheduled == [] {
      ReapKeeps(scheduled, input.closed);
      ExtendsTransitive(e, scheduled, ReapedRequests(scheduled, input.closed));
    } else if BuildBatch(p.s, p.scheduled) != None && input.forward != None {
      ConcludeKeeps(scheduled, p.scheduled, input.forward.value, input.closed);
      ExtendsTransitive(e, scheduled, Concluded(scheduled, p.scheduled, input.forward.value, input.closed).0);
    }
  }

  // ----- Runs -----

  datatype Call =
    | Submit(prompt: seq<TokenId>, params: SamplingParams)
    | Cancel(id: SequenceId, closed: set<SequenceId>)
    | Step(input: StepInput)

  function Called(e: EngineState, call: Call): EngineState
    requires e.s.cache.WellFormed()
  {
    match call
    case Submit(prompt, params) => Submitted(e, prompt, params).0
    case Cancel(id, closed) => CancelledRequest(e, id, closed)
    case Step(input) => Stepped(e, input).0
  }

  lemma CallKeeps(e: EngineState, call: Call)
    requires Protocol(e) && e.s.cache.WellFormed()
    ensures Protocol(Called(e, call)) && Extends(e, Called(e, call))
  {
    hide Serves, Extends, Submitted, CancelledRequest, Stepped;
    match call
    case Submit(prompt, params) => SubmitKeeps(e, prompt, params);
    case Cancel(id, closed) => CancelKeeps(e, id, closed);
    case Step(input) => StepKeeps(e, input);
  }

  ghost function RunEngine(e: EngineState, calls: seq<Call>): (f: EngineState)
    requires Protocol(e)
    ensures Protocol(f) && Extends(e, f)
    decreases |calls|
  {
    NothingHappens(e);
    if calls == [] then e
    else
      CallKeeps(e, calls[0]);
      ExtendsTransitiveFrom(e, calls);
      RunEngine(Called(e, calls[0]), calls[1..])
  }

  lemma ExtendsTransitiveFrom(e: EngineState, calls: seq<Call>)
    requires Protocol(e) && calls != []
    ensures forall f :: Protocol(Called(e, calls[0])) && Extends(Called(e, calls[0]), f) ==> Extends(e, f)
  {
    CallKeeps(e, calls[0]);
    forall f | Extends(Called(e, calls[0]), f) ensures Extends(e, f) {
      ExtendsTransitive(e, Called(e, calls[0]), f);
    }
  }

  function FreshEngine(config: Config, numBlocks: nat, blockSize: nat, prefixCaching: bool, eosIds: seq<TokenId>): EngineState
    requires blockSize > 0
  {
    NewEngine(NewState(config, NewManager(numBlocks, blockSize, prefixCaching)), eosIds)
  }

  lemma FreshEngineServes(config: Config, numBlocks: nat, blockSize: nat, prefixCaching: bool, eosIds: seq<TokenId>)
    requires blockSize > 0
    ensures Protocol(FreshEngine(config, numBlocks, blockSize, prefixCaching, eosIds))
  {
    var e := FreshEngine(config, numBlocks, blockSize, prefixCaching, eosIds);
    NewIsHealthy(config, numBlocks, blockSize, prefixCaching);
    HealthyIsWellFormed(e.s);
    assert Order(e.s) == [];
  }

  /** A state that some run of an engine reaches. */
  ghost predicate Arises(e: EngineState) {
    exists config, numBlocks: nat, blockSize: nat, prefixCaching, eosIds, calls ::
      blockSize > 0 && Protocol(FreshEngine(config, numBlocks, blockSize, prefixCaching, eosIds))
      && e == RunEngine(FreshEngine(config, numBlocks, blockSize, prefixCaching, eosIds), calls)
  }

  /**
   * Tokens numbered 0, 1, 2, ... and then at most one last event. A stream that ends by
   * itself reports exactly the tokens sent, and never more than were allowed; a cancelled one
   * reports none; one that timed out reports all or none.
   */
  ghost predicate WellFormedStream(c: Client, eosIds: seq<TokenId>) {
    var n := |c.received|;
    && (forall i :: 0 <= i < n && c.received[i].Token? ==> c.received[i].index == i)
    && (forall i :: 0 <= i < n - 1 ==> c.received[i].Token?)
    && (n > c.params.maxTokens ==> c.received[n - 1].Done? && n == c.params.maxTokens + 1)
    && (n > 0 && c.received[n - 1].Done? ==> WellFormedEnd(c, c.received[n - 1], eosIds))
  }

  ghost predicate WellFormedEnd(c: Client, end: Event, eosIds: seq<TokenId>)
    requires c.received != [] && end.Done?
    requires forall i :: 0 <= i < |c.received| - 1 ==> c.received[i].Token?
  {
    var sent := |c.received| - 1;
    && end.promptTokens == |c.prompt|
    && (end.reason in {FinishReason.Stop, Length} ==> end.completionTokens == sent <= c.params.maxTokens)
    && (end.reason == Length ==> sent == c.params.maxTokens)
    && (end.reason == FinishReason.Stop ==>
          sent > 0 && sent >= c.params.minTokens && c.received[sent - 1].token in eosIds + c.params.stopTokenIds)
    && end.reason in {FinishReason.Stop, Length, Cancelled, Timeout}
    && (end.reason == Cancelled ==> end.completionTokens == 0)
    && (end.reason == Timeout ==> end.completionTokens == 0 || end.completionTokens == sent)
  }

  lemma ShapeOfStream(c: Client, tokens: seq<TokenId>, end: Option<Event>, eosIds: seq<TokenId>)
    requires StreamIs(c, tokens, end, eosIds)
    ensures WellFormedStream(c, eosIds)
  {
    hide Unstopped;
    ShortOfTheLimit(c.params, tokens, eosIds);
    if end.Some? {
      assert c.received[|tokens|] == end.value;
      assert forall i :: 0 <= i < |tokens| ==> c.received[i] == Token(tokens[i], i);
    }
  }

  /** Over every run, through preemption, cancellation, timeouts, failed steps and lost callers. */
  lemma StreamsAreWellFormed(e: EngineState, id: SequenceId)
    requires Arises(e) && id in e.clients
    ensures WellFormedStream(e.clients[id], e.eosIds)
  {
    hide Arises, WellFormedStream, StreamIs, Known, Live;
    ArisesServes(e);
    assert Good(e.clients[id], e.eosIds);
    var tokens, end :| StreamIs(e.clients[id], tokens, end, e.eosIds);
    ShapeOfStream(e.clients[id], tokens, end, e.eosIds);
  }

  lemma ShortOfTheLimit(params: SamplingParams, tokens: seq<TokenId>, eosIds: seq<TokenId>)
    requires ValidParams(params) && (|tokens| > 0 ==> Unstopped(params, tokens, |tokens| - 1, eosIds))
    ensures |tokens| <= params.maxTokens
  {
    if |tokens| > 1 {
      assert ReasonAt(params, tokens, |tokens| - 1, eosIds) == None;
    }
  }

  ghost predicate Ended(c: Client) {
    c.received != [] && c.received[|c.received| - 1].Done?
  }

  /** Whatever happens next, a caller keeps what it received, and one that is not active receives nothing more. */
  lemma EndedStreamsStayEnded(e: EngineState, calls: seq<Call>, id: SequenceId)
    requires Protocol(e) && id in e.clients
    ensures var f := RunEngine(e, calls);
            && id in f.clients && e.clients[id].received <= f.clients[id].received
            && (id !in e.active ==> f.clients[id] == e.clients[id] && id !in f.active)
    ensures Ended(e.clients[id]) ==> id !in e.active
  {
    hide Serves, Good, RunEngine;
    var f := RunEngine(e, calls);
    assert Continues(e.clients[id], f.clients[id]);
    if id in e.active {
      ActiveIsOpen(e, id);
    }
  }

  lemma ActiveIsOpen(e: EngineState, id: SequenceId)
    requires Protocol(e) && id in e.active && id in e.clients
    ensures !Ended(e.clients[id])
  {
    hide Order, NoDuplicates, Good, Unstopped;
    assert Live(Order(e.s), id);
    var q :| q in Order(e.s) && q.id == id && !q.state.Finished?;
    assert Known(e, q);
    var n := |e.clients[id].received|;
    assert n > 0 ==> e.clients[id].received[n - 1] == Token(q.output[n - 1], n - 1);
  }

  /** Over every run, the active requests are exactly the unfinished ones, and their callers have all their output. */
  lemma ActiveAreTheUnfinished(e: EngineState)
    requires Arises(e)
    ensures forall id :: id in e.active <==>
              (exists i :: 0 <= i < |e.s.running| && e.s.running[i].id == id && !e.s.running[i].state.Finished?)
              || (exists i :: 0 <= i < |e.s.waiting| && e.s.waiting[i].id == id && !e.s.waiting[i].state.Finished?)
    ensures forall q :: q in e.s.running + e.s.waiting && !q.state.Finished? ==>
              q.id in e.clients && e.clients[q.id].received == StreamOf(q.output)
  {
    hide Arises, Protocol, StreamOf;
    ArisesServes(e);
    assert forall i :: 0 <= i < |e.s.running| ==> e.s.running[i] in e.s.running + e.s.waiting;
    assert forall i :: 0 <= i < |e.s.waiting| ==> e.s.waiting[i] in e.s.running + e.s.waiting;
    forall q | q in e.s.running + e.s.waiting && !q.state.Finished?
      ensures q.id in e.active && q.id in e.clients && e.clients[q.id].received == StreamOf(q.output)
    {
      UnfinishedIsOwed(e, q);
    }
    forall id | id in e.active
      ensures (exists i :: 0 <= i < |e.s.running| && e.s.running[i].id == id && !e.s.running[i].state.Finished?)
              || (exists i :: 0 <= i < |e.s.waiting| && e.s.waiting[i].id == id && !e.s.waiting[i].state.Finished?)
    {
      ActiveIsThere(e, id);
    }
  }

  lemma UnfinishedIsOwed(e: EngineState, q: Sequence)
    requires Protocol(e) && q in e.s.running + e.s.waiting && !q.state.Finished?
    ensures q.id in e.active && q.id in e.clients && e.clients[q.id].received == StreamOf(q.output)
  {
    hide Order, Good, StreamOf, Unstopped, NoDuplicates;
    MembersOfOrder(e.s);
    if q in e.s.running {
      var i :| 0 <= i < |e.s.running| && e.s.running[i] == q;
      assert Known(e, Core(e.s.running[i]));
    } else {
      var i :| 0 <= i < |e.s.waiting| && e.s.waiting[i] == q;
      assert Known(e, Core(e.s.waiting[i]));
    }
  }

  lemma ActiveIsThere(e: EngineState, id: SequenceId)
    requires Protocol(e) && id in e.active
    ensures (exists i :: 0 <= i < |e.s.running| && e.s.running[i].id == id && !e.s.running[i].state.Finished?)
            || (exists i :: 0 <= i < |e.s.waiting| && e.s.waiting[i].id == id && !e.s.waiting[i].state.Finished?)
  {
    hide Order, Good, NoDuplicates;
    MembersOfOrder(e.s);
    assert Live(Order(e.s), id);
  }

  lemma ArisesServes(e: EngineState)
    requires Arises(e)
    ensures Protocol(e)
  {
  }
}
