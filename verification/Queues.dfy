// Who waits, in order of service, and who runs, in order of admission.
module Queues {
  import opened Prelude
  import opened Sequences

  class WaitingQueue {
    var inner: seq<Sequence>

    constructor ()
      ensures inner == []
    {
      inner := [];
    }

    method PushBack(q: Sequence)
      modifies this
      ensures inner == old(inner) + [q]
    {
      inner := inner + [q];
    }

    method PushFront(q: Sequence)
      modifies this
      ensures inner == [q] + old(inner)
    {
      inner := [q] + inner;
    }

    method PopFront() returns (r: Option<Sequence>)
      modifies this
      ensures old(inner) == [] ==> r == None && inner == []
      ensures old(inner) != [] ==> r == Some(old(inner)[0]) && inner == old(inner)[1..]
    {
      if inner == [] {
        return None;
      }
      r := Some(inner[0]);
      inner := inner[1..];
    }

    function Peek(): Option<Sequence>
      reads this
    {
      if inner == [] then None else Some(inner[0])
    }

    method Remove(id: SequenceId) returns (r: Option<Sequence>)
      modifies this
      ensures var pos := Position(old(inner), id);
              if pos < |old(inner)|
              then r == Some(old(inner)[pos]) && inner == RemoveAt(old(inner), pos)
              else r == None && inner == old(inner)
    {
      var pos := Locate(inner, id);
      if pos == |inner| {
        return None;
      }
      r := Some(inner[pos]);
      inner := inner[..pos] + inner[pos + 1..];
    }

    /** Removes the sequences with the given ids, keeping the order of the rest. */
    method DrainWhere(ids: set<SequenceId>) returns (removed: seq<Sequence>)
      modifies this
      ensures removed == Selected(old(inner), ids) && inner == Rejected(old(inner), ids)
    {
      var kept: seq<Sequence> := [];
      removed := [];
      for i := 0 to |inner|
        invariant inner == old(inner)
        invariant removed == Selected(inner[..i], ids) && kept == Rejected(inner[..i], ids)
      {
        assert inner[..i + 1][..i] == inner[..i];
        if inner[i].id in ids {
          removed := removed + [inner[i]];
        } else {
          kept := kept + [inner[i]];
        }
      }
      assert inner[..|inner|] == inner;
      inner := kept;
    }
  }

  method Locate(list: seq<Sequence>, id: SequenceId) returns (pos: nat)
    ensures pos == Position(list, id)
  {
    pos := 0;
    while pos < |list| && list[pos].id != id
      invariant pos <= |list|
      invariant Position(list, id) == pos + Position(list[pos..], id)
    {
      assert list[pos..][1..] == list[pos + 1..];
      pos := pos + 1;
    }
  }

  class RunningQueue {
    var inner: seq<Sequence>

    constructor ()
      ensures inner == []
    {
      inner := [];
    }

    method Push(q: Sequence)
      modifies this
      ensures inner == old(inner) + [q]
    {
      inner := inner + [q];
    }

    method Get(id: SequenceId) returns (r: Option<Sequence>)
      ensures var pos := Position(inner, id);
              r == if pos < |inner| then Some(inner[pos]) else None
    {
      var pos := Locate(inner, id);
      r := if pos < |inner| then Some(inner[pos]) else None;
    }

    /** Stores an updated sequence in the place of the first one with its id. */
    method Put(q: Sequence)
      modifies this
      ensures var pos := Position(old(inner), q.id);
              inner == if pos < |old(inner)| then old(inner)[pos := q] else old(inner)
    {
      var pos := Locate(inner, q.id);
      if pos < |inner| {
        inner := inner[pos := q];
      }
    }

    method Remove(id: SequenceId) returns (r: Option<Sequence>)
      modifies this
      ensures var pos := Position(old(inner), id);
              if pos < |old(inner)|
              then r == Some(old(inner)[pos]) && inner == RemoveAt(old(inner), pos)
              else r == None && inner == old(inner)
    {
      var pos := Locate(inner, id);
      if pos == |inner| {
        return None;
      }
      r := Some(inner[pos]);
      inner := inner[..pos] + inner[pos + 1..];
    }

    method PopNewest() returns (r: Option<Sequence>)
      modifies this
      ensures old(inner) == [] ==> r == None && inner == []
      ensures old(inner) != [] ==> r == Some(old(inner)[|old(inner)| - 1]) && inner == old(inner)[..|old(inner)| - 1]
    {
      if inner == [] {
        return None;
      }
      r := Some(inner[|inner| - 1]);
      inner := inner[..|inner| - 1];
    }

    /** Removes the finished sequences, by index and in place. */
    method TakeFinished() returns (finished: seq<Sequence>)
      modifies this
      ensures finished == FinishedOnly(old(inner)) && inner == Unfinished(old(inner))
    {
      ghost var whole := inner;
      ghost var seen := 0;
      finished := [];
      var i := 0;
      while i < |inner|
        invariant i <= |inner| && seen <= |whole|
        invariant finished == FinishedOnly(whole[..seen]) && inner[..i] == Unfinished(whole[..seen])
        invariant inner[i..] == whole[seen..]
        decreases |inner| - i
      {
        assert inner[i] == inner[i..][0] == whole[seen];
        assert whole[..seen + 1][..seen] == whole[..seen];
        assert inner[i..][1..] == inner[i + 1..] && whole[seen..][1..] == whole[seen + 1..];
        if inner[i].state.Finished? {
          finished := finished + [inner[i]];
          inner := inner[..i] + inner[i + 1..];
        } else {
          assert inner[..i + 1] == inner[..i] + [inner[i]];
          i := i + 1;
        }
        seen := seen + 1;
      }
      assert whole[..seen] == whole && inner[..i] == inner;
    }
  }
}
