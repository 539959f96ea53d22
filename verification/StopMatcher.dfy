// Stop strings over streamed text: the matcher with a truncated buffer.
module StopMatchers {
  import opened Prelude
  import opened Utf8

  predicate OccursAt(text: string, s: string, i: nat) {
    i + |s| <= |text| && text[i..i + |s|] == s
  }

  /** The search of the buffer for one stop string. */
  predicate Contains(text: string, s: string) {
    exists i: nat :: i <= |text| && OccursAt(text, s, i)
  }

  /** The first stop string, in the caller's order, that the text contains. */
  function FirstFound(sequences: seq<string>, text: string): (r: Option<string>)
    ensures r.None? <==> forall k :: 0 <= k < |sequences| ==> !Contains(text, sequences[k])
    ensures r.Some? ==> r.value in sequences && Contains(text, r.value)
    decreases |sequences|
  {
    if sequences == [] then None
    else if Contains(text, sequences[0]) then Some(sequences[0])
    else FirstFound(sequences[1..], text)
  }

  function MaxLen(sequences: seq<string>): (m: nat)
    ensures forall k :: 0 <= k < |sequences| ==> ByteLen(sequences[k]) <= m
  {
    if sequences == [] then 0
    else
      var front, last := MaxLen(sequences[..|sequences| - 1]), ByteLen(sequences[|sequences| - 1]);
      if front < last then last else front
  }

  /** The tail kept for the next push: all of it, or about the longest stop string's worth. */
  function Retained(buffer: string, maxLen: nat): string {
    if ByteLen(buffer) > maxLen * 2
    then DropBytes(buffer, Boundary(buffer, ByteLen(buffer) - maxLen)).value
    else buffer
  }

  datatype Matcher = Matcher(sequences: seq<string>, maxLen: nat, buffer: string)

  function NewMatcher(sequences: seq<string>): Matcher {
    Matcher(sequences, MaxLen(sequences), "")
  }

  function Pushed(m: Matcher, text: string): (Matcher, Option<string>) {
    if m.sequences == [] || text == "" then (m, None)
    else (m.(buffer := Retained(m.buffer + text, m.maxLen)), FirstFound(m.sequences, m.buffer + text))
  }

  // ----- Nothing is lost -----

  /** Against the whole text so far: no match yet, and the buffer is all of it, or long enough a tail. */
  ghost predicate Covers(m: Matcher, whole: string) {
    && m.maxLen == MaxLen(m.sequences)
    && (m.sequences == [] ==> m.buffer == "")
    && FirstFound(m.sequences, whole) == None
    && exists gone :: Tail(m, whole, gone)
  }

  ghost predicate Tail(m: Matcher, whole: string, gone: string) {
    whole == gone + m.buffer && (gone == "" || ByteLen(m.buffer) >= m.maxLen)
  }

  lemma RetainedIsTail(buffer: string, maxLen: nat) returns (gone: string)
    ensures buffer == gone + Retained(buffer, maxLen)
    ensures gone == "" || ByteLen(Retained(buffer, maxLen)) >= maxLen
    ensures ByteLen(Retained(buffer, maxLen)) <= if maxLen * 2 < maxLen + 3 then maxLen + 3 else maxLen * 2
  {
    gone := "";
    if ByteLen(buffer) > maxLen * 2 {
      var n := ByteLen(buffer) - maxLen;
      gone := DroppedPrefix(buffer, Boundary(buffer, n));
      BoundaryIsNear(buffer, n);
      ByteLenConcat(gone, Retained(buffer, maxLen));
    }
  }

  /** A match that starts before the buffer and ends after it is longer than the buffer. */
  lemma SpanIsLong(gone: string, buffer: string, text: string, s: string, i: nat)
    requires OccursAt(gone + buffer + text, s, i) && i < |gone| && i + |s| > |gone + buffer|
    ensures ByteLen(s) > ByteLen(buffer)
  {
    var whole := gone + buffer + text;
    var front, back := gone[i..], whole[|gone| + |buffer|..i + |s|];
    assert s == front + buffer + back;
    ByteLenConcat(front + buffer, back);
    ByteLenConcat(front, buffer);
    ByteLenAtLeast(front);
  }

  lemma InsideFront(front: string, back: string, s: string, i: nat)
    requires OccursAt(front + back, s, i) && i + |s| <= |front|
    ensures Contains(front, s)
  {
    assert front[i..i + |s|] == (front + back)[i..i + |s|];
    assert OccursAt(front, s, i);
  }

  lemma InsideBack(front: string, back: string, s: string, i: nat)
    requires OccursAt(front + back, s, i) && i >= |front|
    ensures OccursAt(back, s, i - |front|)
  {
    assert back[i - |front|..i - |front| + |s|] == (front + back)[i..i + |s|];
  }

  /** A match that the buffer would miss lies wholly in text already searched. */
  lemma MatchStaysVisible(gone: string, buffer: string, text: string, s: string, i: nat)
    requires OccursAt(gone + buffer + text, s, i) && !Contains(gone + buffer, s)
    requires gone == "" || ByteLen(buffer) >= ByteLen(s)
    ensures i >= |gone| && OccursAt(buffer + text, s, i - |gone|)
  {
    hide ByteLen, Contains, OccursAt;
    if i + |s| <= |gone + buffer| {
      InsideFront(gone + buffer, text, s, i);
    } else if i < |gone| {
      SpanIsLong(gone, buffer, text, s, i);
    } else {
      assert gone + buffer + text == gone + (buffer + text);
      InsideBack(gone, buffer + text, s, i);
    }
  }

  lemma ContainsSuffix(gone: string, rest: string, s: string)
    requires Contains(rest, s)
    ensures Contains(gone + rest, s)
  {
    var i: nat :| i <= |rest| && OccursAt(rest, s, i);
    assert (gone + rest)[|gone| + i..|gone| + i + |s|] == rest[i..i + |s|];
    assert OccursAt(gone + rest, s, |gone| + i);
  }

  lemma SameContents(m: Matcher, whole: string, gone: string, text: string, k: nat)
    requires m.maxLen == MaxLen(m.sequences) && k < |m.sequences|
    requires Tail(m, whole, gone) && FirstFound(m.sequences, whole) == None
    ensures Contains(m.buffer + text, m.sequences[k]) <==> Contains(whole + text, m.sequences[k])
  {
    var s := m.sequences[k];
    assert gone + (m.buffer + text) == whole + text;
    if Contains(m.buffer + text, s) {
      ContainsSuffix(gone, m.buffer + text, s);
    }
    if Contains(whole + text, s) {
      var i: nat :| i <= |whole + text| && OccursAt(whole + text, s, i);
      MatchStaysVisible(gone, m.buffer, text, s, i);
    }
  }

  lemma {:induction false} SameFirstFound(sequences: seq<string>, a: string, b: string)
    requires forall k :: 0 <= k < |sequences| ==> (Contains(a, sequences[k]) <==> Contains(b, sequences[k]))
    ensures FirstFound(sequences, a) == FirstFound(sequences, b)
    decreases |sequences|
  {
    hide Contains;
    if sequences != [] {
      assert sequences[0] == sequences[0];
      forall k | 0 <= k < |sequences| - 1 ensures Contains(a, sequences[1..][k]) <==> Contains(b, sequences[1..][k]) {
        assert sequences[1..][k] == sequences[k + 1];
      }
      SameFirstFound(sequences[1..], a, b);
    }
  }

  /** Until the first match a push answers just as a search of the whole text would. */
  lemma PushSeesEverything(m: Matcher, whole: string, text: string)
    requires Covers(m, whole) && text != ""
    ensures Pushed(m, text).1 == FirstFound(m.sequences, whole + text)
    ensures Pushed(m, text).1 == None ==> Covers(Pushed(m, text).0, whole + text)
  {
    hide Contains, Retained;
    var gone :| Tail(m, whole, gone);
    forall k | 0 <= k < |m.sequences| ensures Contains(m.buffer + text, m.sequences[k]) <==> Contains(whole + text, m.sequences[k]) {
      SameContents(m, whole, gone, text, k);
    }
    SameFirstFound(m.sequences, m.buffer + text, whole + text);
    if m.sequences != [] {
      var further := TailExtends(m, whole, gone, text);
    } else {
      NothingToFind(m, whole, text);
    }
  }

  lemma NothingToFind(m: Matcher, whole: string, text: string)
    requires m.sequences == [] && m.maxLen == MaxLen(m.sequences) && m.buffer == ""
    ensures Covers(m, whole + text)
  {
    assert whole + text == (whole + text) + "";
    assert Tail(m, whole + text, whole + text);
  }

  lemma TailExtends(m: Matcher, whole: string, gone: string, text: string) returns (further: string)
    requires Tail(m, whole, gone)
    ensures Tail(m.(buffer := Retained(m.buffer + text, m.maxLen)), whole + text, further)
  {
    hide Retained;
    var more := RetainedIsTail(m.buffer + text, m.maxLen);
    further := gone + more;
    var kept := Retained(m.buffer + text, m.maxLen);
    calc {
      whole + text;
      gone + m.buffer + text;
      gone + (m.buffer + text);
      gone + (more + kept);
      further + kept;
    }
    if further != "" && more == "" {
      assert more + kept == kept;
      ByteLenConcat(m.buffer, text);
    }
  }

  /** The buffer stays bounded whatever is pushed. */
  lemma BufferIsBounded(m: Matcher, text: string)
    requires ByteLen(m.buffer) <= Bound(m.maxLen)
    ensures ByteLen(Pushed(m, text).0.buffer) <= Bound(m.maxLen)
  {
    if m.sequences != [] && text != "" {
      var _ := RetainedIsTail(m.buffer + text, m.maxLen);
    }
  }

  function Bound(maxLen: nat): nat {
    if maxLen * 2 < maxLen + 3 then maxLen + 3 else maxLen * 2
  }

  // ----- Whole streams -----

  function Joined(chunks: seq<string>): string {
    if chunks == [] then "" else Joined(chunks[..|chunks| - 1]) + chunks[|chunks| - 1]
  }

  /** The matcher after the chunks, as long as none of them completes a match. */
  function Watched(sequences: seq<string>, chunks: seq<string>): Option<Matcher> {
    if chunks == [] then Some(NewMatcher(sequences))
    else
      match Watched(sequences, chunks[..|chunks| - 1])
      case None => None
      case Some(m) =>
        var (n, found) := Pushed(m, chunks[|chunks| - 1]);
        if found.Some? then None else Some(n)
  }

  lemma NewCovers(sequences: seq<string>)
    requires FirstFound(sequences, "") == None
    ensures Covers(NewMatcher(sequences), "")
  {
    assert Tail(NewMatcher(sequences), "", "");
  }

  /**
   * For any stop strings that are not empty and any chunks: the matcher has seen no match
   * exactly when the text as a whole contains none, and its buffer stays bounded. The next
   * push then answers as a search of the whole text would.
   */
  lemma {:induction false} WatchingLosesNothing(sequences: seq<string>, chunks: seq<string>)
    requires forall k :: 0 <= k < |sequences| ==> sequences[k] != ""
    ensures Watched(sequences, chunks).Some? <==> FirstFound(sequences, Joined(chunks)) == None
    ensures Watched(sequences, chunks).Some? ==>
              var m := Watched(sequences, chunks).value;
              && m.sequences == sequences && m.maxLen == MaxLen(sequences) && Covers(m, Joined(chunks))
              && ByteLen(m.buffer) <= Bound(MaxLen(sequences))
  {
    hide Covers, Bound, MaxLen, FirstFound, Pushed;
    if chunks == [] {
      NothingInNothing(sequences);
      NewCovers(sequences);
      BoundOfEmpty(sequences);
    } else {
      var front, text := chunks[..|chunks| - 1], chunks[|chunks| - 1];
      WatchingLosesNothing(sequences, front);
      if Watched(sequences, front).Some? {
        var m := Watched(sequences, front).value;
        PushedKeepsSequences(m, text);
        BufferIsBounded(m, text);
        if text == "" {
          assert Joined(chunks) == Joined(front);
          EmptyPush(m, text);
        } else {
          PushSeesEverything(m, Joined(front), text);
        }
      } else {
        FoundStaysFound(sequences, Joined(front), text);
      }
    }
  }

  lemma EmptyPush(m: Matcher, text: string)
    requires text == ""
    ensures Pushed(m, text) == (m, None)
  {
  }

  lemma NothingInNothing(sequences: seq<string>)
    requires forall k :: 0 <= k < |sequences| ==> sequences[k] != ""
    ensures FirstFound(sequences, "") == None
  {
  }

  lemma BoundOfEmpty(sequences: seq<string>)
    ensures ByteLen(NewMatcher(sequences).buffer) <= Bound(MaxLen(sequences))
  {
  }

  lemma PushedKeepsSequences(m: Matcher, text: string)
    ensures Pushed(m, text).0.sequences == m.sequences && Pushed(m, text).0.maxLen == m.maxLen
  {
  }

  lemma FoundStaysFound(sequences: seq<string>, whole: string, text: string)
    requires FirstFound(sequences, whole).Some?
    ensures FirstFound(sequences, whole + text).Some?
  {
    var k :| 0 <= k < |sequences| && Contains(whole, sequences[k]);
    var i: nat :| i <= |whole| && OccursAt(whole, sequences[k], i);
    assert (whole + text)[i..i + |sequences[k]|] == whole[i..i + |sequences[k]|];
    assert OccursAt(whole + text, sequences[k], i);
  }

  lemma FirstFoundFrom(sequences: seq<string>, k: nat, text: string)
    requires k <= |sequences|
    ensures k == |sequences| ==> FirstFound(sequences[k..], text) == None
    ensures k < |sequences| ==>
              FirstFound(sequences[k..], text)
              == if Contains(text, sequences[k]) then Some(sequences[k]) else FirstFound(sequences[k + 1..], text)
  {
    if k < |sequences| {
      assert sequences[k..][1..] == sequences[k + 1..];
    }
  }

  // ----- The matcher object -----

  class StopSequenceMatcher {
    const sequences: seq<string>
    const maxLen: nat
    var buffer: string

    function View(): Matcher
      reads this
    {
      Matcher(sequences, maxLen, buffer)
    }

    constructor (sequences: seq<string>)
      ensures View() == NewMatcher(sequences)
    {
      var longest := 0;
      for i := 0 to |sequences|
        invariant longest == MaxLen(sequences[..i])
      {
        assert sequences[..i + 1][..i] == sequences[..i];
        if longest < ByteLen(sequences[i]) {
          longest := ByteLen(sequences[i]);
        }
      }
      assert sequences[..|sequences|] == sequences;
      this.sequences := sequences;
      maxLen := longest;
      buffer := "";
    }

    /** Whether one stop string is in the buffer, position by position. */
    method Search(s: string) returns (found: bool)
      ensures found <==> Contains(buffer, s)
    {
      found := false;
      for i := 0 to |buffer| + 1
        invariant forall j: nat :: j < i ==> !OccursAt(buffer, s, j)
      {
        if OccursAt(buffer, s, i) {
          return true;
        }
      }
    }

    /** Feeds new text; returns the first stop string found, and keeps only the tail that matters. */
    method Push(text: string) returns (found: Option<string>)
      modifies this
      ensures (View(), found) == Pushed(old(View()), text)
    {
      hide Contains, FirstFound;
      if sequences == [] || text == "" {
        return None;
      }
      buffer := buffer + text;
      found := None;
      var k := 0;
      assert sequences[0..] == sequences;
      while k < |sequences| && found == None
        invariant k <= |sequences| && buffer == old(buffer) + text
        invariant FirstFound(sequences, buffer) == if found == None then FirstFound(sequences[k..], buffer) else found
      {
        FirstFoundFrom(sequences, k, buffer);
        var here := Search(sequences[k]);
        if here {
          found := Some(sequences[k]);
        }
        k := k + 1;
      }
      FirstFoundFrom(sequences, k, buffer);
      if ByteLen(buffer) > maxLen * 2 {
        var boundary: nat := ByteLen(buffer) - maxLen;
        while DropBytes(buffer, boundary).None?
          invariant Boundary(buffer, ByteLen(buffer) - maxLen) == Boundary(buffer, boundary)
          decreases boundary
        {
          boundary := boundary - 1;
        }
        assert Boundary(buffer, boundary) == boundary;
        buffer := DropBytes(buffer, boundary).value;
      }
    }
  }
}
