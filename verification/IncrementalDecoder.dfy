// Streaming text: the incremental decoder with a re-anchored window.
module IncrementalDecoders {
  import opened Prelude
  import opened Utf8

  type Decode = seq<TokenId> -> string

  const REPLACEMENT: char := '\U{FFFD}'

  predicate EndsIncomplete(s: string) {
    s != "" && s[|s| - 1] == REPLACEMENT
  }

  /** Without its trailing replacement characters. */
  function Trimmed(s: string): (r: string)
    ensures r <= s && !EndsIncomplete(r)
  {
    if EndsIncomplete(s) then Trimmed(s[..|s| - 1]) else s
  }

  /**
   * What a byte-level tokenizer gives: text that ends on a whole character is settled, and
   * trailing replacement characters are all that later tokens may still change.
   */
  ghost predicate Settles(decode: Decode) {
    && (forall a, b :: !EndsIncomplete(decode(a)) ==> decode(a + b) == decode(a) + decode(b))
    && (forall a, b :: Trimmed(decode(a)) <= decode(a + b))
  }

  datatype Decoder = Decoder(tokens: seq<TokenId>, emitted: string, window: nat, windowStart: nat, windowEmitted: nat)

  function NewDecoder(window: nat): Decoder {
    Decoder([], "", if window < 1 then 1 else window, 0, 0)
  }

  /** Moves the window up to its target size, if the part that leaves it decodes cleanly. */
  function Anchored(decode: Decode, s: Decoder): Decoder
    requires s.windowStart <= |s.tokens|
  {
    if |s.tokens| - s.windowStart > s.window * 2 then
      var newStart := |s.tokens| - s.window;
      var dropped := decode(s.tokens[s.windowStart..newStart]);
      if !EndsIncomplete(dropped) && s.windowEmitted >= ByteLen(dropped)
      then s.(windowEmitted := s.windowEmitted - ByteLen(dropped), windowStart := newStart)
      else s
    else s
  }

  /** Emits what the window's text has beyond the bytes already out; None is a cut inside a character. */
  function Emitted(decode: Decode, s: Decoder): Option<(Decoder, string)>
    requires s.windowStart <= |s.tokens|
  {
    var text := decode(s.tokens[s.windowStart..]);
    if ByteLen(text) <= s.windowEmitted then Some((s, ""))
    else
      match DropBytes(text, s.windowEmitted)
      case None => None
      case Some(delta) =>
        var out := if EndsIncomplete(delta) then Trimmed(delta) else delta;
        Some((s.(windowEmitted := s.windowEmitted + ByteLen(out), emitted := s.emitted + out), out))
  }

  function Pushed(decode: Decode, s: Decoder, token: TokenId): Option<(Decoder, string)>
    requires s.windowStart <= |s.tokens|
  {
    Emitted(decode, Anchored(decode, s.(tokens := s.tokens + [token])))
  }

  /** Characters two texts share from the start. */
  function CommonPrefix(a: string, b: string): (n: nat)
    ensures n <= |a| && n <= |b| && a[..n] == b[..n]
    ensures n < |a| && n < |b| ==> a[n] != b[n]
  {
    if a != "" && b != "" && a[0] == b[0] then 1 + CommonPrefix(a[1..], b[1..]) else 0
  }

  function Finished(decode: Decode, s: Decoder): (Decoder, string) {
    var full := decode(s.tokens);
    var common := CommonPrefix(full, s.emitted);
    if common >= |full| then (s, "")
    else (s.(emitted := full, windowEmitted := s.windowEmitted + ByteLen(full[common..])), full[common..])
  }

  // ----- The invariant -----

  /** Part `e` of the window's text is out, and the text before the window is settled. */
  ghost predicate Tracks(decode: Decode, s: Decoder, e: string) {
    && s.windowStart <= |s.tokens|
    && s.windowEmitted == ByteLen(e)
    && e <= decode(s.tokens[s.windowStart..]) && !EndsIncomplete(e)
    && s.emitted == Before(decode, s) + e
    && !EndsIncomplete(Before(decode, s))
    && decode(s.tokens) == Before(decode, s) + decode(s.tokens[s.windowStart..])
  }

  ghost function Before(decode: Decode, s: Decoder): string
    requires s.windowStart <= |s.tokens|
  {
    if s.windowStart == 0 then "" else decode(s.tokens[..s.windowStart])
  }

  /** Nothing is out that later tokens may still change. */
  ghost predicate Ready(decode: Decode, s: Decoder) {
    && s.window >= 1 && s.windowStart <= |s.tokens|
    && exists e :: Tracks(decode, s, e) && e <= Trimmed(decode(s.tokens[s.windowStart..]))
  }

  lemma {:induction false} TrimmedConcat(a: string, b: string)
    requires !EndsIncomplete(a)
    ensures Trimmed(a + b) == a + Trimmed(b)
  {
    if b == "" {
      assert a + b == a;
    } else if EndsIncomplete(b) {
      TrimmedConcat(a, b[..|b| - 1]);
      assert (a + b)[..|a + b| - 1] == a + b[..|b| - 1];
    }
  }

  lemma SettledSplits(decode: Decode, a: seq<TokenId>, b: seq<TokenId>)
    requires Settles(decode) && !EndsIncomplete(decode(a))
    ensures decode(a + b) == decode(a) + decode(b)
  {
  }

  /** One more token keeps what is out a prefix of the window's text. */
  lemma TokenTracks(decode: Decode, s: Decoder, e: string, token: TokenId)
    requires Settles(decode) && Tracks(decode, s, e) && e <= Trimmed(decode(s.tokens[s.windowStart..]))
    ensures Tracks(decode, s.(tokens := s.tokens + [token]), e)
  {
    var was, t := s.tokens[s.windowStart..], s.(tokens := s.tokens + [token]);
    assert t.tokens[s.windowStart..] == was + [token];
    assert t.tokens[..s.windowStart] == s.tokens[..s.windowStart];
    if s.windowStart == 0 {
      assert t.tokens[0..] == t.tokens;
    } else {
      SettledSplits(decode, s.tokens[..s.windowStart], was + [token]);
      assert t.tokens == s.tokens[..s.windowStart] + (was + [token]);
    }
  }

  /** What re-anchoring drops from the window is text that is out, and it settles. */
  lemma AnchorDrops(decode: Decode, s: Decoder, e: string, front: seq<TokenId>, back: seq<TokenId>)
    requires Settles(decode) && Tracks(decode, s, e) && s.tokens[s.windowStart..] == front + back
    requires !EndsIncomplete(decode(front)) && ByteLen(e) >= ByteLen(decode(front))
    ensures decode(front + back) == decode(front) + decode(back)
    ensures decode(front) <= e && e[|decode(front)|..] <= decode(back)
    ensures ByteLen(e) == ByteLen(decode(front)) + ByteLen(e[|decode(front)|..])
  {
    var dropped := decode(front);
    SettledSplits(decode, front, back);
    PrefixesByBytes(dropped, e, decode(front + back));
    assert e == dropped + e[|dropped|..];
    ByteLenConcat(dropped, e[|dropped|..]);
  }

  lemma AnchorSplits(decode: Decode, s: Decoder, t: Decoder, front: seq<TokenId>)
    requires Settles(decode) && s.windowStart <= |s.tokens| && !EndsIncomplete(Before(decode, s))
    requires t.tokens == s.tokens && s.windowStart < t.windowStart <= |s.tokens|
    requires front == s.tokens[s.windowStart..t.windowStart] && !EndsIncomplete(decode(front))
    ensures Before(decode, t) == Before(decode, s) + decode(front)
  {
    assert s.tokens[..t.windowStart] == s.tokens[..s.windowStart] + front;
    if s.windowStart == 0 {
      assert s.tokens[..t.windowStart] == front;
    } else {
      SettledSplits(decode, s.tokens[..s.windowStart], front);
    }
  }

  /** Re-anchoring drops from the front of the window exactly text that is out. */
  lemma AnchorTracks(decode: Decode, s: Decoder, e: string) returns (f: string)
    requires Settles(decode) && Tracks(decode, s, e) && s.window >= 1
    ensures Tracks(decode, Anchored(decode, s), f)
  {
    hide Settles, Before, ByteLen, EndsIncomplete;
    f := e;
    var t := Anchored(decode, s);
    if t != s {
      var front, back := s.tokens[s.windowStart..t.windowStart], s.tokens[t.windowStart..];
      assert s.tokens[s.windowStart..] == front + back;
      AnchorDrops(decode, s, e, front, back);
      AnchorSplits(decode, s, t, front);
      var dropped := decode(front);
      f := e[|dropped|..];
      assert e == dropped + f;
      ConcatAssociates(Before(decode, s), dropped, f);
      ConcatAssociates(Before(decode, s), dropped, decode(back));
      CompleteParts(Before(decode, s), dropped, f);
    }
  }

  lemma CompleteParts(a: string, b: string, c: string)
    requires !EndsIncomplete(a) && !EndsIncomplete(b) && !EndsIncomplete(b + c)
    ensures !EndsIncomplete(a + b) && !EndsIncomplete(c)
  {
    if c != "" {
      assert (b + c)[|b + c| - 1] == c[|c| - 1];
    }
  }

  /** With `e` out, the rest of the window's text is `delta`, and its settled part goes out. */
  lemma EmitsTrimmed(decode: Decode, s: Decoder, e: string, delta: string)
    requires s.windowStart <= |s.tokens| && s.windowEmitted == ByteLen(e)
    requires decode(s.tokens[s.windowStart..]) == e + delta
    ensures Emitted(decode, s) == Some((s.(windowEmitted := ByteLen(e + Trimmed(delta)), emitted := s.emitted + Trimmed(delta)),
                                        Trimmed(delta)))
  {
    hide DropBytes, ByteLen;
    ByteLenConcat(e, delta);
    DropPrefix(e, delta);
    ByteLenAtLeast(delta);
    ByteLenConcat(e, Trimmed(delta));
    if delta == "" {
      assert e + Trimmed(delta) == e && s.emitted + "" == s.emitted;
    }
  }

  /** Emitting brings out all the settled text of the window. */
  lemma EmitTracks(decode: Decode, s: Decoder, e: string)
    requires Tracks(decode, s, e)
    ensures Emitted(decode, s).Some?
    ensures var (t, out) := Emitted(decode, s).value;
            && t.tokens == s.tokens && t.window == s.window
            && t.emitted == s.emitted + out && !EndsIncomplete(out)
            && Tracks(decode, t, e + out) && e + out == Trimmed(decode(t.tokens[t.windowStart..]))
            && t.emitted == Trimmed(decode(t.tokens))
  {
    hide DropBytes, ByteLen, Before, Trimmed, EndsIncomplete, Emitted;
    var text := decode(s.tokens[s.windowStart..]);
    var delta := text[|e|..];
    assert text == e + delta;
    EmitsTrimmed(decode, s, e, delta);
    TrimmedConcat(e, delta);
    TrimmedConcat(Before(decode, s), text);
    ConcatAssociates(Before(decode, s), e, Trimmed(delta));
    BeforeIgnoresOutput(decode, s, Emitted(decode, s).value.0);
  }

  lemma ConcatAssociates(a: string, b: string, c: string)
    ensures a + (b + c) == a + b + c
  {
  }

  lemma BeforeIgnoresOutput(decode: Decode, s: Decoder, t: Decoder)
    requires t.tokens == s.tokens && t.windowStart == s.windowStart <= |s.tokens|
    ensures Before(decode, t) == Before(decode, s)
  {
  }

  /**
   * However the window is re-anchored, a push never cuts a character, its output never ends
   * in a replacement character, and what is out is all the settled text of all tokens.
   */
  lemma PushEmitsSettledText(decode: Decode, s: Decoder, token: TokenId)
    requires Settles(decode) && Ready(decode, s)
    ensures Pushed(decode, s, token).Some?
    ensures var (t, out) := Pushed(decode, s, token).value;
            && t.tokens == s.tokens + [token]
            && Ready(decode, t)
            && t.emitted == s.emitted + out == Trimmed(decode(t.tokens))
            && !EndsIncomplete(out)
  {
    hide Settles;
    var e :| Tracks(decode, s, e) && e <= Trimmed(decode(s.tokens[s.windowStart..]));
    TokenTracks(decode, s, e, token);
    var more := s.(tokens := s.tokens + [token]);
    var f := AnchorTracks(decode, more, e);
    EmitTracks(decode, Anchored(decode, more), f);
  }

  /** Finishing emits exactly what was held back. */
  lemma FinishCompletes(decode: Decode, s: Decoder)
    requires Ready(decode, s)
    ensures s.emitted + Finished(decode, s).1 == decode(s.tokens)
  {
    hide Trimmed;
    var full := decode(s.tokens);
    var e :| Tracks(decode, s, e);
    assert s.emitted <= full;
    assert CommonPrefix(full, s.emitted) == |s.emitted|;
  }

  // ----- Whole streams -----

  function Concat(chunks: seq<string>): string {
    if chunks == [] then "" else Concat(chunks[..|chunks| - 1]) + chunks[|chunks| - 1]
  }

  function StreamedOn(pushed: Option<(Decoder, string)>, chunks: seq<string>): Option<(Decoder, seq<string>)> {
    match pushed
    case None => None
    case Some((t, out)) => Some((t, chunks + [out]))
  }

  /** The chunks streamed for the tokens, and the decoder after them. */
  function Streamed(decode: Decode, window: nat, tokens: seq<TokenId>): Option<(Decoder, seq<string>)> {
    if tokens == [] then Some((NewDecoder(window), []))
    else
      match Streamed(decode, window, tokens[..|tokens| - 1])
      case None => None
      case Some((s, chunks)) =>
        if s.windowStart > |s.tokens| then None
        else StreamedOn(Pushed(decode, s, tokens[|tokens| - 1]), chunks)
  }

  lemma NewIsReady(decode: Decode, window: nat)
    ensures Ready(decode, NewDecoder(window))
  {
    assert Tracks(decode, NewDecoder(window), "");
  }

  lemma ReadyWindow(decode: Decode, s: Decoder)
    requires Ready(decode, s)
    ensures s.window >= 1 && s.windowStart <= |s.tokens|
  {
  }

  lemma {:induction false} StreamedIsReady(decode: Decode, window: nat, tokens: seq<TokenId>)
    requires Settles(decode)
    ensures Streamed(decode, window, tokens).Some?
    ensures var (s, chunks) := Streamed(decode, window, tokens).value;
            && Ready(decode, s) && s.tokens == tokens
            && Concat(chunks) == s.emitted == (if tokens == [] then "" else Trimmed(decode(tokens)))
            && |chunks| == |tokens|
            && forall i :: 0 <= i < |chunks| ==> !EndsIncomplete(chunks[i])
  {
    hide Settles, Pushed, Trimmed, Ready, Concat, EndsIncomplete;
    if tokens == [] {
      NothingConcats();
      NewIsReady(decode, window);
    } else {
      StreamedIsReady(decode, window, tokens[..|tokens| - 1]);
      var (s, chunks) := Streamed(decode, window, tokens[..|tokens| - 1]).value;
      ReadyWindow(decode, s);
      PushEmitsSettledText(decode, s, tokens[|tokens| - 1]);
      assert tokens[..|tokens| - 1] + [tokens[|tokens| - 1]] == tokens;
      var (t, out) := Pushed(decode, s, tokens[|tokens| - 1]).value;
      ConcatPush(chunks, out);
    }
  }

  lemma NothingConcats()
    ensures Concat([]) == ""
  {
  }

  lemma ConcatPush(chunks: seq<string>, out: string)
    ensures Concat(chunks + [out]) == Concat(chunks) + out
  {
    assert (chunks + [out])[..|chunks|] == chunks;
  }

  /** Streaming equals batch decoding, for every window size, and no chunk shows an incomplete character. */
  lemma StreamingIsBatchDecoding(decode: Decode, window: nat, tokens: seq<TokenId>)
    requires Settles(decode)
    ensures Streamed(decode, window, tokens).Some?
    ensures var (s, chunks) := Streamed(decode, window, tokens).value;
            && Concat(chunks) + Finished(decode, s).1 == decode(tokens)
            && forall i :: 0 <= i < |chunks| ==> !EndsIncomplete(chunks[i])
  {
    StreamedIsReady(decode, window, tokens);
    FinishCompletes(decode, Streamed(decode, window, tokens).value.0);
  }

  // ----- A tokenizer that settles -----

  function Repeated(n: nat): (s: string)
    ensures |s| == n && !EndsIncomplete(s)
  {
    seq(n, _ => 'x')
  }

  /** Two tokens to a character; a first half alone decodes to the replacement character. */
  function HalvesText(tokens: seq<TokenId>): string {
    Repeated(|tokens| / 2) + if |tokens| % 2 == 1 then [REPLACEMENT] else ""
  }

  lemma RepeatedConcat(m: nat, n: nat)
    ensures Repeated(m) + Repeated(n) == Repeated(m + n)
  {
  }

  /** The hypothesis on decoding is met by tokenizers that split characters. */
  lemma HalvesSettle()
    ensures Settles(HalvesText)
  {
    forall a: seq<TokenId>, b: seq<TokenId>
      ensures !EndsIncomplete(HalvesText(a)) ==> HalvesText(a + b) == HalvesText(a) + HalvesText(b)
      ensures Trimmed(HalvesText(a)) <= HalvesText(a + b)
    {
      HalvesConcat(a, b);
    }
  }

  lemma HalvesConcat(a: seq<TokenId>, b: seq<TokenId>)
    ensures !EndsIncomplete(HalvesText(a)) ==> HalvesText(a + b) == HalvesText(a) + HalvesText(b)
    ensures Trimmed(HalvesText(a)) <= HalvesText(a + b)
  {
    hide Repeated;
    var m, n := |a| / 2, |a + b| / 2;
    RepeatedConcat(m, n - m);
    assert Repeated(m) <= HalvesText(a + b);
    TrimmedConcat(Repeated(m), [REPLACEMENT]);
    TrimmedConcat(Repeated(m), "");
    TrimmedOfOne();
    if |a| % 2 == 0 {
      assert n - m == |b| / 2;
      assert HalvesText(a) == Repeated(m);
      assert HalvesText(a + b) == Repeated(m) + HalvesText(b);
    }
  }

  lemma TrimmedOfOne()
    ensures Trimmed([REPLACEMENT]) == "" == Trimmed("")
  {
  }

  // ----- The decoder object -----

  class IncrementalDecoder {
    const window: nat
    var tokens: seq<TokenId>
    var emitted: string
    var windowStart: nat
    var windowEmitted: nat

    function View(): Decoder
      reads this
    {
      Decoder(tokens, emitted, window, windowStart, windowEmitted)
    }

    constructor (window: nat)
      ensures View() == NewDecoder(window)
    {
      this.window := if window < 1 then 1 else window;
      tokens, emitted, windowStart, windowEmitted := [], "", 0, 0;
    }

    /** Adds a token and returns the text that became stable: all settled text is then out. */
    method Push(decode: Decode, token: TokenId) returns (out: string)
      requires Settles(decode) && Ready(decode, View())
      modifies this
      ensures Some((View(), out)) == Pushed(decode, old(View()), token)
      ensures Ready(decode, View()) && tokens == old(tokens) + [token]
      ensures emitted == old(emitted) + out == Trimmed(decode(tokens)) && !EndsIncomplete(out)
    {
      hide Settles, Ready, Trimmed, ByteLen, DropBytes, EndsIncomplete;
      PushEmitsSettledText(decode, View(), token);
      ReadyWindow(decode, View());
      tokens := tokens + [token];
      if |tokens| - windowStart > window * 2 {
        var newStart := |tokens| - window;
        var dropped := decode(tokens[windowStart..newStart]);
        if !EndsIncomplete(dropped) && windowEmitted >= ByteLen(dropped) {
          windowEmitted := windowEmitted - ByteLen(dropped);
          windowStart := newStart;
        }
      }
      var windowText := decode(tokens[windowStart..]);
      if ByteLen(windowText) <= windowEmitted {
        return "";
      }
      var delta := DropBytes(windowText, windowEmitted).value;
      if EndsIncomplete(delta) {
        delta := Trimmed(delta);
      }
      if delta == "" {
        NothingHasNoBytes();
        assert emitted + "" == emitted;
        return "";
      }
      out := delta;
      windowEmitted := windowEmitted + ByteLen(out);
      emitted := emitted + out;
    }

    /** Flushes what was held back; everything streamed is then the text of all tokens. */
    method Finish(decode: Decode) returns (tail: string)
      requires Ready(decode, View())
      modifies this
      ensures (View(), tail) == Finished(decode, old(View()))
      ensures old(emitted) + tail == decode(tokens) && tokens == old(tokens)
    {
      hide Ready;
      FinishCompletes(decode, View());
      var full := decode(tokens);
      var common := 0;
      assert full[0..] == full && emitted[0..] == emitted;
      while common < |full| && common < |emitted| && full[common] == emitted[common]
        invariant common <= |full| && common <= |emitted|
        invariant CommonPrefix(full, emitted) == common + CommonPrefix(full[common..], emitted[common..])
      {
        assert full[common..][1..] == full[common + 1..] && emitted[common..][1..] == emitted[common + 1..];
        common := common + 1;
      }
      if common >= |full| {
        return "";
      }
      tail := full[common..];
      emitted := full;
      windowEmitted := windowEmitted + ByteLen(tail);
    }
  }
}
