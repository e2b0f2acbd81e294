/**
 The OSC side channel: a byte-at-a-time tracker, and the grammar it implements.  The grammar is that of
 OSC strings (section 8.3.89 of ECMA-48) with BEL as a second terminator, plus what the tracker does
 with everything else: an escape inside a body is body text unless it starts ST, and a body that passes
 4096 bytes is abandoned.
 */
module OscTracker {
  import opened Prelude
  import opened Scrollback

  const ESC: Byte := 0x1b
  const BEL: Byte := 0x07
  const BRACKET: Byte := 0x5d
  const BACKSLASH: Byte := 0x5c
  const SEMICOLON: Byte := 0x3b
  const MAX_BODY := 4096

  datatype Mode = Ground | Escape | OscBody | OscEscape

  datatype Tracker = Tracker(mode: Mode, body: Bytes, payload: Option<string>, title: Option<string>)

  const Start: Tracker := Tracker(Ground, [], None, None)

  /** Lossy UTF-8 decoding, left uninterpreted. */
  type Decode = Bytes -> string

  predicate IsControl(c: char) { c < ' ' || '\U{7f}' <= c <= '\U{9f}' }

  function Printable(s: string): string {
    if s == "" then "" else Printable(s[..|s| - 1]) + if IsControl(s[|s| - 1]) then "" else [s[|s| - 1]]
  }

  /** Sanitizing goes character by character and drops the control characters, which are the codes below 32 and
      those from 127 to 159. */
  lemma {:induction false} PrintableJoins(s: string, t: string)
    ensures Printable(s + t) == Printable(s) + Printable(t)
    ensures |s| == 1 ==>
      Printable(s) == if (s[0] as int) < 32 || 127 <= s[0] as int <= 159 then "" else s
    decreases |t|
  {
    if t == "" {
      assert s + t == s;
    } else {
      assert (s + t)[..|s + t| - 1] == s + t[..|t| - 1];
      PrintableJoins(s, t[..|t| - 1]);
    }
    if |s| == 1 { assert s[..0] == ""; }
  }

  /** No control character in it. */
  predicate Harmless(s: string) { forall i :: 0 <= i < |s| ==> 32 <= s[i] as int < 127 || s[i] as int > 159 }

  lemma {:induction false} HarmlessStays(s: string)
    requires Harmless(s)
    ensures Printable(s) == s
    decreases |s|
  {
    if s != "" {
      HarmlessStays(s[..|s| - 1]);
      assert s == s[..|s| - 1] + [s[|s| - 1]];
    }
  }

  /** Command and payload: the body up to and after its first semicolon. */
  function Split(body: Bytes): Option<(Bytes, Bytes)> {
    if body == [] then None
    else if body[0] == SEMICOLON then Some(([], body[1..]))
    else match Split(body[1..])
      case None => None
      case Some((c, p)) => Some(([body[0]] + c, p))
  }

  // ---------------------------------------------------------------- the tracker

  function Finalize(decode: Decode, t: Tracker): Tracker {
    var t1 := t.(body := []);
    match Split(t.body)
    case None => t1
    case Some((command, payload)) =>
      var text := Printable(decode(payload));
      if text == "" then t1
      else if command == [0x39] then t1.(payload := Some(text))
      else if command == [0x30] || command == [0x32] then t1.(title := Some(text))
      else t1
  }

  function Consume(decode: Decode, t: Tracker, b: Byte): Tracker {
    match t.mode
    case Ground => if b == ESC then t.(mode := Escape) else t
    case Escape =>
      if b == BRACKET then t.(body := [], mode := OscBody)
      else if b == ESC then t
      else t.(mode := Ground)
    case OscBody =>
      if b == BEL then Finalize(decode, t).(mode := Ground)
      else if b == ESC then t.(mode := OscEscape)
      else t.(body := t.body + [b])
    case OscEscape =>
      if b == BACKSLASH then Finalize(decode, t).(mode := Ground)
      else t.(body := t.body + [ESC, b], mode := OscBody)
  }

  function Feed(decode: Decode, t: Tracker, b: Byte): Tracker {
    var t1 := Consume(decode, t, b);
    if |t1.body| > MAX_BODY then t1.(body := [], mode := Ground) else t1
  }

  function Fold(decode: Decode, t: Tracker, bytes: Bytes): Tracker {
    if bytes == [] then t else Feed(decode, Fold(decode, t, bytes[..|bytes| - 1]), bytes[|bytes| - 1])
  }

  class Osc9Tracker {
    const decode: Decode
    var state: Mode
    var body: Bytes
    var latestPayload: Option<string>
    var latestTitle: Option<string>

    function View(): Tracker
      reads this
    {
      Tracker(state, body, latestPayload, latestTitle)
    }

    ghost predicate Valid()
      reads this
    {
      Bounded(View())
    }

    constructor (decode: Decode)
      ensures View() == Start && Valid() && this.decode == decode
    {
      this.decode := decode;
      state, body, latestPayload, latestTitle := Ground, [], None, None;
    }

    method Observe(bytes: Bytes)
      requires Valid()
      modifies this
      ensures Valid() && View() == Fold(decode, old(View()), bytes)
    {
      for i := 0 to |bytes|
        invariant Valid() && View() == Fold(decode, old(View()), bytes[..i])
      {
        var byte := bytes[i];
        FeedBounded(decode, View(), byte);
        match state {
          case Ground => if byte == ESC { state := Escape; }
          case Escape =>
            if byte == BRACKET { body := []; state := OscBody; }
            else if byte == ESC { state := Escape; }
            else { state := Ground; }
          case OscBody =>
            if byte == BEL { FinalizeBody(); state := Ground; }
            else if byte == ESC { state := OscEscape; }
            else { body := body + [byte]; }
          case OscEscape =>
            if byte == BACKSLASH { FinalizeBody(); state := Ground; }
            else { body := body + [ESC]; body := body + [byte]; state := OscBody; }
        }
        if |body| > MAX_BODY { body := []; state := Ground; }
        assert bytes[..i + 1][..i] == bytes[..i];
      }
      assert bytes[..|bytes|] == bytes;
    }

    method FinalizeBody()
      modifies this
      ensures View() == Finalize(decode, old(View()))
    {
      var parts := Split(body);
      if parts.Some? {
        var text := Printable(decode(parts.value.1));
        if parts.value.0 == [0x39] {
          if text != "" { latestPayload := Some(text); }
        } else if parts.value.0 == [0x30] || parts.value.0 == [0x32] {
          if text != "" { latestTitle := Some(text); }
        }
      }
      body := [];
    }

    method Reset()
      modifies this
      ensures View() == Start && Valid()
    {
      latestPayload, latestTitle, body, state := None, None, [], Ground;
    }
  }

  // ---------------------------------------------------------------- bounds and chunks

  /** The body stays within its bound and is empty outside a sequence. */
  predicate Bounded(t: Tracker) {
    |t.body| <= 4096 && (t.mode.Ground? || t.mode.Escape? ==> t.body == [])
  }

  lemma FeedBounded(decode: Decode, t: Tracker, b: Byte)
    requires Bounded(t)
    ensures Bounded(Feed(decode, t, b))
  {
  }

  lemma {:induction false} AlwaysBounded(decode: Decode, history: Bytes)
    ensures Bounded(Fold(decode, Start, history))
    decreases |history|
  {
    if history != [] {
      AlwaysBounded(decode, history[..|history| - 1]);
      FeedBounded(decode, Fold(decode, Start, history[..|history| - 1]), history[|history| - 1]);
    }
  }

  lemma {:induction false} FoldAppend(decode: Decode, t: Tracker, a: Bytes, b: Bytes)
    ensures Fold(decode, t, a + b) == Fold(decode, Fold(decode, t, a), b)
    decreases |b|
  {
    if b == [] {
      assert a + b == a;
    } else {
      assert (a + b)[..|a + b| - 1] == a + b[..|b| - 1];
      FoldAppend(decode, t, a, b[..|b| - 1]);
    }
  }

  function FoldChunks(decode: Decode, t: Tracker, chunks: seq<Bytes>): Tracker {
    if chunks == [] then t
    else Fold(decode, FoldChunks(decode, t, chunks[..|chunks| - 1]), chunks[|chunks| - 1])
  }

  /** Where the PTY read happened to cut the bytes makes no difference. */
  lemma {:induction false} ChunkingIrrelevant(decode: Decode, t: Tracker, chunks: seq<Bytes>)
    ensures FoldChunks(decode, t, chunks) == Fold(decode, t, Flatten(chunks))
    decreases |chunks|
  {
    if chunks != [] {
      ChunkingIrrelevant(decode, t, chunks[..|chunks| - 1]);
      FoldAppend(decode, t, Flatten(chunks[..|chunks| - 1]), chunks[|chunks| - 1]);
    }
  }
}
