/**
 Content-Length framing (Base Protocol, Header Part, of LSP 3.17): what `send_frame` writes to a language
 server and what the stdout reader makes of a server's bytes.
 */
module LspFraming {
  import opened Prelude

  const MAX_REQUEST := 8 * 1024 * 1024
  const MAX_RESPONSE := 16 * 1024 * 1024
  const USIZE_MAX := 0xffff_ffff_ffff_ffff

  const NEWLINE: Byte := 10

  // ---------------------------------------------------------------- text

  predicate IsAscii(s: string) { forall i :: 0 <= i < |s| ==> s[i] < '\U{80}' }

  function Ascii(s: string): (r: Bytes)
    requires IsAscii(s)
    ensures |r| == |s| && forall i :: 0 <= i < |s| ==> r[i] == s[i] as int
  {
    if s == "" then [] else Ascii(s[..|s| - 1]) + [s[|s| - 1] as int]
  }

  /** UTF-8 decoding, or nothing for an invalid line. */
  type Decode = Bytes -> Option<string>

  /** All that is used of it: ASCII is itself. */
  ghost predicate AsciiOk(decode: Decode) { forall s :: IsAscii(s) ==> decode(Ascii(s)) == Some(s) }

  /** Unicode White_Space. */
  predicate IsSpace(c: char) {
    || '\t' <= c <= '\r' || c == ' ' || c == '\U{85}' || c == '\U{a0}' || c == '\U{1680}'
    || '\U{2000}' <= c <= '\U{200a}' || c == '\U{2028}' || c == '\U{2029}' || c == '\U{202f}'
    || c == '\U{205f}' || c == '\U{3000}'
  }

  function TrimEnd(s: string): string { if s != "" && IsSpace(s[|s| - 1]) then TrimEnd(s[..|s| - 1]) else s }

  function TrimStart(s: string): string { if s != "" && IsSpace(s[0]) then TrimStart(s[1..]) else s }

  function Trim(s: string): string { TrimStart(TrimEnd(s)) }

  // ---------------------------------------------------------------- numbers

  predicate IsDigit(c: char) { '0' <= c <= '9' }

  function Digit(d: nat): char
    requires d < 10
  {
    '0' + d as char
  }

  function Decimal(n: nat): string { if n < 10 then [Digit(n)] else Decimal(n / 10) + [Digit(n % 10)] }

  predicate AllDigits(s: string) { forall i :: 0 <= i < |s| ==> IsDigit(s[i]) }

  function Value(s: string): nat
    requires AllDigits(s)
  {
    if s == "" then 0 else 10 * Value(s[..|s| - 1]) + (s[|s| - 1] as int - '0' as int)
  }

  /** `parse::<usize>()`: an optional plus, at least one digit, nothing else, and no overflow. */
  function ParseUsize(s: string): Option<nat> {
    var digits := if s != "" && s[0] == '+' then s[1..] else s;
    if digits != "" && AllDigits(digits) && Value(digits) <= USIZE_MAX then Some(Value(digits)) else None
  }

  lemma {:induction false} DecimalReads(n: nat)
    ensures Decimal(n) != "" && AllDigits(Decimal(n)) && Value(Decimal(n)) == n && IsAscii(Decimal(n))
  {
    if n < 10 {
      assert Value(Decimal(n)[..0]) == 0;
    } else {
      DecimalReads(n / 10);
      assert Decimal(n)[..|Decimal(n)| - 1] == Decimal(n / 10);
    }
  }

  /** Printing a length and parsing it back are inverse. */
  lemma DecimalRoundTrip(n: nat)
    requires n <= USIZE_MAX
    ensures ParseUsize(Decimal(n)) == Some(n)
  {
    DecimalReads(n);
    assert IsDigit(Decimal(n)[0]);
  }

  // ---------------------------------------------------------------- sending

  const HEADER := "Content-Length:"

  datatype SendError = TooLarge | NotRunning

  datatype SendResult = Sent(frame: Bytes) | Refused(error: SendError)

  function Head(n: nat): string { HEADER + " " + Decimal(n) + "\r\n\r\n" }

  lemma HeadIsAscii(n: nat)
    ensures IsAscii(Head(n)) && IsAscii(HEADER + " " + Decimal(n) + "\r\n") && IsAscii("\r\n")
  {
    DecimalReads(n);
  }

  function Encode(body: Bytes): Bytes {
    HeadIsAscii(|body|);
    Ascii(Head(|body|)) + body
  }

  function SendFrame(body: Bytes, running: bool): SendResult {
    if |body| > MAX_REQUEST then Refused(TooLarge)
    else if running then Sent(Encode(body)) else Refused(NotRunning)
  }

  function EncodeAll(bodies: seq<Bytes>): Bytes {
    if bodies == [] then [] else Encode(bodies[0]) + EncodeAll(bodies[1..])
  }

  // ---------------------------------------------------------------- receiving

  datatype Reason = Eof | ReadError | Oversized | Truncated

  datatype HeaderEnd = Stop(reason: Reason) | Ready(length: Option<nat>, rest: Bytes)

  /** Length of the first line, its newline included. */
  function LineLength(rest: Bytes): (n: nat)
    ensures n <= |rest| && (rest != [] ==> n > 0)
  {
    if rest == [] then 0 else if rest[0] == NEWLINE then 1 else 1 + LineLength(rest[1..])
  }

  function ContentLength(line: string): Option<nat> {
    if HEADER <= line then ParseUsize(Trim(line[|HEADER|..])) else None
  }

  function ReadHeader(decode: Decode, rest: Bytes, length: Option<nat>): (r: HeaderEnd)
    ensures r.Ready? ==> |r.rest| < |rest|
    decreases |rest|
  {
    if rest == [] then Stop(Eof)
    else
      var n := LineLength(rest);
      match decode(rest[..n])
      case None => Stop(ReadError)
      case Some(text) =>
        var line := TrimEnd(text);
        if line == "" then Ready(length, rest[n..])
        else
          var v := ContentLength(line);
          ReadHeader(decode, rest[n..], if v.Some? then v else length)
  }

  datatype Received = Received(bodies: seq<Bytes>, reason: Reason)

  function Then(bodies: seq<Bytes>, r: Received): Received { Received(bodies + r.bodies, r.reason) }

  function Frames(decode: Decode, rest: Bytes): Received
    decreases |rest|
  {
    match ReadHeader(decode, rest, None)
    case Stop(reason) => Received([], reason)
    case Ready(None, after) => Frames(decode, after)
    case Ready(Some(n), after) =>
      if n > MAX_RESPONSE then Received([], Oversized)
      else if n > |after| then Received([], Truncated)
      else Then([after[..n]], Frames(decode, after[n..]))
  }

  /** The reader task, over everything the server will ever print. */
  method Listen(decode: Decode, stdout: Bytes) returns (bodies: seq<Bytes>, reason: Reason)
    ensures Received(bodies, reason) == Frames(decode, stdout)
  {
    bodies := [];
    var reader := stdout;
    while true
      invariant Then(bodies, Frames(decode, reader)) == Frames(decode, stdout)
      decreases |reader|
    {
      ghost var start := reader;
      var contentLength: Option<nat> := None;
      while true
        invariant ReadHeader(decode, reader, contentLength) == ReadHeader(decode, start, None)
        invariant |reader| <= |start|
        decreases |reader|
      {
        if reader == [] { return bodies, Eof; }
        var n := LineLength(reader);
        var header := decode(reader[..n]);
        if header.None? { return bodies, ReadError; }
        reader := reader[n..];
        var line := TrimEnd(header.value);
        if line == "" { break; }
        var value := ContentLength(line);
        if value.Some? { contentLength := value; }
      }
      if contentLength.None? { continue; }
      var length := contentLength.value;
      if length > MAX_RESPONSE { return bodies, Oversized; }
      if length > |reader| { return bodies, Truncated; }
      bodies, reader := bodies + [reader[..length]], reader[length..];
    }
  }
}
