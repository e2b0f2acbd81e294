/** What is sent is what is received: whole streams round-trip, and a stream cut short yields a prefix. */
module LspRoundTrip {
  import opened Prelude
  import opened LspFraming

  function Line(n: nat): string { HEADER + " " + Decimal(n) + "\r\n" }

  const BLANK := "\r\n"

  lemma {:induction false} LineEnds(l: Bytes, x: Bytes)
    requires l != [] && l[|l| - 1] == NEWLINE && forall i :: 0 <= i < |l| - 1 ==> l[i] != NEWLINE
    ensures LineLength(l + x) == |l|
    decreases |l|
  {
    if |l| > 1 {
      assert (l + x)[1..] == l[1..] + x;
      LineEnds(l[1..], x);
    }
  }

  lemma {:induction false} NoLineEnd(l: Bytes)
    requires forall i :: 0 <= i < |l| ==> l[i] != NEWLINE
    ensures LineLength(l) == |l|
    decreases |l|
  {
    if l != [] { NoLineEnd(l[1..]); }
  }

  lemma EncodeIs(body: Bytes)
    ensures IsAscii(Line(|body|)) && IsAscii(BLANK)
    ensures Encode(body) == Ascii(Line(|body|)) + Ascii(BLANK) + body
  {
    HeadIsAscii(|body|);
    assert Head(|body|) == Line(|body|) + BLANK;
    assert Ascii(Head(|body|)) == Ascii(Line(|body|)) + Ascii(BLANK);
  }

  /** A header line is one line, and what it says is its length. */
  lemma LineFacts(n: nat)
    requires n <= USIZE_MAX
    ensures IsAscii(Line(n))
    ensures forall i :: 0 <= i < |Line(n)| - 1 ==> Line(n)[i] != '\n'
    ensures Line(n)[|Line(n)| - 1] == '\n'
    ensures TrimEnd(Line(n)) == HEADER + " " + Decimal(n)
    ensures ContentLength(TrimEnd(Line(n))) == Some(n)
  {
    DecimalReads(n);
    HeadIsAscii(n);
    DecimalRoundTrip(n);
    assert forall i :: 0 <= i < |HEADER| ==> HEADER[i] != '\n';
    TextFacts(HEADER, Decimal(n));
  }

  /** A header line made of a name without line ends and some digits. */
  lemma TextFacts(name: string, d: string)
    requires d != "" && AllDigits(d) && forall i :: 0 <= i < |name| ==> name[i] != '\n'
    ensures var text := name + " " + d; var line := text + "\r\n";
      && (forall i :: 0 <= i < |line| - 1 ==> line[i] != '\n')
      && line[|line| - 1] == '\n'
      && TrimEnd(line) == text && name <= text && Trim(text[|name|..]) == d
  {
    var text := name + " " + d;
    assert IsDigit(text[|text| - 1]) by { assert text[|text| - 1] == d[|d| - 1]; }
    TrimNewline(text);
    assert text[|name|..] == " " + d;
    TrimSpace(d);
  }

  lemma TrimNewline(text: string)
    requires text != "" && !IsSpace(text[|text| - 1])
    ensures TrimEnd(text + "\r\n") == text
  {
    var two := text + "\r\n";
    var one := text + "\r";
    assert two[..|two| - 1] == one && one[..|one| - 1] == text;
    assert TrimEnd(two) == TrimEnd(one) == TrimEnd(text);
  }

  lemma TrimSpace(d: string)
    requires d != "" && AllDigits(d)
    ensures Trim(" " + d) == d
  {
    assert IsDigit(d[0]) && IsDigit(d[|d| - 1]);
    var s := " " + d;
    assert s[1..] == d && s[|s| - 1] == d[|d| - 1];
    assert TrimEnd(s) == s && TrimStart(s) == TrimStart(d) == d;
  }

  lemma ReadLine(decode: Decode, s: string, x: Bytes, length: Option<nat>)
    requires AsciiOk(decode) && IsAscii(s) && s != ""
    requires forall i :: 0 <= i < |s| - 1 ==> s[i] != '\n'
    requires s[|s| - 1] == '\n' || x == []
    ensures var line := TrimEnd(s);
      ReadHeader(decode, Ascii(s) + x, length) ==
      if line == "" then Ready(length, x)
      else ReadHeader(decode, x, if ContentLength(line).Some? then ContentLength(line) else length)
  {
    var l := Ascii(s);
    if s[|s| - 1] == '\n' { LineEnds(l, x); } else { NoLineEnd(l); assert l + x == l; }
    assert (l + x)[..|l|] == l && (l + x)[|l|..] == x;
  }

  lemma AfterLine(decode: Decode, n: nat, x: Bytes, length: Option<nat>)
    requires AsciiOk(decode) && n <= USIZE_MAX
    ensures IsAscii(Line(n)) && ReadHeader(decode, Ascii(Line(n)) + x, length) == ReadHeader(decode, x, Some(n))
  {
    LineFacts(n);
    ReadLine(decode, Line(n), x, length);
  }

  lemma AfterBlank(decode: Decode, x: Bytes, length: Option<nat>)
    requires AsciiOk(decode)
    ensures IsAscii(BLANK) && ReadHeader(decode, Ascii(BLANK) + x, length) == Ready(length, x)
  {
    assert BLANK[..1] == "\r" && "\r"[..0] == "";
    assert TrimEnd(BLANK) == TrimEnd("\r") == TrimEnd("");
    ReadLine(decode, BLANK, x, length);
  }

  /** A blank line that lost its newline to the end of the stream still counts. */
  lemma AfterReturn(decode: Decode, length: Option<nat>)
    requires AsciiOk(decode)
    ensures IsAscii("\r") && ReadHeader(decode, Ascii("\r"), length) == Ready(length, [])
  {
    assert "\r"[..0] == "";
    assert TrimEnd("\r") == TrimEnd("");
    assert Ascii("\r") + [] == Ascii("\r");
    ReadLine(decode, "\r", [], length);
  }

  /** Both header lines of a frame. */
  lemma HeadReads(decode: Decode, body: Bytes, x: Bytes)
    requires AsciiOk(decode) && |body| <= USIZE_MAX
    ensures ReadHeader(decode, Encode(body) + x, None) == Ready(Some(|body|), body + x)
  {
    EncodeIs(body);
    AfterBlank(decode, body + x, Some(|body|));
    AfterLine(decode, |body|, Ascii(BLANK) + (body + x), None);
    Regroup(Ascii(Line(|body|)), Ascii(BLANK), body, x);
  }

  lemma Regroup(a: Bytes, b: Bytes, c: Bytes, d: Bytes)
    ensures a + b + c + d == a + (b + (c + d))
  {
  }

  lemma FrameReads(decode: Decode, body: Bytes, x: Bytes)
    requires AsciiOk(decode) && |body| <= MAX_RESPONSE
    ensures Frames(decode, Encode(body) + x) == Then([body], Frames(decode, x))
  {
    HeadReads(decode, body, x);
    assert (body + x)[..|body|] == body && (body + x)[|body|..] == x;
  }

  predicate Sendable(bodies: seq<Bytes>) { forall i :: 0 <= i < |bodies| ==> |bodies[i]| <= MAX_REQUEST }

  /** The reader recovers exactly the bodies that `send_frame` accepted, in order, with no bytes left.
      Every accepted body fits, because the send limit lies under the receive limit. */
  lemma {:induction false} FramingRoundTrip(decode: Decode, bodies: seq<Bytes>)
    requires AsciiOk(decode) && Sendable(bodies)
    ensures Frames(decode, EncodeAll(bodies)) == Received(bodies, Eof)
    decreases |bodies|
  {
    if bodies != [] {
      FramingRoundTrip(decode, bodies[1..]);
      FrameReads(decode, bodies[0], EncodeAll(bodies[1..]));
      assert [bodies[0]] + bodies[1..] == bodies;
    }
  }

  // ---------------------------------------------------------------- cut streams

  lemma {:induction false} TrimEndKeepsStart(s: string)
    requires s != "" && !IsSpace(s[0])
    ensures TrimEnd(s) != ""
    decreases |s|
  {
    if IsSpace(s[|s| - 1]) { TrimEndKeepsStart(s[..|s| - 1]); }
  }

  /** A cut inside the length line ends the stream, whatever the cut number reads as. */
  lemma CutInLine(decode: Decode, body: Bytes, k: nat)
    requires AsciiOk(decode) && |body| <= USIZE_MAX && k <= |Line(|body|)|
    ensures k <= |Encode(body)| && ReadHeader(decode, Encode(body)[..k], None) == Stop(Eof)
  {
    CutInLineIs(body, k);
    LineFacts(|body|);
    if k > 0 {
      var s := Line(|body|)[..k];
      assert s[0] == HEADER[0] == 'C';
      TrimEndKeepsStart(s);
      PartialLine(decode, s);
    }
  }

  lemma CutInLineIs(body: Bytes, k: nat)
    requires k <= |Line(|body|)|
    ensures IsAscii(Line(|body|)) && k <= |Encode(body)| && Encode(body)[..k] == Ascii(Line(|body|)[..k])
  {
    EncodeIs(body);
    CutAscii(Line(|body|), Ascii(BLANK) + body, k);
    CutThree(Ascii(Line(|body|)), Ascii(BLANK), body, k);
  }

  lemma CutAscii(line: string, x: Bytes, k: nat)
    requires IsAscii(line) && k <= |line|
    ensures (Ascii(line) + x)[..k] == Ascii(line[..k])
  {
  }

  /** A last line without its newline, then the end. */
  lemma PartialLine(decode: Decode, s: string)
    requires AsciiOk(decode) && IsAscii(s) && s != "" && TrimEnd(s) != ""
    requires forall i :: 0 <= i < |s| - 1 ==> s[i] != '\n'
    ensures ReadHeader(decode, Ascii(s), None) == Stop(Eof)
  {
    assert Ascii(s) + [] == Ascii(s);
    ReadLine(decode, s, [], None);
  }

  /** A cut frame after its length line leaves the length and what there is of the body. */
  ghost predicate LeftOver(decode: Decode, frame: Bytes, body: Bytes, k: nat, after: Bytes)
    requires k <= |frame|
  {
    && after <= body
    && ReadHeader(decode, frame[..k], None) == Ready(Some(|body|), after)
    && (k < |frame| && body != [] ==> |after| < |body|)
  }

  lemma CutLater(decode: Decode, line: Bytes, body: Bytes, k: nat) returns (after: Bytes)
    requires AsciiOk(decode) && IsAscii(BLANK)
    requires forall x :: ReadHeader(decode, line + x, None) == ReadHeader(decode, x, Some(|body|))
    requires |line| < k <= |line + Ascii(BLANK) + body|
    ensures LeftOver(decode, line + Ascii(BLANK) + body, body, k, after)
  {
    var j := k - |line|;
    after := if j == 1 then [] else body[..j - 2];
    CutThree(line, Ascii(BLANK), body, k);
    AfterBlankCut(decode, body, j);
  }

  lemma AfterBlankCut(decode: Decode, body: Bytes, j: nat)
    requires AsciiOk(decode) && IsAscii(BLANK) && 1 <= j <= |body| + 2
    ensures ReadHeader(decode, (Ascii(BLANK) + body)[..j], Some(|body|)) ==
            Ready(Some(|body|), if j == 1 then [] else body[..j - 2])
  {
    if j == 1 {
      AfterReturn(decode, Some(|body|));
      assert (Ascii(BLANK) + body)[..1] == Ascii("\r");
    } else {
      AfterBlank(decode, body[..j - 2], Some(|body|));
      assert (Ascii(BLANK) + body)[..j] == Ascii(BLANK) + body[..j - 2];
    }
  }

  lemma CutThree(a: Bytes, b: Bytes, c: Bytes, k: nat)
    requires k <= |a| + |b| + |c|
    ensures a + b + c == a + (b + c)
    ensures |a| <= k ==> (a + b + c)[..k] == a + (b + c)[..k - |a|]
  {
  }

  lemma CutFrame(decode: Decode, body: Bytes, k: nat)
    requires AsciiOk(decode) && |body| <= MAX_RESPONSE && k < |Encode(body)|
    ensures var r := Frames(decode, Encode(body)[..k]); r.bodies <= [body] && (r.reason.Eof? || r.reason.Truncated?)
  {
    if k <= |Line(|body|)| {
      CutInLine(decode, body, k);
    } else {
      EncodeIs(body);
      forall x ensures ReadHeader(decode, Ascii(Line(|body|)) + x, None) == ReadHeader(decode, x, Some(|body|)) {
        AfterLine(decode, |body|, x, None);
      }
      var after := CutLater(decode, Ascii(Line(|body|)), body, k);
      if body == [] {
        assert after[0..] == [] && Frames(decode, []) == Received([], Eof);
        assert after[..0] == body;
      }
    }
  }

  /** However early the server's output is cut, the reader delivers a prefix of the bodies, and ends for
      lack of bytes: it never delivers a body nobody sent and never reports an oversized frame. */
  lemma {:induction false} CutStreamYieldsPrefix(decode: Decode, bodies: seq<Bytes>, k: nat)
    requires AsciiOk(decode) && Sendable(bodies) && k <= |EncodeAll(bodies)|
    ensures var r := Frames(decode, EncodeAll(bodies)[..k]);
      r.bodies <= bodies && (r.reason.Eof? || r.reason.Truncated?)
    decreases |bodies|
  {
    if bodies != [] {
      var first := Encode(bodies[0]);
      if k < |first| {
        assert EncodeAll(bodies)[..k] == first[..k];
        CutFrame(decode, bodies[0], k);
      } else {
        var j := k - |first|;
        assert EncodeAll(bodies)[..k] == first + EncodeAll(bodies[1..])[..j];
        CutStreamYieldsPrefix(decode, bodies[1..], j);
        FrameReads(decode, bodies[0], EncodeAll(bodies[1..])[..j]);
        assert bodies == [bodies[0]] + bodies[1..];
      }
    }
  }

  /** What `send_frame` lets through the reader will take. */
  lemma AcceptedIsReceived(decode: Decode, body: Bytes, running: bool)
    requires AsciiOk(decode)
    ensures match SendFrame(body, running)
      case Sent(frame) => Frames(decode, frame) == Received([body], Eof)
      case Refused(TooLarge) => |body| > MAX_REQUEST
      case Refused(NotRunning) => !running
  {
    if |body| <= MAX_REQUEST {
      FrameReads(decode, body, []);
      assert Encode(body) + [] == Encode(body);
    }
  }
}
