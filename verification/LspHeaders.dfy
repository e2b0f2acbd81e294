/** Header blocks in general: any header lines, in any order, with any spacing around the length. */
module LspHeaders {
  import opened Prelude
  import opened LspFraming
  import opened LspRoundTrip

  // ---------------------------------------------------------------- white space and digits

  /** The code points of Unicode's White_Space property. */
  predicate SpaceCode(n: int) {
    9 <= n <= 13 || n == 32 || n == 133 || n == 160 || n == 5760 || 8192 <= n <= 8202 || n == 8232 || n == 8233
    || n == 8239 || n == 8287 || n == 12288
  }

  predicate Blanks(s: string) { forall i :: 0 <= i < |s| ==> SpaceCode(s[i] as int) }

  /** Text that neither starts nor ends with white space. */
  predicate Tight(s: string) { s != "" && !SpaceCode(s[0] as int) && !SpaceCode(s[|s| - 1] as int) }

  lemma {:induction false} TrimEndStrips(s: string, b: string)
    requires Blanks(b) && (s == "" || !SpaceCode(s[|s| - 1] as int))
    ensures TrimEnd(s + b) == s
    decreases |b|
  {
    if b == "" {
      assert s + b == s;
    } else {
      var t := s + b;
      assert t[..|t| - 1] == s + b[..|b| - 1] && t[|t| - 1] == b[|b| - 1];
      TrimEndStrips(s, b[..|b| - 1]);
    }
  }

  lemma {:induction false} TrimStartStrips(a: string, s: string)
    requires Blanks(a) && (s == "" || !SpaceCode(s[0] as int))
    ensures TrimStart(a + s) == s
    decreases |a|
  {
    if a == "" {
      assert a + s == s;
    } else {
      assert (a + s)[1..] == a[1..] + s;
      TrimStartStrips(a[1..], s);
    }
  }

  lemma {:induction false} TrimEndLeaves(s: string) returns (b: string)
    ensures Blanks(b) && s == TrimEnd(s) + b
    ensures TrimEnd(s) == "" || !SpaceCode(TrimEnd(s)[|TrimEnd(s)| - 1] as int)
    decreases |s|
  {
    b := "";
    if s != "" {
      var c := s[|s| - 1];
      SpaceIs(c);
      if IsSpace(c) {
        var b0 := TrimEndLeaves(s[..|s| - 1]);
        b := b0 + [c];
        OneBlankMore(TrimEnd(s), b0, c);
        assert s == s[..|s| - 1] + [c];
      }
    }
  }

  lemma SpaceIs(c: char)
    ensures IsSpace(c) <==> SpaceCode(c as int)
  {
  }

  lemma OneBlankMore(s: string, b: string, c: char)
    requires Blanks(b) && SpaceCode(c as int)
    ensures Blanks(b + [c]) && Blanks([c] + b)
    ensures s + (b + [c]) == s + b + [c] && [c] + (b + s) == [c] + b + s
  {
  }

  lemma {:induction false} TrimStartLeaves(s: string) returns (a: string)
    ensures Blanks(a) && s == a + TrimStart(s)
    ensures TrimStart(s) == "" || !SpaceCode(TrimStart(s)[0] as int)
    decreases |s|
  {
    a := "";
    if s != "" {
      SpaceIs(s[0]);
      if IsSpace(s[0]) {
        var a0 := TrimStartLeaves(s[1..]);
        a := [s[0]] + a0;
        OneBlankMore(TrimStart(s), a0, s[0]);
        assert s == [s[0]] + s[1..];
      }
    }
  }

  /** Trimming takes the white space off both ends and nothing else. */
  lemma TrimIs(a: string, s: string, b: string)
    requires Blanks(a) && Blanks(b) && Tight(s)
    ensures Trim(a + s + b) == s
  {
    var t := a + s;
    assert t[|t| - 1] == s[|s| - 1];
    TrimEndStrips(t, b);
    TrimStartStrips(a, s);
  }

  lemma Trimmed(t: string) returns (a: string, b: string)
    ensures Blanks(a) && Blanks(b) && t == a + Trim(t) + b
  {
    b := TrimEndLeaves(t);
    a := TrimStartLeaves(TrimEnd(t));
  }

  /** A digit more is ten times the number so far, and the digit. */
  lemma ValueIs(s: string, c: char)
    requires AllDigits(s) && IsDigit(c)
    ensures 48 <= c as int <= 57 && Value("") == 0 && Value(s + [c]) == 10 * Value(s) + (c as int - 48)
  {
    assert (s + [c])[..|s|] == s;
  }

  // ---------------------------------------------------------------- what a length line is

  /** The line names the length n: white space, an optional plus, at least one digit, white space. */
  predicate Spells(line: string, n: nat, a: string, plus: bool, digits: string, b: string) {
    && Blanks(a) && Blanks(b)
    && digits != "" && AllDigits(digits) && Value(digits) == n && n <= 18_446_744_073_709_551_615
    && line == "Content-Length:" + (a + ((if plus then "+" else "") + digits) + b)
  }

  ghost predicate NamesLength(line: string, n: nat) { exists a, plus, d, b :: Spells(line, n, a, plus, d, b) }

  lemma SpelledIsRead(line: string, n: nat, a: string, plus: bool, digits: string, b: string)
    requires Spells(line, n, a, plus, digits, b)
    ensures ContentLength(line) == Some(n)
  {
    var s := (if plus then "+" else "") + digits;
    assert IsDigit(digits[0]) && IsDigit(digits[|digits| - 1]);
    assert s[|s| - 1] == digits[|digits| - 1];
    TrimIs(a, s, b);
    assert line[|HEADER|..] == a + s + b;
    assert (if s[0] == '+' then s[1..] else s) == digits;
  }

  lemma ReadIsSpelled(line: string, n: nat)
    requires ContentLength(line) == Some(n)
    ensures NamesLength(line, n)
  {
    var t := line[|HEADER|..];
    var s := Trim(t);
    var a, b := Trimmed(t);
    var plus := s[0] == '+';
    var digits := if plus then s[1..] else s;
    assert s == (if plus then "+" else "") + digits;
    assert line == HEADER + t;
    assert Spells(line, n, a, plus, digits, b);
  }

  /** Which lines set a length, and to what: no other line does. */
  lemma LengthIff(line: string, n: nat)
    ensures ContentLength(line) == Some(n) <==> NamesLength(line, n)
  {
    if ContentLength(line) == Some(n) { ReadIsSpelled(line, n); }
    if NamesLength(line, n) {
      var a, plus, d, b :| Spells(line, n, a, plus, d, b);
      SpelledIsRead(line, n, a, plus, d, b);
    }
  }

  // ---------------------------------------------------------------- header blocks

  /** A header line as a server writes it, without its line end. */
  predicate HeaderLine(l: string) {
    IsAscii(l) && l != "" && !SpaceCode(l[|l| - 1] as int) && forall i :: 0 <= i < |l| ==> l[i] != '\n'
  }

  predicate HeaderLines(lines: seq<string>) { forall k :: 0 <= k < |lines| ==> HeaderLine(lines[k]) }

  function Block(lines: seq<string>): string {
    if lines == [] then "\r\n" else lines[0] + "\r\n" + Block(lines[1..])
  }

  lemma {:induction false} BlockIsAscii(lines: seq<string>)
    requires HeaderLines(lines)
    ensures IsAscii(Block(lines))
    decreases |lines|
  {
    if lines != [] { BlockIsAscii(lines[1..]); }
  }

  /** Line k names the length n, and no later line names any. */
  ghost predicate LastAt(lines: seq<string>, k: nat, n: nat) {
    k < |lines| && NamesLength(lines[k], n) && forall j, m :: k < j < |lines| ==> !NamesLength(lines[j], m)
  }

  /** The last line that names a length decides. */
  ghost predicate Decides(lines: seq<string>, length: Option<nat>) {
    match length
    case None => forall k, n :: 0 <= k < |lines| ==> !NamesLength(lines[k], n)
    case Some(n) => exists k: nat :: LastAt(lines, k, n)
  }

  lemma NoLength(line: string)
    ensures ContentLength(line) == None <==> forall n :: !NamesLength(line, n)
  {
    if ContentLength(line).Some? { LengthIff(line, ContentLength(line).value); }
    forall n | ContentLength(line) == None ensures !NamesLength(line, n) { LengthIff(line, n); }
  }

  lemma DecidesOnce(lines: seq<string>, a: Option<nat>, b: Option<nat>)
    requires Decides(lines, a) && Decides(lines, b)
    ensures a == b
  {
    if a.Some? && b.Some? {
      var j: nat :| LastAt(lines, j, a.value);
      var k: nat :| LastAt(lines, k, b.value);
      LengthIff(lines[j], a.value);
      LengthIff(lines[k], b.value);
    }
  }

  lemma DecidesFrom(lines: seq<string>, rest: Option<nat>)
    requires lines != [] && Decides(lines[1..], rest)
    ensures Decides(lines, if rest.Some? then rest else ContentLength(lines[0]))
  {
    var v := ContentLength(lines[0]);
    NoLength(lines[0]);
    if rest.Some? {
      var k: nat :| LastAt(lines[1..], k, rest.value);
      LaterAt(lines, k, rest.value);
    } else if v.Some? {
      LengthIff(lines[0], v.value);
      assert forall j :: 0 < j < |lines| ==> lines[j] == lines[1..][j - 1];
      assert LastAt(lines, 0, v.value);
    } else {
      assert forall j :: 0 < j < |lines| ==> lines[j] == lines[1..][j - 1];
    }
  }

  lemma LaterAt(lines: seq<string>, k: nat, n: nat)
    requires lines != [] && LastAt(lines[1..], k, n)
    ensures LastAt(lines, k + 1, n)
  {
    assert forall j :: 0 < j < |lines| ==> lines[j] == lines[1..][j - 1];
  }

  lemma BlockStarts(lines: seq<string>, x: Bytes)
    requires HeaderLines(lines) && lines != []
    ensures IsAscii(Block(lines)) && IsAscii(lines[0] + "\r\n") && IsAscii(Block(lines[1..]))
    ensures Ascii(Block(lines)) + x == Ascii(lines[0] + "\r\n") + (Ascii(Block(lines[1..])) + x)
  {
    BlockIsAscii(lines);
    BlockIsAscii(lines[1..]);
    assert HeaderLine(lines[0]);
  }

  lemma LineReads(decode: Decode, l: string, x: Bytes, length: Option<nat>)
    requires AsciiOk(decode) && HeaderLine(l)
    ensures IsAscii(l + "\r\n")
    ensures ReadHeader(decode, Ascii(l + "\r\n") + x, length) ==
            ReadHeader(decode, x, if ContentLength(l).Some? then ContentLength(l) else length)
  {
    TrimEndStrips(l, "\r\n");
    ReadLine(decode, l + "\r\n", x, length);
  }

  /** A whole block is read to its blank line. */
  lemma {:induction false} BlockReads(decode: Decode, lines: seq<string>, x: Bytes, length: Option<nat>)
    returns (said: Option<nat>)
    requires AsciiOk(decode) && HeaderLines(lines)
    ensures IsAscii(Block(lines)) && Decides(lines, said)
    ensures ReadHeader(decode, Ascii(Block(lines)) + x, length) == Ready(if said.Some? then said else length, x)
    decreases |lines|
  {
    if lines == [] {
      AfterBlank(decode, x, length);
      said := None;
    } else {
      var v := ContentLength(lines[0]);
      BlockStarts(lines, x);
      assert HeaderLine(lines[0]);
      LineReads(decode, lines[0], Ascii(Block(lines[1..])) + x, length);
      said := BlockReads(decode, lines[1..], x, if v.Some? then v else length);
      DecidesFrom(lines, said);
      said := if said.Some? then said else v;
    }
  }

  /** Whatever headers a frame has, the last length among them counts: without one the block is skipped, above
      16 MiB or beyond the end of the stream the reader stops, and otherwise the next so many bytes are a body. */
  lemma HeadersDecide(decode: Decode, lines: seq<string>, length: Option<nat>, rest: Bytes)
    requires AsciiOk(decode) && HeaderLines(lines) && Decides(lines, length)
    ensures IsAscii(Block(lines))
    ensures Frames(decode, Ascii(Block(lines)) + rest) ==
      match length
      case None => Frames(decode, rest)
      case Some(n) =>
        if n > 16_777_216 then Received([], Oversized)
        else if n > |rest| then Received([], Truncated)
        else Then([rest[..n]], Frames(decode, rest[n..]))
  {
    var said := BlockReads(decode, lines, rest, None);
    DecidesOnce(lines, said, length);
  }

  /** What goes over the wire, and when nothing does. */
  lemma SendIs(body: Bytes, running: bool)
    ensures IsAscii("Content-Length: " + Decimal(|body|) + "\r\n\r\n")
    ensures SendFrame(body, running) ==
      if |body| > 8_388_608 then Refused(TooLarge)
      else if !running then Refused(NotRunning)
      else Sent(Ascii("Content-Length: " + Decimal(|body|) + "\r\n\r\n") + body)
  {
    HeadIsAscii(|body|);
    assert Head(|body|) == "Content-Length: " + Decimal(|body|) + "\r\n\r\n";
  }

  /** The length is printed without leading zeros, and reads back as the number it is. */
  lemma {:induction false} DecimalIs(n: nat)
    ensures AllDigits(Decimal(n)) && Value(Decimal(n)) == n
    ensures Decimal(n) != "" && (|Decimal(n)| > 1 ==> Decimal(n)[0] != '0')
  {
    DecimalReads(n);
    if n >= 10 {
      DecimalIs(n / 10);
      DecimalReads(n / 10);
      if |Decimal(n / 10)| == 1 { assert Decimal(n / 10)[0] != '0'; }
    }
  }
}
