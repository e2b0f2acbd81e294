/** Transcript pages and the cursors that chain them: one fetch. */
module Paging {
  import opened Prelude

  const PAGE_TURNS := 100

  // ---------------------------------------------------------------- cursors

  datatype Cursor = Cursor(session: string, generation: string, message: string)

  predicate RefChar(c: char) {
    'a' <= c <= 'z' || 'A' <= c <= 'Z' || '0' <= c <= '9' || c == '_' || c == ':' || c == '.' || c == '-'
  }

  predicate ValidRef(s: string) { 1 <= |s| <= 128 && forall i :: 0 <= i < |s| ==> RefChar(s[i]) }

  function Encode(c: Cursor): string { c.session + ":" + c.generation + ":" + c.message }

  /** What stands before and after the first colon. */
  function SplitOnce(s: string): Option<(string, string)> {
    if s == "" then None
    else if s[0] == ':' then Some(("", s[1..]))
    else match SplitOnce(s[1..])
      case None => None
      case Some((a, b)) => Some(([s[0]] + a, b))
  }

  /** `splitn(3, ':')`, then the session and the message reference are checked; the generation is not. */
  function Decode(raw: string, session: string): Option<Cursor> {
    match SplitOnce(raw)
    case None => None
    case Some((s, rest)) =>
      match SplitOnce(rest)
      case None => None
      case Some((g, m)) => if s != session || !ValidRef(m) then None else Some(Cursor(s, g, m))
  }

  lemma {:induction false} SplitJoins(s: string)
    ensures SplitOnce(s).Some? <==> ':' in s
    ensures SplitOnce(s).Some? ==> var (a, b) := SplitOnce(s).value; ':' !in a && a + ":" + b == s
    decreases |s|
  {
    if s != "" {
      SplitJoins(s[1..]);
      assert s == [s[0]] + s[1..];
    }
  }

  lemma {:induction false} SplitUnique(a: string, b: string)
    requires ':' !in a
    ensures SplitOnce(a + ":" + b) == Some((a, b))
    decreases |a|
  {
    var s := a + ":" + b;
    if a == "" {
      assert s[1..] == b;
    } else {
      assert s[1..] == a[1..] + ":" + b;
      SplitUnique(a[1..], b);
      assert [a[0]] + a[1..] == a;
    }
  }

  /** The first segment read back is the one written iff it holds no colon. */
  lemma SplitIff(a: string, b: string)
    ensures SplitOnce(a + ":" + b).Some?
    ensures SplitOnce(a + ":" + b).value.0 == a <==> ':' !in a
  {
    var s := a + ":" + b;
    assert s[|a|] == ':';
    SplitJoins(s);
    if ':' !in a { SplitUnique(a, b); }
  }

  /** Decoding inverts encoding exactly when the first two segments hold no colon and the reference is valid. */
  lemma DecodeEncodeIff(c: Cursor)
    ensures Decode(Encode(c), c.session) == Some(c) <==>
            ':' !in c.session && ':' !in c.generation && ValidRef(c.message)
  {
    var rest := c.generation + ":" + c.message;
    assert Encode(c) == c.session + ":" + rest;
    SplitIff(c.session, rest);
    if ':' !in c.session {
      SplitUnique(c.session, rest);
      SplitIff(c.generation, c.message);
      if ':' !in c.generation { SplitUnique(c.generation, c.message); }
    }
  }

  /** Whatever decodes is the encoding of what it decodes to, for this session. */
  lemma EncodeDecode(raw: string, session: string)
    requires Decode(raw, session).Some?
    ensures var c := Decode(raw, session).value; Encode(c) == raw && c.session == session && ValidRef(c.message)
  {
    SplitJoins(raw);
    SplitJoins(SplitOnce(raw).value.1);
    var c := Decode(raw, session).value;
    assert Encode(c) == c.session + ":" + (c.generation + ":" + c.message);
  }

  // ---------------------------------------------------------------- the page cut

  /** A turn, by the id of the message that opened it and its content.  The compaction lead has no id. */
  datatype Turn = Turn(id: Option<string>, content: nat)

  datatype Refusal = OtherSession | Contradiction | TranscriptMissing | MessageGone

  datatype Outcome = Page(start: nat, cut: nat, older: Option<string>) | Refused(why: Refusal)

  /** What one request sees: the turns, the compaction lead included, and the files' generation. */
  datatype View = View(session: string, generation: string, turns: seq<Turn>, missing: bool)

  /** First turn opened by this message, or the number of turns. */
  function Position(turns: seq<Turn>, id: string): (i: nat)
    ensures i <= |turns|
    ensures i < |turns| ==> turns[i].id == Some(id)
    ensures forall k :: 0 <= k < i ==> turns[k].id != Some(id)
  {
    if turns == [] then 0 else if turns[0].id == Some(id) then 0 else 1 + Position(turns[1..], id)
  }

  function Max(a: nat, b: nat): nat { if a > b then a else b }

  function BackFrom(cut: nat): nat { if cut > PAGE_TURNS then cut - PAGE_TURNS else 0 }

  /** The page of at most 100 turns ending at cut and starting no earlier than anchor. */
  function PageAt(v: View, cut: nat, anchor: nat): Outcome
    requires anchor <= cut <= |v.turns|
  {
    var start := Max(anchor, BackFrom(cut));
    Page(start, cut,
         if 0 < start < cut && v.turns[start].id.Some?
         then Some(Encode(Cursor(v.session, v.generation, v.turns[start].id.value))) else None)
  }

  predicate Undecodable(raw: Option<string>, session: string) {
    raw.Some? && Decode(raw.value, session).None?
  }

  /** What a request for a page is answered. */
  function Fetch(v: View, before: Option<string>, from: Option<string>): (r: Outcome)
    ensures r.Page? ==> r.start <= r.cut <= |v.turns| && r.cut - r.start <= PAGE_TURNS
  {
    if Undecodable(before, v.session) || Undecodable(from, v.session) then Refused(OtherSession)
    else if before.Some? && from.Some? then Refused(Contradiction)
    else if v.missing then Refused(TranscriptMissing)
    else if before.Some? then
      var cut := Position(v.turns, Decode(before.value, v.session).value.message);
      if cut == |v.turns| then Refused(MessageGone) else PageAt(v, cut, 0)
    else if from.Some? then
      var held := Position(v.turns, Decode(from.value, v.session).value.message);
      if held == |v.turns| then Refused(MessageGone) else PageAt(v, |v.turns|, held)
    else PageAt(v, |v.turns|, 0)
  }

  // ---------------------------------------------------------------- what a request is answered

  /** The code of a letter, a digit, a hyphen, a dot, a colon or an underscore. */
  predicate RefCode(n: int) {
    65 <= n <= 90 || 97 <= n <= 122 || 48 <= n <= 57 || n == 45 || n == 46 || n == 58 || n == 95
  }

  /** The text is session, generation and message joined by colons, the first two without one, and the message is
      one to 128 such characters. */
  predicate IsCursor(raw: string, session: string, c: Cursor) {
    && c.session == session && ':' !in session && ':' !in c.generation
    && raw == session + ":" + c.generation + ":" + c.message
    && 1 <= |c.message| <= 128 && forall i :: 0 <= i < |c.message| ==> RefCode(c.message[i] as int)
  }

  /** Exactly the texts that are cursors of this session decode, each to the cursor it spells. */
  lemma DecodeIff(raw: string, session: string, c: Cursor)
    ensures Decode(raw, session) == Some(c) <==> IsCursor(raw, session, c)
  {
    assert forall x: char :: RefChar(x) <==> RefCode(x as int);
    if Decode(raw, session) == Some(c) {
      EncodeDecode(raw, session);
      SplitJoins(raw);
      SplitJoins(SplitOnce(raw).value.1);
    }
    if IsCursor(raw, session, c) {
      assert raw == Encode(c);
      DecodeEncodeIff(c);
    }
  }

  ghost predicate Readable(raw: string, session: string) { exists c :: IsCursor(raw, session, c) }

  lemma ReadableIff(raw: string, session: string)
    ensures Readable(raw, session) <==> Decode(raw, session).Some?
  {
    if Readable(raw, session) {
      var c :| IsCursor(raw, session, c);
      DecodeIff(raw, session, c);
    }
    if Decode(raw, session).Some? { DecodeIff(raw, session, Decode(raw, session).value); }
  }

  /** Some cursor of the request names a message that no turn was opened by. */
  ghost predicate NamesGone(v: View, cursor: Option<string>) {
    cursor != None && exists c :: IsCursor(cursor.value, v.session, c) && Gone(v.turns, c.message)
  }

  predicate Gone(turns: seq<Turn>, id: string) { forall i :: 0 <= i < |turns| ==> turns[i].id != Some(id) }

  lemma GoneIff(v: View, cursor: string)
    requires Decode(cursor, v.session).Some?
    ensures NamesGone(v, Some(cursor)) <==> Position(v.turns, Decode(cursor, v.session).value.message) == |v.turns|
  {
    var c := Decode(cursor, v.session).value;
    DecodeIff(cursor, v.session, c);
    if NamesGone(v, Some(cursor)) {
      var d :| IsCursor(cursor, v.session, d) && Gone(v.turns, d.message);
      DecodeIff(cursor, v.session, d);
    }
  }

  ghost predicate AllReadable(v: View, before: Option<string>, from: Option<string>) {
    (before != None ==> Readable(before.value, v.session)) && (from != None ==> Readable(from.value, v.session))
  }

  /** When a page is refused, and with which of the four reasons. */
  lemma RefusedIff(v: View, before: Option<string>, from: Option<string>)
    ensures var r := Fetch(v, before, from); var ok := AllReadable(v, before, from);
      && (r == Refused(OtherSession) <==> !ok)
      && (r == Refused(Contradiction) <==> ok && before != None && from != None)
      && (r == Refused(TranscriptMissing) <==> ok && (before == None || from == None) && v.missing)
      && (r == Refused(MessageGone) <==>
            ok && (before == None || from == None) && !v.missing && (NamesGone(v, before) || NamesGone(v, from)))
  {
    if before.Some? {
      ReadableIff(before.value, v.session);
      if Decode(before.value, v.session).Some? { GoneIff(v, before.value); }
    }
    if from.Some? {
      ReadableIff(from.value, v.session);
      if Decode(from.value, v.session).Some? { GoneIff(v, from.value); }
    }
  }

  /** The cursor names turn p, the first that its message opened. */
  ghost predicate Points(v: View, cursor: string, p: nat) {
    exists c :: IsCursor(cursor, v.session, c) && FirstTurn(v.turns, c.message, p)
  }

  predicate FirstTurn(turns: seq<Turn>, id: string, p: nat) {
    p < |turns| && turns[p].id == Some(id) && forall k :: 0 <= k < p ==> turns[k].id != Some(id)
  }

  lemma PointsTo(v: View, cursor: string)
    requires Decode(cursor, v.session).Some?
    ensures var p := Position(v.turns, Decode(cursor, v.session).value.message);
      p < |v.turns| ==> Points(v, cursor, p)
  {
    DecodeIff(cursor, v.session, Decode(cursor, v.session).value);
  }

  /** What a page holds: it ends before the turn `before` names, or at the end; it goes back a hundred turns, or
      to the turn `from` names if that is later; and it hands out a cursor for its first turn unless that is the
      very first, has no id, or there is none. */
  lemma PageIs(v: View, before: Option<string>, from: Option<string>)
    requires Fetch(v, before, from).Page?
    ensures var r := Fetch(v, before, from);
      && (if before == None then r.cut == |v.turns| else Points(v, before.value, r.cut))
      && (from == None ==> r.start == if r.cut > 100 then r.cut - 100 else 0)
      && (from != None ==> exists held: nat ::
            Points(v, from.value, held) && r.start == if held + 100 > |v.turns| then held else |v.turns| - 100)
      && r.older == if 0 < r.start < r.cut && v.turns[r.start].id != None
                    then Some(v.session + ":" + v.generation + ":" + v.turns[r.start].id.value) else None
  {
    if before.Some? { PointsTo(v, before.value); }
    if from.Some? {
      PointsTo(v, from.value);
      assert Points(v, from.value, Position(v.turns, Decode(from.value, v.session).value.message));
    }
  }

  method Find(turns: seq<Turn>, id: string) returns (i: nat)
    ensures i == Position(turns, id)
  {
    i := 0;
    while i < |turns| && turns[i].id != Some(id)
      invariant i <= |turns| && forall k :: 0 <= k < i ==> turns[k].id != Some(id)
    {
      i := i + 1;
    }
  }

  method ConversationPage(v: View, before: Option<string>, from: Option<string>) returns (r: Outcome)
    ensures r == Fetch(v, before, from)
    ensures r.Page? ==> r.start <= r.cut <= |v.turns| && r.cut - r.start <= PAGE_TURNS
  {
    var b: Option<Cursor> := None;
    if before.Some? {
      b := Decode(before.value, v.session);
      if b.None? { return Refused(OtherSession); }
    }
    var f: Option<Cursor> := None;
    if from.Some? {
      f := Decode(from.value, v.session);
      if f.None? { return Refused(OtherSession); }
    }
    if b.Some? && f.Some? { return Refused(Contradiction); }
    if v.missing { return Refused(TranscriptMissing); }
    var cut := |v.turns|;
    if b.Some? {
      cut := Find(v.turns, b.value.message);
      if cut == |v.turns| { return Refused(MessageGone); }
    }
    var start := 0;
    if f.Some? {
      var pos := Find(v.turns, f.value.message);
      if pos == |v.turns| { return Refused(MessageGone); }
      if pos < cut { start := pos; }
    }
    var pageLen := if cut - start < PAGE_TURNS then cut - start else PAGE_TURNS;
    start := cut - pageLen;
    var page := v.turns[start..cut];
    var older: Option<string> := None;
    if start > 0 && page != [] && page[0].id.Some? {
      older := Some(Encode(Cursor(v.session, v.generation, page[0].id.value)));
    }
    r := Page(start, cut, older);
  }
}
