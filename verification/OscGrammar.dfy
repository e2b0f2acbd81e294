/** What the tracker recognises: every byte history is a list of items and an unfinished tail, and the
    tracker's state is what the items say.  `escs` counts the surplus escapes before an item. */
module OscGrammar {
  import opened Prelude
  import opened Scrollback
  import opened OscTracker

  datatype Item =
    | Text(b: Byte)
    | Plain(escs: nat, b: Byte)                                 // an escape that opens no OSC string
    | Frame(escs: nat, body: Bytes, bel: bool)                  // ESC ] body BEL, or ESC ] body ESC \
    | Overrun(escs: nat, body: Bytes, last: Bytes)              // a body abandoned past its bound

  datatype Tail = Nothing | Escaped(escs: nat) | Open(escs: nat, body: Bytes) | OpenEscaped(escs: nat, body: Bytes)

  /** No terminator inside: bytes other than BEL and ESC, and escapes followed by anything but a backslash. */
  predicate BodyOk(r: Bytes) {
    || r == []
    || (if r[0] == ESC then |r| >= 2 && r[1] != BACKSLASH && BodyOk(r[2..]) else r[0] != BEL && BodyOk(r[1..]))
  }

  /** One unit of body text. */
  predicate Atom(a: Bytes) {
    (|a| == 1 && a[0] != ESC && a[0] != BEL) || (|a| == 2 && a[0] == ESC && a[1] != BACKSLASH)
  }

  predicate ItemOk(i: Item) {
    match i
    case Text(b) => b != ESC
    case Plain(_, b) => b != ESC && b != BRACKET
    case Frame(_, body, _) => BodyOk(body) && |body| <= 4096
    case Overrun(_, body, last) => BodyOk(body) && |body| <= 4096 && Atom(last) && |body| + |last| > 4096
  }

  predicate TailOk(t: Tail) {
    (t.Open? || t.OpenEscaped?) ==> BodyOk(t.body) && |t.body| <= 4096
  }

  predicate ItemsOk(items: seq<Item>) { forall k :: 0 <= k < |items| ==> ItemOk(items[k]) }

  function Escs(n: nat): Bytes { if n == 0 then [] else Escs(n - 1) + [ESC] }

  function Terminator(bel: bool): Bytes { if bel then [BEL] else [ESC, BACKSLASH] }

  function Opener(escs: nat): Bytes { Escs(escs + 1) + [BRACKET] }

  function ItemBytes(i: Item): Bytes {
    match i
    case Text(b) => [b]
    case Plain(escs, b) => Escs(escs + 1) + [b]
    case Frame(escs, body, bel) => Opener(escs) + body + Terminator(bel)
    case Overrun(escs, body, last) => Opener(escs) + body + last
  }

  function TailBytes(t: Tail): Bytes {
    match t
    case Nothing => []
    case Escaped(escs) => Escs(escs + 1)
    case Open(escs, body) => Opener(escs) + body
    case OpenEscaped(escs, body) => Opener(escs) + body + [ESC]
  }

  function Render(items: seq<Item>): Bytes {
    if items == [] then [] else Render(items[..|items| - 1]) + ItemBytes(items[|items| - 1])
  }

  // ---------------------------------------------------------------- meaning

  /** What a frame says under one of the given commands, if it says anything printable. */
  function Says(decode: Decode, i: Item, commands: set<Bytes>): Option<string> {
    if !i.Frame? then None
    else match Split(i.body)
      case None => None
      case Some((c, p)) => if c in commands && Printable(decode(p)) != "" then Some(Printable(decode(p))) else None
  }

  /** The last frame that says anything under one of the given commands. */
  function LastSaid(decode: Decode, items: seq<Item>, commands: set<Bytes>): Option<string> {
    if items == [] then None
    else
      var s := Says(decode, items[|items| - 1], commands);
      if s.Some? then s else LastSaid(decode, items[..|items| - 1], commands)
  }

  const PROGRESS: set<Bytes> := {[0x39]}
  const TITLES: set<Bytes> := {[0x30], [0x32]}

  function ModeOf(t: Tail): Mode {
    match t
    case Nothing => Ground
    case Escaped(_) => Escape
    case Open(_, _) => OscBody
    case OpenEscaped(_, _) => OscEscape
  }

  function Meaning(decode: Decode, items: seq<Item>, tail: Tail): Tracker {
    Tracker(ModeOf(tail), if tail.Open? || tail.OpenEscaped? then tail.body else [],
            LastSaid(decode, items, PROGRESS), LastSaid(decode, items, TITLES))
  }

  // ---------------------------------------------------------------- bodies

  lemma {:induction false} BodyAppend(a: Bytes, b: Bytes)
    requires BodyOk(a) && BodyOk(b)
    ensures BodyOk(a + b)
    decreases |a|
  {
    if a == [] {
      assert a + b == b;
    } else if a[0] == ESC {
      BodyAppend(a[2..], b);
      assert (a + b)[2..] == a[2..] + b;
    } else {
      BodyAppend(a[1..], b);
      assert (a + b)[1..] == a[1..] + b;
    }
  }

  lemma AtomIsBody(a: Bytes)
    requires Atom(a)
    ensures BodyOk(a)
  {
    assert a[|a|..] == [];
    if |a| == 1 { assert BodyOk(a[1..]); } else { assert BodyOk(a[2..]); }
  }

  lemma FoldOne(decode: Decode, t: Tracker, b: Byte)
    ensures Fold(decode, t, [b]) == Feed(decode, t, b)
  {
    assert [b][..0] == [];
    assert Fold(decode, t, []) == t;
  }

  lemma FoldTwo(decode: Decode, t: Tracker, a: Byte, b: Byte)
    ensures Fold(decode, t, [a, b]) == Feed(decode, Feed(decode, t, a), b)
  {
    FoldAppend(decode, t, [a], [b]);
    assert [a] + [b] == [a, b];
    FoldOne(decode, t, a);
    FoldOne(decode, Feed(decode, t, a), b);
  }

  /** An atom that fits goes into the body; one that does not abandons the string. */
  lemma FoldAtom(decode: Decode, t: Tracker, a: Bytes)
    requires t.mode.OscBody? && |t.body| <= MAX_BODY && Atom(a)
    ensures Fold(decode, t, a) ==
            if |t.body| + |a| <= MAX_BODY then t.(body := t.body + a) else t.(body := [], mode := Ground)
  {
    if |a| == 1 { assert a == [a[0]]; FoldOne(decode, t, a[0]); }
    else { assert a == [a[0], a[1]]; FoldTwo(decode, t, a[0], a[1]); }
  }

  lemma FirstAtom(r: Bytes) returns (a: Bytes, rest: Bytes)
    requires BodyOk(r) && r != []
    ensures Atom(a) && BodyOk(rest) && r == a + rest
  {
    var n := if r[0] == ESC then 2 else 1;
    a, rest := r[..n], r[n..];
  }

  lemma {:induction false} FoldBody(decode: Decode, t: Tracker, r: Bytes)
    requires t.mode.OscBody? && BodyOk(r) && |t.body| + |r| <= MAX_BODY
    ensures Fold(decode, t, r) == t.(body := t.body + r)
    decreases |r|
  {
    if r == [] {
      assert t.body + r == t.body;
    } else {
      var a, rest := FirstAtom(r);
      FoldBody(decode, t.(body := t.body + a), rest);
      FoldAtomThen(decode, t, a, rest);
    }
  }

  lemma FoldAtomThen(decode: Decode, t: Tracker, a: Bytes, rest: Bytes)
    requires t.mode.OscBody? && Atom(a) && |t.body| + |a| <= MAX_BODY
    requires Fold(decode, t.(body := t.body + a), rest) == t.(body := t.body + a + rest)
    ensures Fold(decode, t, a + rest) == t.(body := t.body + (a + rest))
  {
    FoldAtom(decode, t, a);
    FoldAppend(decode, t, a, rest);
    assert t.body + a + rest == t.body + (a + rest);
  }

  lemma {:induction false} FoldEscs(decode: Decode, t: Tracker, n: nat)
    requires t.mode.Ground? && t.body == []
    ensures Fold(decode, t, Escs(n)) == if n == 0 then t else t.(mode := Escape)
  {
    if n > 0 {
      FoldEscs(decode, t, n - 1);
      FoldAppend(decode, t, Escs(n - 1), [ESC]);
      FoldOne(decode, Fold(decode, t, Escs(n - 1)), ESC);
    }
  }

  lemma FoldOpener(decode: Decode, t: Tracker, escs: nat, body: Bytes)
    requires t.mode.Ground? && t.body == [] && BodyOk(body) && |body| <= MAX_BODY
    ensures Fold(decode, t, Opener(escs) + body) == t.(mode := OscBody, body := body)
  {
    FoldEscs(decode, t, escs + 1);
    FoldAppend(decode, t, Escs(escs + 1), [BRACKET]);
    FoldOne(decode, t.(mode := Escape), BRACKET);
    FoldAppend(decode, t, Opener(escs), body);
    FoldBody(decode, t.(mode := OscBody), body);
    assert [] + body == body;
  }

  // ---------------------------------------------------------------- items

  /** Between items the tracker is at rest. */
  predicate AtRest(t: Tracker) { t.mode.Ground? && t.body == [] }

  function Told(decode: Decode, t: Tracker, i: Item): Tracker {
    var p := Says(decode, i, PROGRESS);
    var w := Says(decode, i, TITLES);
    t.(payload := if p.Some? then p else t.payload, title := if w.Some? then w else t.title)
  }

  lemma FoldFrame(decode: Decode, t: Tracker, i: Item)
    requires AtRest(t) && ItemOk(i) && i.Frame?
    ensures Fold(decode, t, ItemBytes(i)) == Told(decode, t, i)
  {
    var head := Opener(i.escs) + i.body;
    var t1 := t.(mode := OscBody, body := i.body);
    FoldOpener(decode, t, i.escs, i.body);
    FoldAppend(decode, t, head, Terminator(i.bel));
    if i.bel { FoldOne(decode, t1, BEL); } else { FoldTwo(decode, t1, ESC, BACKSLASH); }
    FinalizeSays(decode, t1, i);
  }

  lemma FinalizeSays(decode: Decode, t: Tracker, i: Item)
    requires i.Frame? && t.body == i.body
    ensures Finalize(decode, t) == Told(decode, t, i).(body := [])
  {
    assert [0x39] !in TITLES && [0x39] in PROGRESS by {
      assert [0x39][0] == 0x39 && [0x30][0] == 0x30 && [0x32][0] == 0x32;
    }
  }

  lemma FoldItem(decode: Decode, t: Tracker, i: Item)
    requires AtRest(t) && ItemOk(i)
    ensures Fold(decode, t, ItemBytes(i)) == Told(decode, t, i) && AtRest(Told(decode, t, i))
  {
    match i
    case Text(b) => FoldOne(decode, t, b);
    case Plain(escs, b) =>
      FoldEscs(decode, t, escs + 1);
      FoldAppend(decode, t, Escs(escs + 1), [b]);
      FoldOne(decode, t.(mode := Escape), b);
    case Frame(_, _, _) => FoldFrame(decode, t, i);
    case Overrun(escs, body, last) =>
      FoldOpener(decode, t, escs, body);
      FoldAppend(decode, t, Opener(escs) + body, last);
      FoldAtom(decode, t.(mode := OscBody, body := body), last);
  }

  lemma {:induction false} FoldItems(decode: Decode, items: seq<Item>)
    requires ItemsOk(items)
    ensures Fold(decode, Start, Render(items)) == Meaning(decode, items, Nothing)
    decreases |items|
  {
    if items != [] {
      var init := items[..|items| - 1];
      var i := items[|items| - 1];
      FoldItems(decode, init);
      FoldAppend(decode, Start, Render(init), ItemBytes(i));
      FoldItem(decode, Meaning(decode, init, Nothing), i);
    }
  }

  lemma FoldTail(decode: Decode, t: Tracker, tail: Tail)
    requires AtRest(t) && TailOk(tail)
    ensures Fold(decode, t, TailBytes(tail)) ==
            t.(mode := ModeOf(tail), body := if tail.Open? || tail.OpenEscaped? then tail.body else [])
  {
    match tail
    case Nothing =>
    case Escaped(escs) => FoldEscs(decode, t, escs + 1);
    case Open(escs, body) => FoldOpener(decode, t, escs, body);
    case OpenEscaped(escs, body) => FoldOpenEscaped(decode, t, escs, body);
  }

  lemma FoldOpenEscaped(decode: Decode, t: Tracker, escs: nat, body: Bytes)
    requires AtRest(t) && BodyOk(body) && |body| <= MAX_BODY
    ensures Fold(decode, t, Opener(escs) + body + [ESC]) == t.(mode := OscEscape, body := body)
  {
    FoldOpener(decode, t, escs, body);
    FoldAppend(decode, t, Opener(escs) + body, [ESC]);
    FoldOne(decode, t.(mode := OscBody, body := body), ESC);
  }

  /** Grammar to tracker: whatever list of items was printed, the tracker's progress and title are the
      last non-empty sanitized ones, and its state is that of the unfinished tail. */
  lemma TrackerReadsGrammar(decode: Decode, items: seq<Item>, tail: Tail)
    requires ItemsOk(items) && TailOk(tail)
    ensures Fold(decode, Start, Render(items) + TailBytes(tail)) == Meaning(decode, items, tail)
  {
    FoldItems(decode, items);
    FoldAppend(decode, Start, Render(items), TailBytes(tail));
    FoldTail(decode, Meaning(decode, items, Nothing), tail);
  }

  // ---------------------------------------------------------------- every history

  /** One more byte after a parse. */
  lemma Extend(items: seq<Item>, tail: Tail, b: Byte) returns (items': seq<Item>, tail': Tail)
    requires ItemsOk(items) && TailOk(tail)
    ensures ItemsOk(items') && TailOk(tail')
    ensures Render(items') + TailBytes(tail') == Render(items) + TailBytes(tail) + [b]
  {
    items', tail' := items, tail;
    match tail
    case Nothing => items', tail' := ExtendOutside(items, tail, b);
    case Escaped(_) => items', tail' := ExtendOutside(items, tail, b);
    case Open(escs, body) =>
      if b == BEL { items' := Close(items, tail, Frame(escs, body, true), b); tail' := Nothing; }
      else if b == ESC { tail' := OpenEscaped(escs, body); }
      else { items', tail' := ExtendBody(items, tail, [b], b); }
    case OpenEscaped(escs, body) =>
      if b == BACKSLASH {
        assert Opener(escs) + body + [ESC] + [BACKSLASH] == Opener(escs) + body + [ESC, BACKSLASH];
        items' := Close(items, tail, Frame(escs, body, false), b); tail' := Nothing;
      } else { items', tail' := ExtendBody(items, tail, [ESC, b], b); }
  }

  lemma ExtendOutside(items: seq<Item>, tail: Tail, b: Byte) returns (items': seq<Item>, tail': Tail)
    requires ItemsOk(items) && (tail.Nothing? || tail.Escaped?)
    ensures ItemsOk(items') && TailOk(tail')
    ensures Render(items') + TailBytes(tail') == Render(items) + TailBytes(tail) + [b]
  {
    var n := if tail.Nothing? then 0 else tail.escs + 1;
    assert TailBytes(tail) == Escs(n) && Escs(n + 1) == Escs(n) + [ESC];
    if b == ESC || (tail.Escaped? && b == BRACKET) {
      items', tail' := items, if b == ESC then Escaped(n) else Open(tail.escs, []);
      assert TailBytes(tail') == Escs(n) + [b];
      Assoc(Render(items), Escs(n), [b]);
    } else {
      items' := Close(items, tail, if tail.Nothing? then Text(b) else Plain(tail.escs, b), b);
      tail' := Nothing;
    }
  }

  lemma Close(items: seq<Item>, tail: Tail, i: Item, b: Byte) returns (items': seq<Item>)
    requires ItemsOk(items) && ItemOk(i) && ItemBytes(i) == TailBytes(tail) + [b]
    ensures ItemsOk(items') && Render(items') + TailBytes(Nothing) == Render(items) + TailBytes(tail) + [b]
  {
    items' := items + [i];
    assert items'[..|items'| - 1] == items;
    assert Render(items') == Render(items) + (TailBytes(tail) + [b]);
  }

  lemma ExtendBody(items: seq<Item>, tail: Tail, atom: Bytes, b: Byte) returns (items': seq<Item>, tail': Tail)
    requires ItemsOk(items) && TailOk(tail) && Atom(atom) && (tail.Open? || tail.OpenEscaped?)
    requires atom == if tail.Open? then [b] else [ESC, b]
    ensures ItemsOk(items') && TailOk(tail')
    ensures Render(items') + TailBytes(tail') == Render(items) + TailBytes(tail) + [b]
  {
    var head := Opener(tail.escs) + tail.body;
    assert TailBytes(tail) + [b] == head + atom;
    if |tail.body| + |atom| <= MAX_BODY {
      AtomIsBody(atom);
      BodyAppend(tail.body, atom);
      items', tail' := items, Open(tail.escs, tail.body + atom);
      assert TailBytes(tail') == head + atom;
    } else {
      items' := Close(items, tail, Overrun(tail.escs, tail.body, atom), b);
      tail' := Nothing;
    }
  }

  /** Tracker to grammar: every byte history parses, and the tracker holds what the parse says. */
  lemma {:induction false} EveryHistoryParses(decode: Decode, history: Bytes) returns (items: seq<Item>, tail: Tail)
    ensures ItemsOk(items) && TailOk(tail)
    ensures Render(items) + TailBytes(tail) == history
    ensures Fold(decode, Start, history) == Meaning(decode, items, tail)
    decreases |history|
  {
    if history == [] {
      items, tail := [], Nothing;
    } else {
      var n := |history| - 1;
      var items0, tail0 := EveryHistoryParses(decode, history[..n]);
      items, tail := Extend(items0, tail0, history[n]);
      assert history == history[..n] + [history[n]];
    }
    TrackerReadsGrammar(decode, items, tail);
  }

  // ---------------------------------------------------------------- a printed frame

  predicate Clean(p: Bytes) { forall k :: 0 <= k < |p| ==> p[k] != 0x1b && p[k] != 0x07 }

  lemma {:induction false} CleanBody(p: Bytes)
    requires Clean(p)
    ensures BodyOk(p)
    decreases |p|
  {
    if p != [] { CleanBody(p[1..]); }
  }

  lemma {:induction false} SplitFirst(c: Bytes, p: Bytes)
    requires SEMICOLON !in c
    ensures Split(c + [SEMICOLON] + p) == Some((c, p))
    decreases |c|
  {
    var body := c + [SEMICOLON] + p;
    if c == [] {
      assert body[1..] == p;
    } else {
      assert body[1..] == c[1..] + [SEMICOLON] + p;
      SplitFirst(c[1..], p);
      assert [c[0]] + c[1..] == c;
    }
  }

  function Printed(command: Bytes, p: Bytes, bel: bool): Bytes {
    [0x1b, 0x5d] + (command + [0x3b] + p) + if bel then [0x07] else [0x1b, 0x5c]
  }

  /** Outside any string; the history may still end in escapes. */
  predicate Outside(t: Tracker) { t.mode.Ground? || t.mode.Escape? }

  /** An escape already pending makes no difference to what starts with one. */
  lemma PendingEscape(decode: Decode, t: Tracker, rest: Bytes)
    requires t.mode.Escape?
    ensures Fold(decode, t, [ESC] + rest) == Fold(decode, t.(mode := Ground), [ESC] + rest)
  {
    FoldAppend(decode, t, [ESC], rest);
    FoldAppend(decode, t.(mode := Ground), [ESC], rest);
    FoldOne(decode, t, ESC);
    FoldOne(decode, t.(mode := Ground), ESC);
  }

  /** A frame `ESC ] 9 ; p` printed outside a string that fits and whose p has no ESC and no BEL is
      recovered, whatever terminator ends it: the progress is its sanitized text unless that is empty,
      and the title is untouched. */
  lemma ProgressRecovered(decode: Decode, history: Bytes, p: Bytes, bel: bool)
    requires Outside(Fold(decode, Start, history)) && Clean(p) && |p| <= 4094
    ensures var t := Fold(decode, Start, history); var t' := Fold(decode, Start, history + Printed([0x39], p, bel));
      && AtRest(t') && t'.title == t.title
      && t'.payload == (if Printable(decode(p)) != "" then Some(Printable(decode(p))) else t.payload)
      && (Harmless(decode(p)) && decode(p) != "" ==> t'.payload == Some(decode(p)))
  {
    if Harmless(decode(p)) { HarmlessStays(decode(p)); }
    FoldAppend(decode, Start, history, Printed([0x39], p, bel));
    AlwaysBounded(decode, history);
    FoldPrintedOutside(decode, Fold(decode, Start, history), [0x39], p, bel);
  }

  /** The same for `ESC ] 0 ; p` and `ESC ] 2 ; p` and the title. */
  lemma TitleRecovered(decode: Decode, history: Bytes, command: Bytes, p: Bytes, bel: bool)
    requires Outside(Fold(decode, Start, history)) && Clean(p) && |p| <= 4094
    requires command == [0x30] || command == [0x32]
    ensures var t := Fold(decode, Start, history); var t' := Fold(decode, Start, history + Printed(command, p, bel));
      && AtRest(t') && t'.payload == t.payload
      && t'.title == (if Printable(decode(p)) != "" then Some(Printable(decode(p))) else t.title)
      && (Harmless(decode(p)) && decode(p) != "" ==> t'.title == Some(decode(p)))
  {
    if Harmless(decode(p)) { HarmlessStays(decode(p)); }
    FoldAppend(decode, Start, history, Printed(command, p, bel));
    AlwaysBounded(decode, history);
    assert command[0] == 0x30 || command[0] == 0x32;
    FoldPrintedOutside(decode, Fold(decode, Start, history), command, p, bel);
  }

  lemma FoldPrintedOutside(decode: Decode, t: Tracker, command: Bytes, p: Bytes, bel: bool)
    requires Outside(t) && t.body == [] && Clean(command) && Clean(p)
    requires SEMICOLON !in command && |command| + 1 + |p| <= MAX_BODY
    ensures var t' := Fold(decode, t, Printed(command, p, bel)); var text := Printable(decode(p));
      && AtRest(t')
      && t'.payload == (if text != "" && command in PROGRESS then Some(text) else t.payload)
      && t'.title == (if text != "" && command in TITLES then Some(text) else t.title)
  {
    FoldPrinted(decode, t.(mode := Ground), command, p, bel);
    if t.mode.Escape? {
      PrintedStarts(command + [SEMICOLON] + p, bel);
      PendingEscape(decode, t, [BRACKET] + (command + [SEMICOLON] + p) + Terminator(bel));
    } else {
      assert t.(mode := Ground) == t;
    }
  }

  lemma PrintedStarts(body: Bytes, bel: bool)
    ensures [ESC, BRACKET] + body + Terminator(bel) == [ESC] + ([BRACKET] + body + Terminator(bel))
  {
  }

  lemma FoldPrinted(decode: Decode, t: Tracker, command: Bytes, p: Bytes, bel: bool)
    requires AtRest(t) && Clean(command) && Clean(p) && SEMICOLON !in command && |command| + 1 + |p| <= MAX_BODY
    ensures var t' := Fold(decode, t, Printed(command, p, bel)); var text := Printable(decode(p));
      && AtRest(t')
      && t' == if text == "" then t
               else t.(payload := if command in PROGRESS then Some(text) else t.payload,
                       title := if command in TITLES then Some(text) else t.title)
  {
    var body := command + [SEMICOLON] + p;
    CleanBody(body);
    SplitFirst(command, p);
    PrintedIsFrame(command, p, bel);
    FoldFrame(decode, t, Frame(0, body, bel));
  }

  lemma PrintedIsFrame(command: Bytes, p: Bytes, bel: bool)
    ensures ItemBytes(Frame(0, command + [SEMICOLON] + p, bel)) == Printed(command, p, bel)
  {
    assert Opener(0) == [ESC, BRACKET] by { assert Escs(1) == Escs(0) + [ESC] == [ESC]; }
  }

  // ---------------------------------------------------------------- escapes inside a body

  /** After an escape inside a body, BEL is body text, and so are another escape and the backslash behind it:
      neither ends the string. */
  lemma EscapeHidesTerminator(decode: Decode, t: Tracker, body: Bytes)
    requires AtRest(t) && BodyOk(body) && |body| + 3 <= MAX_BODY
    ensures Fold(decode, t, Opener(0) + body + [ESC, BEL]) == t.(mode := OscBody, body := body + [ESC, BEL])
    ensures Fold(decode, t, Opener(0) + body + [ESC, ESC, BACKSLASH]) ==
            t.(mode := OscBody, body := body + [ESC, ESC, BACKSLASH])
  {
    assert BodyOk([ESC, BEL]) by { assert [ESC, BEL][2..] == []; }
    assert BodyOk([ESC, ESC, BACKSLASH]) by {
      assert [ESC, ESC, BACKSLASH][2..] == [BACKSLASH] && [BACKSLASH][1..] == [];
    }
    BodyGoesOn(decode, t, body, [ESC, BEL]);
    BodyGoesOn(decode, t, body, [ESC, ESC, BACKSLASH]);
  }

  lemma BodyGoesOn(decode: Decode, t: Tracker, body: Bytes, more: Bytes)
    requires AtRest(t) && BodyOk(body) && BodyOk(more) && |body| + |more| <= MAX_BODY
    ensures Fold(decode, t, Opener(0) + body + more) == t.(mode := OscBody, body := body + more)
  {
    BodyAppend(body, more);
    FoldOpener(decode, t, 0, body + more);
    Assoc(Opener(0), body, more);
  }

  lemma Assoc(a: Bytes, b: Bytes, c: Bytes)
    ensures a + b + c == a + (b + c)
  {
  }

  /** `ESC ] 9 ; x ESC BEL` and `ESC ] 9 ; x ESC ESC \` leave the tracker inside the string, with nothing told. */
  lemma StillInside(decode: Decode)
    ensures Fold(decode, Start, [ESC, BRACKET, 0x39, SEMICOLON, 0x78, ESC, BEL]).mode == OscBody
    ensures Fold(decode, Start, [ESC, BRACKET, 0x39, SEMICOLON, 0x78, ESC, ESC, BACKSLASH]).mode == OscBody
    ensures Fold(decode, Start, [ESC, BRACKET, 0x39, SEMICOLON, 0x78, ESC, BEL]).payload.None?
  {
    var body: Bytes := [0x39, SEMICOLON, 0x78];
    CleanBody(body);
    EscapeHidesTerminator(decode, Start, body);
    assert Opener(0) == [ESC, BRACKET] by { assert Escs(1) == Escs(0) + [ESC] == [ESC]; }
    assert Opener(0) + body + [ESC, BEL] == [ESC, BRACKET, 0x39, SEMICOLON, 0x78, ESC, BEL];
    assert Opener(0) + body + [ESC, ESC, BACKSLASH] == [ESC, BRACKET, 0x39, SEMICOLON, 0x78, ESC, ESC, BACKSLASH];
  }
}
