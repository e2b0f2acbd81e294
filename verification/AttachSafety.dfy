/** What every interleaving of attach, replay, fan-out and writing keeps. */
module AttachSafety {
  import opened Prelude
  import opened Scrollback
  import opened AttachProtocol

  // --------------------------------------------------------------- invariants

  predicate Early(c: Conn) {
    c.pc.Start? || c.pc.HistoryRead? || c.pc.FirstCharged? || c.pc.FirstSent? || c.pc.ExitChecked?
  }

  predicate InFan(t: Term) { t.pc.Appended? || Holding(t) }

  /** The writer can still take messages. */
  predicate Alive(w: Writer) { !w.pc.Stopping? && !w.pc.Dead? }

  predicate TermOk(t: Term) {
    && t.fanned + (if InFan(t) then 1 else 0) == |t.chunks|
    && (Holding(t) ==> t.listed)
    && (t.exited <==> t.pc.Exiting? || t.pc.Notified?)
    && t.scrollback == Keep(Flatten(t.chunks))
  }

  /** Which program counters and flags go together. */
  predicate Shape(s: State) {
    && TermOk(s.t)
    && (s.ch.rxAlive <==> !s.w.pc.Dead?)
    && (s.t.pc.Undoing? ==> !s.ch.rxAlive)
    && (Early(s.c) || s.c.pc.Subscribed? <==> s.w.pc.NotStarted?)
    && (Early(s.c) ==> !s.t.listed && s.c.from.None? && s.w.frames == [] && !s.ch.shed && !s.c.reattached)
    && (!Early(s.c) ==> s.c.from.Some?)
    && (s.w.pc.NotStarted? ==> s.w.frames == [])
    && (Alive(s.w) ==> s.ch.lost == 0 && s.w.why == StillRunning)
    && s.ch.lost >= 0
    && (s.c.pc.AgainUndo? ==> !s.ch.rxAlive)
  }

  /** The replay is what the scrollback held when the first `seen` chunks had been appended. */
  predicate History(t: Term, c: Conn) {
    && c.seen <= |t.chunks|
    && (!c.pc.Start? ==> c.replay == Keep(Flatten(t.chunks[..c.seen])))
    && (c.pc.HistoryRead? || c.pc.FirstCharged? ==> c.pc.history == c.replay)
    && c.seen <= t.fanned + 1
    && (c.from.Some? ==> c.from.value <= t.fanned && c.seen <= c.from.value + 1)
  }

  // ------------------------------------------------------------- accounting

  function InFlight(w: Writer): nat {
    if w.pc.Writing? || w.pc.Written? then ChargeOf(w.pc.m) else 0
  }

  function ReaderOwes(t: Term): nat {
    if t.pc.Charged? || t.pc.Undoing? then |Chunk(t)| else 0
  }

  function ConnOwes(c: Conn): nat {
    match c.pc
    case FirstCharged(h) => ReplayLen(h)
    case AgainCharged(h) => ReplayLen(h)
    case AgainUndo(h) => ReplayLen(h)
    case _ => 0
  }

  /** The counter is exactly what is queued, being written, charged but not sent, or lost with the writer. */
  predicate Balanced(s: State) {
    s.ch.pending == Charges(s.ch.queue) + InFlight(s.w) + ReaderOwes(s.t) + ConnOwes(s.c) + s.ch.lost
  }

  lemma {:induction false} ChargesAppend(q: seq<Msg>, m: Msg)
    ensures Charges(q + [m]) == Charges(q) + ChargeOf(m)
    decreases |q|
  {
    if q == [] {
      assert [m][1..] == [];
      assert q + [m] == [m];
    } else {
      assert (q + [m])[1..] == q[1..] + [m];
      ChargesAppend(q[1..], m);
    }
  }

  lemma BalancedReader(s: State, r: ReaderAct)
    requires Balanced(s) && ReaderEnabled(s, r)
    ensures Balanced(Apply(s, ByReader(r)))
  {
    ChargesAppend(s.ch.queue, Output(s.t.fanned, Chunk(s.t)));
    ChargesAppend(s.ch.queue, OverflowNote);
    ChargesAppend(s.ch.queue, ExitedNote);
  }

  lemma BalancedConn(s: State, c: ConnAct)
    requires Shape(s) && Balanced(s) && ConnEnabled(s, c)
    ensures Balanced(Apply(s, ByConn(c)))
  {
    match c
    case CheckExited => ChargesAppend(s.ch.queue, ExitedNote);
    case SpawnWriter(ok) => BalancedSpawn(s, ok);
    case SendFirst => ChargesAppend(s.ch.queue, Replay(1, s.c.pc.history, ReplayLen(s.c.pc.history)));
    case SendAgain => ChargesAppend(s.ch.queue, Replay(0, s.c.pc.again, ReplayLen(s.c.pc.again)));
    case _ =>
  }

  lemma BalancedSpawn(s: State, ok: bool)
    requires Shape(s) && Balanced(s) && ConnEnabled(s, SpawnWriter(ok))
    ensures Balanced(Apply(s, ByConn(SpawnWriter(ok))))
  {
  }

  lemma BalancedWriter(s: State, w: WriterAct)
    requires Balanced(s) && WriterEnabled(s, w)
    ensures Balanced(Apply(s, ByWriter(w)))
  {
  }

  lemma TermKept(s: State, r: ReaderAct)
    requires TermOk(s.t) && ReaderEnabled(s, r)
    ensures TermOk(TermNext(s, r))
  {
    if r.Append? {
      var c := s.t.chunks + [r.chunk];
      assert c[..|s.t.chunks|] == s.t.chunks;
      LastOfLast(Flatten(s.t.chunks), r.chunk, MAX_SCROLLBACK);
    }
  }

  lemma ShapeReader(s: State, r: ReaderAct)
    requires Shape(s) && ReaderEnabled(s, r)
    ensures Shape(Apply(s, ByReader(r)))
  {
    TermKept(s, r);
  }

  lemma ShapeConn(s: State, c: ConnAct)
    requires Shape(s) && ConnEnabled(s, c)
    ensures Shape(Apply(s, ByConn(c)))
  {
  }

  lemma ShapeWriter(s: State, w: WriterAct)
    requires Shape(s) && WriterEnabled(s, w)
    ensures Shape(Apply(s, ByWriter(w)))
  {
  }

  lemma HistoryReader(s: State, r: ReaderAct)
    requires TermOk(s.t) && History(s.t, s.c) && ReaderEnabled(s, r)
    ensures History(TermNext(s, r), s.c)
  {
    if r.Append? {
      assert (s.t.chunks + [r.chunk])[..s.c.seen] == s.t.chunks[..s.c.seen];
    }
  }

  lemma HistoryConn(s: State, c: ConnAct)
    requires Shape(s) && History(s.t, s.c) && ConnEnabled(s, c)
    ensures History(Apply(s, ByConn(c)).t, Apply(s, ByConn(c)).c)
  {
    assert s.t.chunks[..|s.t.chunks|] == s.t.chunks;
  }
}
