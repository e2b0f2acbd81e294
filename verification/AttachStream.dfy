/** What the client receives, in which order, and when the stream may stop. */
module AttachStream {
  import opened Prelude
  import opened Scrollback
  import opened AttachProtocol
  import opened AttachSafety

  predicate OnlyReplays(q: seq<Msg>) { forall i :: 0 <= i < |q| ==> q[i].Replay? }

  /** The chunks in q are k, k+1, ..., e-1 in this order, and nothing but replays follows a notice. */
  predicate QueueFrom(q: seq<Msg>, k: nat, e: nat) {
    if q == [] then k == e
    else match q[0]
      case Replay(_, _, _) => QueueFrom(q[1..], k, e)
      case Output(i, _) => i == k && QueueFrom(q[1..], k + 1, e)
      case _ => k == e && OnlyReplays(q[1..])
  }

  predicate NoNotes(q: seq<Msg>) { forall i :: 0 <= i < |q| ==> !IsNote(q[i]) }

  lemma {:induction false} QueueReplay(q: seq<Msg>, k: nat, e: nat, m: Msg)
    requires QueueFrom(q, k, e) && m.Replay?
    ensures QueueFrom(q + [m], k, e)
    decreases |q|
  {
    if q == [] {
      assert q + [m] == [m] && [m][1..] == [];
    } else {
      assert (q + [m])[1..] == q[1..] + [m];
      match q[0]
      case Replay(_, _, _) => QueueReplay(q[1..], k, e, m);
      case Output(_, _) => QueueReplay(q[1..], k + 1, e, m);
      case _ =>
    }
  }

  lemma {:induction false} QueueOutput(q: seq<Msg>, k: nat, e: nat, m: Msg)
    requires QueueFrom(q, k, e) && NoNotes(q) && m.Output? && m.k == e
    ensures QueueFrom(q + [m], k, e + 1)
    decreases |q|
  {
    if q == [] {
      assert q + [m] == [m] && [m][1..] == [];
    } else {
      assert (q + [m])[1..] == q[1..] + [m];
      assert NoNotes(q[1..]);
      assert !IsNote(q[0]);
      match q[0]
      case Replay(_, _, _) => QueueOutput(q[1..], k, e, m);
      case Output(_, _) => QueueOutput(q[1..], k + 1, e, m);
      case _ =>
    }
  }

  lemma {:induction false} QueueNote(q: seq<Msg>, k: nat, e: nat, m: Msg)
    requires QueueFrom(q, k, e) && NoNotes(q) && IsNote(m)
    ensures QueueFrom(q + [m], k, e)
    decreases |q|
  {
    if q == [] {
      assert q + [m] == [m] && [m][1..] == [];
    } else {
      assert (q + [m])[1..] == q[1..] + [m];
      assert NoNotes(q[1..]);
      assert !IsNote(q[0]);
      match q[0]
      case Replay(_, _, _) => QueueNote(q[1..], k, e, m);
      case Output(_, _) => QueueNote(q[1..], k + 1, e, m);
      case _ =>
    }
  }

  lemma {:induction false} QueueBounds(q: seq<Msg>, k: nat, e: nat)
    requires QueueFrom(q, k, e)
    ensures k <= e
    decreases |q|
  {
    if q != [] {
      match q[0]
      case Replay(_, _, _) => QueueBounds(q[1..], k, e);
      case Output(_, _) => QueueBounds(q[1..], k + 1, e);
      case _ =>
    }
  }

  function Lives(frames: seq<Frame>): nat {
    if frames == [] then 0 else Lives(frames[..|frames| - 1]) + if frames[|frames| - 1].Live? then 1 else 0
  }

  /** Live frames carry chunks j, j+1, ... under the sequence numbers 2, 3, ...;
      the first frame is the replay under 1, later replays travel under 0. */
  predicate FramesFrom(frames: seq<Frame>, j: nat) {
    frames == [] ||
    (var init := frames[..|frames| - 1];
     FramesFrom(init, j) &&
     match frames[|frames| - 1]
     case Live(q, k, _) => init != [] && k == j + Lives(init) && q == 2 + Lives(init)
     case Full(q, _) => q == if init == [] then 1 else 0
     case Shutdown(_) => true)
  }

  lemma FramesPush(frames: seq<Frame>, j: nat, f: Frame)
    requires FramesFrom(frames, j)
    requires match f
      case Live(q, k, _) => frames != [] && k == j + Lives(frames) && q == 2 + Lives(frames)
      case Full(q, _) => q == if frames == [] then 1 else 0
      case Shutdown(_) => true
    ensures FramesFrom(frames + [f], j)
    ensures Lives(frames + [f]) == Lives(frames) + if f.Live? then 1 else 0
  {
    assert (frames + [f])[..|frames + [f]| - 1] == frames;
  }

  // ---------------------------------------------------------------- invariants

  /** What the writer has still to write, the message in its hand included. */
  function Rest(s: State): seq<Msg> {
    if s.w.pc.Writing? then [s.w.pc.m] + s.ch.queue else s.ch.queue
  }

  function Extra(t: Term): nat { if t.pc.Sent? || t.pc.Shedding? then 1 else 0 }

  /** The next chunk the client is to receive. */
  function Next(s: State): nat
    requires s.c.from.Some?
  {
    s.c.from.value + Lives(s.w.frames)
  }

  predicate FirstMsg(m: Msg, replay: Bytes) { m == Replay(1, replay, ReplayLen(replay)) }

  /** Every replay but the very first travels under sequence number 0. */
  predicate LaterReplays(q: seq<Msg>, opening: bool) {
    forall i :: (if opening then 1 else 0) <= i < |q| && q[i].Replay? ==> q[i].seqno == 0
  }

  lemma LaterPush(q: seq<Msg>, opening: bool, m: Msg)
    requires LaterReplays(q, opening) && (m.Replay? ==> m.seqno == 0)
    ensures LaterReplays(q + [m], opening)
  {
  }

  predicate Opening(s: State) {
    && (s.c.pc.Start? || s.c.pc.HistoryRead? || s.c.pc.FirstCharged? ==> s.ch.queue == [])
    && (s.c.pc.FirstSent? || s.c.pc.ExitChecked? ==> |s.ch.queue| == 1 && FirstMsg(s.ch.queue[0], s.c.replay))
    && (s.c.from.Some? && s.w.frames == [] && Alive(s.w) ==> Rest(s) != [] && FirstMsg(Rest(s)[0], s.c.replay))
    && (s.w.frames != [] ==> s.w.frames[0] == Full(1, s.c.replay))
    && LaterReplays(Rest(s), s.w.frames == [])
  }

  /** No gap, no repeat: what was written and what is still queued make up one contiguous run. */
  predicate Contiguous(s: State) {
    && (s.t.listed ==> s.ch.enqueued == s.t.fanned + Extra(s.t))
    && (s.c.from.Some? ==>
          && FramesFrom(s.w.frames, s.c.from.value)
          && s.w.nextSeq == 2 + Lives(s.w.frames)
          && (if Alive(s.w) then QueueFrom(Rest(s), Next(s), s.ch.enqueued) else Next(s) <= s.ch.enqueued))
    && (s.c.from.None? ==> s.w.nextSeq == 2)
  }

  /** Where the exit and overflow notices are. */
  predicate Notices(s: State) {
    && (Alive(s.w) && ExitedNote in Rest(s) ==> s.t.exited && s.ch.enqueued == |s.t.chunks|)
    && (Alive(s.w) && OverflowNote in Rest(s) ==> s.ch.shed)
    && (Alive(s.w) && s.t.listed && !s.t.pc.Notified? ==> NoNotes(Rest(s)))
    && (s.ch.shed ==> s.c.from.Some? && !s.t.listed)
    && (s.ch.shed && Alive(s.w) ==> OverflowNote in Rest(s))
    && (s.c.missed ==> s.c.from.Some? && s.t.pc.Notified? && s.ch.enqueued == |s.t.chunks|)
    && (s.c.missed && Alive(s.w) ==> NoNotes(Rest(s)))
    && (s.c.from.Some? && Alive(s.w) && (!s.t.listed || s.t.pc.Notified?) && !s.ch.shed && !s.c.missed
        ==> ExitedNote in Rest(s))
  }

  /** Why the writer stopped, and what it had written by then. */
  predicate Endings(s: State) {
    match s.w.why
    case StillRunning => Alive(s.w)
    case WriteFailed => true
    case NeverSpawned => s.w.frames == []
    case AfterOverflow => s.c.from.Some? && s.ch.shed && Next(s) == s.ch.enqueued
    case AfterExit => s.c.from.Some? && s.t.exited && Next(s) == s.ch.enqueued == |s.t.chunks|
    case NoSenders => s.c.from.Some? && s.c.missed && Next(s) == s.ch.enqueued == |s.t.chunks|
  }

  predicate Base(s: State) { Shape(s) && History(s.t, s.c) && Balanced(s) }

  predicate Stream(s: State) { Opening(s) && Contiguous(s) && Notices(s) && Endings(s) }

  // ---------------------------------------------------------------- writer

  lemma WriterReceive(s: State)
    requires Base(s) && Stream(s) && WriterEnabled(s, Receive)
    ensures Stream(Apply(s, ByWriter(Receive)))
  {
    var s' := Apply(s, ByWriter(Receive));
    if s.ch.queue != [] {
      assert Rest(s') == Rest(s);
    }
  }

  lemma WriteOpening(s: State)
    requires Base(s) && Opening(s) && WriterEnabled(s, WriteOk)
    ensures Opening(Apply(s, ByWriter(WriteOk)))
  {
    var s' := Apply(s, ByWriter(WriteOk));
    assert Rest(s)[0] == s.w.pc.m && Rest(s)[1..] == s.ch.queue;
    assert Rest(s') == s.ch.queue;
    assert forall i :: 0 <= i < |s.ch.queue| ==> Rest(s)[i + 1] == s.ch.queue[i];
  }

  lemma PopQueue(m: Msg, q: seq<Msg>, k: nat, e: nat)
    requires QueueFrom([m] + q, k, e)
    ensures match m
      case Replay(_, _, _) => QueueFrom(q, k, e)
      case Output(i, _) => i == k && QueueFrom(q, k + 1, e)
      case _ => k == e
  {
    assert ([m] + q)[1..] == q;
  }

  lemma WriteContiguous(s: State)
    requires Base(s) && Opening(s) && Contiguous(s) && WriterEnabled(s, WriteOk)
    ensures Contiguous(Apply(s, ByWriter(WriteOk)))
    ensures IsNote(s.w.pc.m) ==> Next(Apply(s, ByWriter(WriteOk))) == s.ch.enqueued
  {
    var m := s.w.pc.m;
    PopQueue(m, s.ch.queue, Next(s), s.ch.enqueued);
    assert Rest(s)[0] == m;
    FramesPush(s.w.frames, s.c.from.value, FrameOf(m, s.w.nextSeq));
  }

  lemma WriteNotices(s: State)
    requires Base(s) && Notices(s) && WriterEnabled(s, WriteOk)
    ensures Notices(Apply(s, ByWriter(WriteOk)))
  {
    var m := s.w.pc.m;
    assert Rest(s) == [m] + s.ch.queue;
    assert m in Rest(s);
    assert forall i :: 0 <= i < |s.ch.queue| ==> s.ch.queue[i] == Rest(s)[i + 1];
  }

  lemma WriterWrites(s: State)
    requires Base(s) && Stream(s) && WriterEnabled(s, WriteOk)
    ensures Stream(Apply(s, ByWriter(WriteOk)))
  {
    WriteOpening(s);
    WriteContiguous(s);
    WriteNotices(s);
    assert Rest(s)[0] == s.w.pc.m;
    assert s.w.pc.m in Rest(s);
  }

  lemma WriterFails(s: State)
    requires Base(s) && Stream(s) && WriterEnabled(s, WriteFail)
    ensures Stream(Apply(s, ByWriter(WriteFail)))
  {
    var s' := Apply(s, ByWriter(WriteFail));
    var m := s.w.pc.m;
    assert Rest(s)[0] == m && Rest(s)[1..] == s.ch.queue;
    QueueBounds(Rest(s), Next(s), s.ch.enqueued);
    assert m in Rest(s);
  }

  lemma WriterOther(s: State, w: WriterAct)
    requires Base(s) && Stream(s) && WriterEnabled(s, w) && (w.Discharge? || w.Drop?)
    ensures Stream(Apply(s, ByWriter(w)))
  {
  }

  lemma WriterKept(s: State, w: WriterAct)
    requires Base(s) && Stream(s) && WriterEnabled(s, w)
    ensures Stream(Apply(s, ByWriter(w)))
  {
    match w
    case Receive => WriterReceive(s);
    case WriteOk => WriterWrites(s);
    case WriteFail => WriterFails(s);
    case Discharge => WriterOther(s, w);
    case Drop => WriterOther(s, w);
  }

  // ---------------------------------------------------------------- reader

  lemma RestPush(s: State, s': State, m: Msg)
    requires s'.w == s.w && s'.ch.queue == s.ch.queue + [m]
    ensures Rest(s') == Rest(s) + [m]
    ensures m in Rest(s') && forall x :: x in Rest(s') <==> x in Rest(s) || x == m
    ensures LaterReplays(Rest(s), s.w.frames == []) && (m.Replay? ==> m.seqno == 0) ==>
            LaterReplays(Rest(s'), s.w.frames == [])
  {
    if LaterReplays(Rest(s), s.w.frames == []) && (m.Replay? ==> m.seqno == 0) {
      LaterPush(Rest(s), s.w.frames == [], m);
    }
    assert Rest(s') == Rest(s) + [m];
  }

  lemma ReaderSends(s: State)
    requires Base(s) && Stream(s) && ReaderEnabled(s, SendChunk)
    ensures Stream(Apply(s, ByReader(SendChunk)))
  {
    var s' := Apply(s, ByReader(SendChunk));
    var m := Output(s.t.fanned, Chunk(s.t));
    if s.ch.rxAlive {
      RestPush(s, s', m);
      if Alive(s.w) {
        QueueOutput(Rest(s), Next(s), s.ch.enqueued, m);
      }
    }
  }

  lemma ReaderOverflows(s: State)
    requires Base(s) && Stream(s) && ReaderEnabled(s, SendOverflow)
    ensures Stream(Apply(s, ByReader(SendOverflow)))
  {
    var s' := Apply(s, ByReader(SendOverflow));
    if s.ch.rxAlive {
      RestPush(s, s', OverflowNote);
      if Alive(s.w) { QueueNote(Rest(s), Next(s), s.ch.enqueued, OverflowNote); }
    }
  }

  lemma ReaderNotifies(s: State)
    requires Base(s) && Stream(s) && ReaderEnabled(s, NotifyExit)
    ensures Stream(Apply(s, ByReader(NotifyExit)))
  {
    var s' := Apply(s, ByReader(NotifyExit));
    if s.t.listed && s.ch.rxAlive {
      RestPush(s, s', ExitedNote);
      if Alive(s.w) { QueueNote(Rest(s), Next(s), s.ch.enqueued, ExitedNote); }
    }
  }

  lemma ReaderOther(s: State, r: ReaderAct)
    requires Base(s) && Stream(s) && ReaderEnabled(s, r)
    requires !r.SendChunk? && !r.SendOverflow? && !r.NotifyExit?
    ensures Stream(Apply(s, ByReader(r)))
  {
    assert Rest(Apply(s, ByReader(r))) == Rest(s);
  }

  lemma ReaderKept(s: State, r: ReaderAct)
    requires Base(s) && Stream(s) && ReaderEnabled(s, r)
    ensures Stream(Apply(s, ByReader(r)))
  {
    match r
    case SendChunk => ReaderSends(s);
    case SendOverflow => ReaderOverflows(s);
    case NotifyExit => ReaderNotifies(s);
    case _ => ReaderOther(s, r);
  }

  // -------------------------------------------------------------- connection

  lemma ConnSendsAgain(s: State)
    requires Base(s) && Stream(s) && ConnEnabled(s, SendAgain)
    ensures Stream(Apply(s, ByConn(SendAgain)))
  {
    AgainContiguous(s);
    AgainOpening(s);
    AgainNotices(s);
  }

  lemma AgainOpening(s: State)
    requires Shape(s) && Opening(s) && ConnEnabled(s, SendAgain)
    ensures Opening(Apply(s, ByConn(SendAgain)))
  {
    var s' := Apply(s, ByConn(SendAgain));
    if s.ch.rxAlive { RestPush(s, s', Replay(0, s.c.pc.again, ReplayLen(s.c.pc.again))); }
  }

  lemma AgainNotices(s: State)
    requires Shape(s) && Notices(s) && ConnEnabled(s, SendAgain)
    ensures Notices(Apply(s, ByConn(SendAgain)))
  {
    var s' := Apply(s, ByConn(SendAgain));
    if s.ch.rxAlive { RestPush(s, s', Replay(0, s.c.pc.again, ReplayLen(s.c.pc.again))); }
  }

  lemma AgainContiguous(s: State)
    requires Shape(s) && Contiguous(s) && ConnEnabled(s, SendAgain)
    ensures Contiguous(Apply(s, ByConn(SendAgain)))
  {
    var s' := Apply(s, ByConn(SendAgain));
    var m := Replay(0, s.c.pc.again, ReplayLen(s.c.pc.again));
    if s.ch.rxAlive {
      RestPush(s, s', m);
      if Alive(s.w) { QueueReplay(Rest(s), Next(s), s.ch.enqueued, m); }
    }
  }

  lemma ConnChecks(s: State)
    requires Base(s) && Stream(s) && (ConnEnabled(s, CheckExited))
    ensures Stream(Apply(s, ByConn(CheckExited)))
  {
    var s' := Apply(s, ByConn(CheckExited));
    if s.t.exited {
      RestPush(s, s', ExitedNote);
      assert Lives(s'.w.frames) == 0;
      var q := Rest(s');
      assert q[1..] == [ExitedNote] && [ExitedNote][1..] == [];
      assert QueueFrom(q[1..], s.t.fanned, s.t.fanned);
    }
  }

  lemma ConnSubscribes(s: State)
    requires Base(s) && Stream(s) && ConnEnabled(s, Subscribe)
    ensures Stream(Apply(s, ByConn(Subscribe)))
  {
    var s' := Apply(s, ByConn(Subscribe));
    assert Rest(s') == s.ch.queue && s.ch.queue[1..] == [];
    assert QueueFrom(s.ch.queue[1..], s.t.fanned, s.t.fanned);
    assert Lives(s'.w.frames) == 0;
  }

  lemma ConnSpawns(s: State, ok: bool)
    requires Base(s) && Stream(s) && ConnEnabled(s, SpawnWriter(ok))
    ensures Stream(Apply(s, ByConn(SpawnWriter(ok))))
  {
    var s' := Apply(s, ByConn(SpawnWriter(ok)));
    QueueBounds(Rest(s), Next(s), s.ch.enqueued);
  }

  lemma ConnOther(s: State, c: ConnAct)
    requires Base(s) && Stream(s) && ConnEnabled(s, c)
    requires !c.SendAgain? && !c.CheckExited? && !c.Subscribe? && !c.SpawnWriter?
    ensures Stream(Apply(s, ByConn(c)))
  {
    if c.ReadHistory? || c.ChargeFirst? || c.SendFirst? { ConnOpens(s, c); } else { ConnLater(s, c); }
  }

  lemma ConnOpens(s: State, c: ConnAct)
    requires Base(s) && Stream(s) && ConnEnabled(s, c) && (c.ReadHistory? || c.ChargeFirst? || c.SendFirst?)
    ensures Stream(Apply(s, ByConn(c)))
  {
  }

  lemma ConnLater(s: State, c: ConnAct)
    requires Base(s) && Stream(s) && ConnEnabled(s, c)
    requires c.ReadAgain? || c.ChargeAgain? || c.UndoAgain? || c.Disconnect? || c.DropTerminal?
    ensures Stream(Apply(s, ByConn(c)))
  {
  }

  lemma ConnKept(s: State, c: ConnAct)
    requires Base(s) && Stream(s) && ConnEnabled(s, c)
    ensures Stream(Apply(s, ByConn(c)))
  {
    match c
    case SendAgain => ConnSendsAgain(s);
    case CheckExited => ConnChecks(s);
    case Subscribe => ConnSubscribes(s);
    case SpawnWriter(ok) => ConnSpawns(s, ok);
    case _ => ConnOther(s, c);
  }
}
