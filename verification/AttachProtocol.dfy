/**
 One client attached to one terminal: the connection thread (history replay, subscription,
 re-attach), the PTY reader (scrollback, fan-out, overflow shedding, exit notice) and the
 client's writer thread.  Every atomic operation or mutex section is one action; what the reader
 does for other clients between these actions touches none of this state.
 */
module AttachProtocol {
  import opened Prelude
  import opened Scrollback

  datatype Msg =
    | Replay(seqno: nat, bytes: Bytes, charge: nat)
    | Output(k: nat, bytes: Bytes)
    | ExitedNote
    | OverflowNote

  datatype Reason = TerminalExited | BacklogOverflow

  datatype Frame =
    | Full(seqno: nat, bytes: Bytes)
    | Live(seqno: nat, k: nat, bytes: Bytes)
    | Shutdown(reason: Reason)

  datatype ReaderPc = Reading | Appended | Locked | Charged | Sent | Undoing | Shedding | Exiting | Notified

  datatype ConnPc =
    | Start
    | HistoryRead(history: Bytes)
    | FirstCharged(history: Bytes)
    | FirstSent
    | ExitChecked
    | Subscribed
    | Open
    | AgainRead(again: Bytes)
    | AgainCharged(again: Bytes)
    | AgainUndo(again: Bytes)
    | Closed

  datatype WriterPc = NotStarted | Receiving | Writing(m: Msg) | Written(m: Msg) | Stopping | Dead

  datatype Why = StillRunning | WriteFailed | AfterOverflow | AfterExit | NoSenders | NeverSpawned

  /** The terminal: scrollback, exit flag, this client's place in the subscriber list, the reader.
      `chunks` and `fanned` record what was appended and how many fan-outs have finished. */
  datatype Term = Term(scrollback: Bytes, exited: bool, listed: bool, pc: ReaderPc, chunks: seq<Bytes>, fanned: nat)

  /** The client's channel and its counter.  `enqueued` is one past the last chunk sent to it,
      `lost` what was charged for messages the writer will never take off. */
  datatype Chan = Chan(queue: seq<Msg>, rxAlive: bool, pending: int, enqueued: nat, lost: int, shed: bool)

  /** The connection thread.  `replay` and `seen` are the first history snapshot and the number of
      chunks in it, `from` the first chunk the subscription covers. */
  datatype Conn = Conn(pc: ConnPc, replay: Bytes, seen: nat, from: Option<nat>, reattached: bool, missed: bool)

  datatype Writer = Writer(pc: WriterPc, nextSeq: nat, frames: seq<Frame>, why: Why)

  datatype State = State(t: Term, ch: Chan, c: Conn, w: Writer)

  const Init: State := State(Term([], false, false, Reading, [], 0), Chan([], true, 0, 0, 0, false),
                             Conn(Start, [], 0, None, false, false), Writer(NotStarted, 2, [], StillRunning))

  function ChargeOf(m: Msg): nat {
    match m
    case Replay(_, _, c) => c
    case Output(_, b) => |b|
    case _ => 0
  }

  function ReplayLen(history: Bytes): nat { if |history| == 0 then 1 else |history| }

  function FrameOf(m: Msg, nextSeq: nat): Frame {
    match m
    case Replay(q, b, _) => Full(q, b)
    case Output(k, b) => Live(nextSeq, k, b)
    case ExitedNote => Shutdown(TerminalExited)
    case OverflowNote => Shutdown(BacklogOverflow)
  }

  datatype ReaderAct =
    | Append(chunk: Bytes) | LockSubscribers | AddCharge | SendChunk | CheckCap | SendOverflow | UndoCharge
    | FlagExit | NotifyExit
  datatype ConnAct =
    | ReadHistory | ChargeFirst | SendFirst | CheckExited | Subscribe | SpawnWriter(ok: bool)
    | ReadAgain | ChargeAgain | SendAgain | UndoAgain | Disconnect | DropTerminal
  datatype WriterAct = Receive | WriteOk | WriteFail | Discharge | Drop
  datatype Action = ByReader(r: ReaderAct) | ByConn(c: ConnAct) | ByWriter(w: WriterAct)

  /** The reader holds the subscriber lock. */
  predicate Holding(t: Term) {
    t.pc.Locked? || t.pc.Charged? || t.pc.Sent? || t.pc.Undoing? || t.pc.Shedding?
  }

  function Push(ch: Chan, m: Msg): Chan { ch.(queue := ch.queue + [m]) }

  // ------------------------------------------------------------------ reader

  predicate ReaderEnabled(s: State, r: ReaderAct) {
    match r
    case Append(chunk) => s.t.pc.Reading? && 1 <= |chunk| <= READ_BUFFER
    case LockSubscribers => s.t.pc.Appended?
    case AddCharge => s.t.pc.Locked?
    case SendChunk => s.t.pc.Charged?
    case CheckCap => s.t.pc.Sent?
    case SendOverflow => s.t.pc.Shedding?
    case UndoCharge => s.t.pc.Undoing?
    case FlagExit => s.t.pc.Reading?
    case NotifyExit => s.t.pc.Exiting?
  }

  /** The chunk being fanned out. */
  function Chunk(t: Term): Bytes {
    if t.chunks == [] then [] else t.chunks[|t.chunks| - 1]
  }

  /** The reader lets go of the subscriber lock. */
  function Unlock(t: Term, listed: bool): Term { t.(listed := listed, fanned := t.fanned + 1, pc := Reading) }

  function TermNext(s: State, r: ReaderAct): Term
    requires ReaderEnabled(s, r)
  {
    var t := s.t;
    match r
    case Append(chunk) => t.(scrollback := Keep(t.scrollback + chunk), chunks := t.chunks + [chunk], pc := Appended)
    case LockSubscribers => if t.listed then t.(pc := Locked) else Unlock(t, false)
    case AddCharge => t.(pc := Charged)
    case SendChunk => t.(pc := if s.ch.rxAlive then Sent else Undoing)
    case CheckCap => if s.ch.pending > MAX_PENDING then t.(pc := Shedding) else Unlock(t, true)
    case SendOverflow => Unlock(t, false)
    case UndoCharge => Unlock(t, false)
    case FlagExit => t.(exited := true, pc := Exiting)
    case NotifyExit => t.(listed := t.listed && s.ch.rxAlive, pc := Notified)
  }

  function ChanByReader(s: State, r: ReaderAct): Chan
    requires ReaderEnabled(s, r)
  {
    var ch := s.ch;
    match r
    case AddCharge => ch.(pending := ch.pending + |Chunk(s.t)|)
    case SendChunk =>
      if ch.rxAlive then Push(ch, Output(s.t.fanned, Chunk(s.t))).(enqueued := ch.enqueued + 1) else ch
    case SendOverflow => (if ch.rxAlive then Push(ch, OverflowNote) else ch).(shed := true)
    case UndoCharge => ch.(pending := ch.pending - |Chunk(s.t)|)
    case NotifyExit => if s.t.listed && ch.rxAlive then Push(ch, ExitedNote) else ch
    case _ => ch
  }

  // -------------------------------------------------------------- connection

  predicate ConnEnabled(s: State, a: ConnAct) {
    match a
    case ReadHistory => s.c.pc.Start?
    case ChargeFirst => s.c.pc.HistoryRead?
    case SendFirst => s.c.pc.FirstCharged?
    case CheckExited => s.c.pc.FirstSent?
    case Subscribe => s.c.pc.ExitChecked? && !Holding(s.t)
    case SpawnWriter(_) => s.c.pc.Subscribed?
    case ReadAgain => s.c.pc.Open?
    case ChargeAgain => s.c.pc.AgainRead?
    case SendAgain => s.c.pc.AgainCharged?
    case UndoAgain => s.c.pc.AgainUndo?
    case Disconnect => s.c.pc.Open?
    case DropTerminal => s.c.pc.Closed? && s.t.pc.Notified?
  }

  function ConnNext(s: State, a: ConnAct): Conn
    requires ConnEnabled(s, a)
  {
    var c := s.c;
    match a
    case ReadHistory => c.(pc := HistoryRead(s.t.scrollback), replay := s.t.scrollback, seen := |s.t.chunks|)
    case ChargeFirst => c.(pc := FirstCharged(c.pc.history))
    case SendFirst => c.(pc := FirstSent)
    case CheckExited => if s.t.exited then c.(from := Some(s.t.fanned), pc := Subscribed) else c.(pc := ExitChecked)
    case Subscribe => c.(from := Some(s.t.fanned), missed := s.t.pc.Notified?, pc := Subscribed)
    case SpawnWriter(ok) => c.(pc := if ok then Open else Closed)
    case ReadAgain => c.(pc := AgainRead(s.t.scrollback), reattached := true)
    case ChargeAgain => c.(pc := AgainCharged(c.pc.again))
    case SendAgain => c.(pc := if s.ch.rxAlive then Open else AgainUndo(c.pc.again))
    case UndoAgain => c.(pc := Open)
    case Disconnect => c.(pc := Closed)
    case DropTerminal => c
  }

  function ChanByConn(s: State, a: ConnAct): Chan
    requires ConnEnabled(s, a)
  {
    var ch := s.ch;
    match a
    case ChargeFirst => ch.(pending := ch.pending + ReplayLen(s.c.pc.history))
    case SendFirst => Push(ch, Replay(1, s.c.pc.history, ReplayLen(s.c.pc.history)))
    case CheckExited => if s.t.exited then Push(ch, ExitedNote).(enqueued := s.t.fanned) else ch
    case Subscribe => ch.(enqueued := s.t.fanned)
    case SpawnWriter(ok) => if ok then ch else Abandon(ch)
    case ChargeAgain => ch.(pending := ch.pending + ReplayLen(s.c.pc.again))
    case SendAgain => if ch.rxAlive then Push(ch, Replay(0, s.c.pc.again, ReplayLen(s.c.pc.again))) else ch
    case UndoAgain => ch.(pending := ch.pending - ReplayLen(s.c.pc.again))
    case _ => ch
  }

  /** The receiving end is dropped with whatever is still queued. */
  function Abandon(ch: Chan): Chan {
    ch.(rxAlive := false, lost := ch.lost + Charges(ch.queue), queue := [])
  }

  // ------------------------------------------------------------------ writer

  /** Some sender is left, so `recv` blocks instead of failing. */
  predicate HasSender(s: State) { !s.c.pc.Closed? || s.t.listed }

  predicate WriterEnabled(s: State, a: WriterAct) {
    match a
    case Receive => s.w.pc.Receiving? && (s.ch.queue != [] || !HasSender(s))
    case WriteOk => s.w.pc.Writing?
    case WriteFail => s.w.pc.Writing?
    case Discharge => s.w.pc.Written?
    case Drop => s.w.pc.Stopping?
  }

  predicate IsNote(m: Msg) { m.ExitedNote? || m.OverflowNote? }

  /** A notice ends the writer whether or not its frame got through. */
  function AfterNote(w: Writer, m: Msg): Writer
    requires IsNote(m)
  {
    w.(pc := Stopping, why := if m.ExitedNote? then AfterExit else AfterOverflow)
  }

  function WriterNext(s: State, a: WriterAct): Writer
    requires WriterEnabled(s, a)
  {
    var w := s.w;
    match a
    case Receive =>
      if s.ch.queue == [] then w.(pc := Stopping, why := NoSenders) else w.(pc := Writing(s.ch.queue[0]))
    case WriteOk =>
      var m := w.pc.m;
      var w' := w.(frames := w.frames + [FrameOf(m, w.nextSeq)]);
      if IsNote(m) then AfterNote(w', m)
      else w'.(pc := Written(m), nextSeq := if m.Output? then w.nextSeq + 1 else w.nextSeq)
    case WriteFail => if IsNote(w.pc.m) then AfterNote(w, w.pc.m) else w.(pc := Stopping, why := WriteFailed)
    case Discharge => w.(pc := Receiving)
    case Drop => w.(pc := Dead)
  }

  function ChanByWriter(s: State, a: WriterAct): Chan
    requires WriterEnabled(s, a)
  {
    var ch := s.ch;
    match a
    case Receive => if ch.queue == [] then ch else ch.(queue := ch.queue[1..])
    case WriteOk => ch
    case WriteFail => ch.(lost := ch.lost + ChargeOf(s.w.pc.m))
    case Discharge => ch.(pending := ch.pending - ChargeOf(s.w.pc.m))
    case Drop => Abandon(ch)
  }

  /** What the messages in the channel have been charged for. */
  function Charges(q: seq<Msg>): nat {
    if q == [] then 0 else ChargeOf(q[0]) + Charges(q[1..])
  }

  predicate Enabled(s: State, a: Action) {
    match a
    case ByReader(r) => ReaderEnabled(s, r)
    case ByConn(c) => ConnEnabled(s, c)
    case ByWriter(w) => WriterEnabled(s, w)
  }

  function Apply(s: State, a: Action): State
    requires Enabled(s, a)
  {
    match a
    case ByReader(r) => State(TermNext(s, r), ChanByReader(s, r), s.c, s.w)
    case ByConn(c) =>
      State(if c.Subscribe? then s.t.(listed := true) else if c.DropTerminal? then s.t.(listed := false) else s.t,
            ChanByConn(s, c), ConnNext(s, c),
            if !c.SpawnWriter? then s.w
            else if c.ok then s.w.(pc := Receiving) else s.w.(pc := Dead, why := NeverSpawned))
    case ByWriter(w) => State(s.t, ChanByWriter(s, w), s.c, WriterNext(s, w))
  }

  predicate Possible(s: State, acts: seq<Action>)
    decreases |acts|
  {
    acts == [] || (Enabled(s, acts[0]) && Possible(Apply(s, acts[0]), acts[1..]))
  }

  function After(s: State, acts: seq<Action>): State
    requires Possible(s, acts)
    decreases |acts|
  {
    if acts == [] then s else After(Apply(s, acts[0]), acts[1..])
  }
}
