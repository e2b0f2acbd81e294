/** The attach protocol's guarantees over whole runs. */
module AttachResults {
  import opened Prelude
  import opened Scrollback
  import opened AttachProtocol
  import opened AttachSafety
  import opened AttachStream

  // ------------------------------------------------------------ what frames carry

  predicate MsgOk(chunks: seq<Bytes>, m: Msg) { m.Output? ==> m.k < |chunks| && m.bytes == chunks[m.k] }

  predicate FrameOk(chunks: seq<Bytes>, f: Frame) { f.Live? ==> f.k < |chunks| && f.bytes == chunks[f.k] }

  /** Every queued or written chunk is the chunk of its number. */
  predicate Contents(s: State) {
    && (forall i :: 0 <= i < |s.ch.queue| ==> MsgOk(s.t.chunks, s.ch.queue[i]))
    && (s.w.pc.Writing? ==> MsgOk(s.t.chunks, s.w.pc.m))
    && (forall i :: 0 <= i < |s.w.frames| ==> FrameOk(s.t.chunks, s.w.frames[i]))
  }

  lemma ContentsReader(s: State, r: ReaderAct)
    requires Base(s) && Contents(s) && ReaderEnabled(s, r)
    ensures Contents(Apply(s, ByReader(r)))
  {
  }

  lemma ContentsConn(s: State, c: ConnAct)
    requires Contents(s) && ConnEnabled(s, c)
    ensures Contents(Apply(s, ByConn(c)))
  {
  }

  lemma ContentsWriter(s: State, w: WriterAct)
    requires Contents(s) && WriterEnabled(s, w)
    ensures Contents(Apply(s, ByWriter(w)))
  {
    if w.Receive? && s.ch.queue != [] { assert MsgOk(s.t.chunks, s.ch.queue[0]); }
  }

  /** A shutdown frame is the last thing a client receives, and names the reason the writer stopped. */
  predicate NoticeLast(w: Writer) {
    forall i :: 0 <= i < |w.frames| && w.frames[i].Shutdown? ==>
      && i == |w.frames| - 1 && !Alive(w)
      && w.why == match w.frames[i].reason { case TerminalExited => AfterExit case BacklogOverflow => AfterOverflow }
  }

  lemma NoticeLastKept(s: State, w: WriterAct)
    requires Shape(s) && NoticeLast(s.w) && WriterEnabled(s, w)
    ensures NoticeLast(WriterNext(s, w))
  {
  }

  /** Without a re-attach, a listed client is at or below the cap whenever no append is under way. */
  predicate Capped(s: State) {
    && (s.c.pc.AgainRead? || s.c.pc.AgainCharged? || s.c.pc.AgainUndo? ==> s.c.reattached)
    && (!s.c.reattached ==>
      && (Early(s.c) ==> s.ch.pending <= MAX_SCROLLBACK + 1)
      && ((Early(s.c) || s.t.listed) && !s.t.pc.Charged? && !s.t.pc.Sent? && !s.t.pc.Shedding? && !s.t.pc.Undoing?
          ==> s.ch.pending <= MAX_PENDING)
      && (s.c.pc.Start? || s.c.pc.HistoryRead? ==> s.ch.pending == 0)
      && (s.c.pc.HistoryRead? ==> |s.c.pc.history| <= MAX_SCROLLBACK))
  }

  lemma CappedReader(s: State, r: ReaderAct)
    requires Shape(s) && Capped(s) && ReaderEnabled(s, r)
    ensures Capped(Apply(s, ByReader(r)))
  {
  }

  lemma CappedConn(s: State, c: ConnAct)
    requires Shape(s) && Capped(s) && ConnEnabled(s, c)
    ensures Capped(Apply(s, ByConn(c)))
  {
  }

  lemma CappedWriter(s: State, w: WriterAct)
    requires Shape(s) && Capped(s) && WriterEnabled(s, w)
    ensures Capped(Apply(s, ByWriter(w)))
  {
  }

  predicate Safe(s: State) { Base(s) && Stream(s) && Contents(s) && Capped(s) && NoticeLast(s.w) }

  lemma BaseKept(s: State, a: Action)
    requires Base(s) && Enabled(s, a)
    ensures Base(Apply(s, a))
  {
    match a
    case ByReader(r) => ShapeReader(s, r); HistoryReader(s, r); BalancedReader(s, r);
    case ByConn(c) => ShapeConn(s, c); HistoryConn(s, c); BalancedConn(s, c);
    case ByWriter(w) => ShapeWriter(s, w); BalancedWriter(s, w);
  }

  lemma SafeKept(s: State, a: Action)
    requires Safe(s) && Enabled(s, a)
    ensures Safe(Apply(s, a))
  {
    BaseKept(s, a);
    match a
    case ByReader(r) => ReaderKept(s, r); ContentsReader(s, r); CappedReader(s, r);
    case ByConn(c) => ConnKept(s, c); ContentsConn(s, c); CappedConn(s, c);
    case ByWriter(w) => WriterKept(s, w); ContentsWriter(s, w); NoticeLastKept(s, w); CappedWriter(s, w);
  }

  lemma InitSafe()
    ensures Safe(Init)
  {
  }

  lemma {:induction false} SafeAlong(s: State, acts: seq<Action>)
    requires Safe(s) && Possible(s, acts)
    ensures Safe(After(s, acts))
    decreases |acts|
  {
    if acts != [] {
      SafeKept(s, acts[0]);
      SafeAlong(Apply(s, acts[0]), acts[1..]);
    }
  }

  // ------------------------------------------------------------ main results

  function LiveBytes(frames: seq<Frame>): Bytes {
    if frames == [] then []
    else LiveBytes(frames[..|frames| - 1]) + if frames[|frames| - 1].Live? then frames[|frames| - 1].bytes else []
  }

  lemma {:induction false} LiveBytesAre(frames: seq<Frame>, chunks: seq<Bytes>, j: nat)
    requires FramesFrom(frames, j) && forall i :: 0 <= i < |frames| ==> FrameOk(chunks, frames[i])
    requires j <= |chunks|
    ensures j + Lives(frames) <= |chunks|
    ensures LiveBytes(frames) == Flatten(chunks[j..j + Lives(frames)])
    decreases |frames|
  {
    if frames == [] {
      assert chunks[j..j] == [];
    } else {
      var init := frames[..|frames| - 1];
      var f := frames[|frames| - 1];
      LiveBytesAre(init, chunks, j);
      assert FrameOk(chunks, f);
      if f.Live? {
        var run := chunks[j..j + Lives(frames)];
        assert run[..|run| - 1] == chunks[j..j + Lives(init)];
      }
    }
  }

  /** b is the end of what was printed: all of it, or its last 8 MiB. */
  predicate IsNewest(b: Bytes, printed: Bytes) {
    var n := if |printed| < 8_388_608 then |printed| else 8_388_608;
    b == printed[|printed| - n..]
  }

  /** The replay first, then exactly the chunks from the subscription on, in order and without a gap;
      at most one chunk is in both, and the chunks in neither were fanned out in between. */
  lemma AttachStreamTheorem(acts: seq<Action>)
    requires Possible(Init, acts) && After(Init, acts).c.from.Some?
    ensures var s := After(Init, acts); var j := s.c.from.value; var n := Lives(s.w.frames);
      && s.c.seen <= j + 1 && s.c.seen <= |s.t.chunks| && j + n <= |s.t.chunks|
      && IsNewest(s.c.replay, Flatten(s.t.chunks[..s.c.seen]))
      && (s.w.frames != [] ==> s.w.frames[0] == Full(1, s.c.replay))
      && FramesFrom(s.w.frames, j)
      && LiveBytes(s.w.frames) == Flatten(s.t.chunks[j..j + n])
  {
    InitSafe();
    SafeAlong(Init, acts);
    var s := After(Init, acts);
    LiveBytesAre(s.w.frames, s.t.chunks, s.c.from.value);
  }

  predicate ReaderIdle(acts: seq<Action>) { forall i :: 0 <= i < |acts| ==> !acts[i].ByReader? }

  lemma {:induction false} IdleKeeps(s: State, acts: seq<Action>)
    requires Possible(s, acts) && ReaderIdle(acts) && s.c.from.None? && (s.c.pc.Start? || s.c.seen == |s.t.chunks|)
    requires s.t.fanned == |s.t.chunks|
    ensures var s' := After(s, acts);
      s'.c.from.Some? ==> s'.c.from.value == s'.c.seen
    decreases |acts|
  {
    if acts != [] {
      var s1 := Apply(s, acts[0]);
      assert !acts[0].ByReader?;
      assert s1.t.chunks == s.t.chunks && s1.t.fanned == s.t.fanned;
      if s1.c.from.None? { IdleKeeps(s1, acts[1..]); } else { FromKeeps(s1, acts[1..]); }
    }
  }

  lemma {:induction false} FromKeeps(s: State, acts: seq<Action>)
    requires Possible(s, acts) && s.c.from.Some? && !Early(s.c)
    ensures After(s, acts).c.from == s.c.from && After(s, acts).c.seen == s.c.seen
    decreases |acts|
  {
    if acts != [] { FromKeeps(Apply(s, acts[0]), acts[1..]); }
  }

  lemma {:induction false} Compose(s: State, a: seq<Action>, b: seq<Action>)
    requires Possible(s, a) && Possible(After(s, a), b)
    ensures Possible(s, a + b) && After(s, a + b) == After(After(s, a), b)
    decreases |a|
  {
    if a == [] {
      assert a + b == b;
    } else {
      assert (a + b)[1..] == a[1..] + b;
      Compose(Apply(s, a[0]), a[1..], b);
    }
  }

  /** Replay and live bytes are together an end piece of what was printed up to the last chunk written, and the
      replay is the newest of what was printed before the subscription. */
  predicate GotEachByteOnce(s: State) {
    && s.c.from.Some? && s.c.from.value + Lives(s.w.frames) <= |s.t.chunks|
    && IsNewest(s.c.replay, Flatten(s.t.chunks[..s.c.from.value]))
    && var printed := Flatten(s.t.chunks[..s.c.from.value + Lives(s.w.frames)]);
       var got := s.c.replay + LiveBytes(s.w.frames);
       |got| <= |printed| && got == printed[|printed| - |got|..]
  }

  /** With the reader idle between its snapshot and its subscription, a client gets every byte once: whatever
      happens afterwards, the replay and the live bytes written so far are together the end of everything
      printed up to the last chunk written, as far back as the replay goes. */
  lemma IdleReaderExact(before: seq<Action>, acts: seq<Action>, later: seq<Action>)
    requires Possible(Init, before) && Possible(After(Init, before), acts)
    requires After(Init, before).c.pc.Start? && After(Init, before).t.pc.Reading? && ReaderIdle(acts)
    requires After(After(Init, before), acts).c.from.Some? && Possible(After(After(Init, before), acts), later)
    ensures GotEachByteOnce(After(After(After(Init, before), acts), later))
  {
    IdleMeets(before, acts, later);
    MeetsAfter(before + acts + later);
  }

  lemma MeetsAfter(acts: seq<Action>)
    requires Possible(Init, acts) && After(Init, acts).c.from == Some(After(Init, acts).c.seen)
    ensures GotEachByteOnce(After(Init, acts))
  {
    AttachStreamTheorem(acts);
    MeetExactly(After(Init, acts));
  }

  /** The snapshot then ends where the subscription starts. */
  lemma IdleMeets(before: seq<Action>, acts: seq<Action>, later: seq<Action>)
    requires Possible(Init, before) && Possible(After(Init, before), acts)
    requires After(Init, before).c.pc.Start? && After(Init, before).t.pc.Reading? && ReaderIdle(acts)
    requires After(After(Init, before), acts).c.from.Some? && Possible(After(After(Init, before), acts), later)
    ensures Possible(Init, before + acts + later)
    ensures After(Init, before + acts + later) == After(After(After(Init, before), acts), later)
    ensures var c := After(Init, before + acts + later).c; c.from == Some(c.seen)
  {
    InitSafe();
    SafeAlong(Init, before);
    var s0 := After(Init, before);
    IdleKeeps(s0, acts);
    SafeAlong(s0, acts);
    FromKeeps(After(s0, acts), later);
    Compose(Init, before, acts);
    Compose(Init, before + acts, later);
  }

  lemma MeetExactly(s: State)
    requires s.c.from.Some? && s.c.from.value == s.c.seen && s.c.from.value + Lives(s.w.frames) <= |s.t.chunks|
    requires IsNewest(s.c.replay, Flatten(s.t.chunks[..s.c.seen]))
    requires LiveBytes(s.w.frames) == Flatten(s.t.chunks[s.c.from.value..s.c.from.value + Lives(s.w.frames)])
    ensures GotEachByteOnce(s)
  {
    var j := s.c.from.value;
    var m := j + Lives(s.w.frames);
    FlattenConcat(s.t.chunks[..j], s.t.chunks[j..m]);
    assert s.t.chunks[..j] + s.t.chunks[j..m] == s.t.chunks[..m];
    SuffixPlus(s.c.replay, Flatten(s.t.chunks[..j]), LiveBytes(s.w.frames));
  }

  lemma SuffixPlus(b: Bytes, all: Bytes, more: Bytes)
    requires |b| <= |all| && b == all[|all| - |b|..]
    ensures b + more == (all + more)[|all + more| - |b + more|..]
  {
  }

  // ------------------------------------------------------------ what is queued and written, literally

  /** What a message looks like on the wire. */
  lemma WritesItsMessage(acts: seq<Action>)
    requires Possible(Init, acts) && WriterEnabled(After(Init, acts), WriteOk)
    ensures var s := After(Init, acts);
      Apply(s, ByWriter(WriteOk)).w.frames == s.w.frames +
        [match s.w.pc.m
         case Replay(seqno, bytes, _) => Full(seqno, bytes)
         case Output(k, bytes) => Live(2 + Lives(s.w.frames), k, bytes)
         case ExitedNote => Shutdown(TerminalExited)
         case OverflowNote => Shutdown(BacklogOverflow)]
  {
    InitSafe();
    SafeAlong(Init, acts);
  }

  /** A replay is charged its length, and an empty one a single byte. */
  predicate ChargedRight(m: Msg) { m.Replay? ==> m.charge == if m.bytes == [] then 1 else |m.bytes| }

  predicate Charged(s: State) {
    && (forall i :: 0 <= i < |s.ch.queue| ==> ChargedRight(s.ch.queue[i]))
    && (s.w.pc.Writing? || s.w.pc.Written? ==> ChargedRight(s.w.pc.m))
  }

  lemma {:induction false} ReplaysChargedRight(s: State, acts: seq<Action>)
    requires Charged(s) && Possible(s, acts)
    ensures Charged(After(s, acts))
    decreases |acts|
  {
    if acts != [] {
      ChargedKept(s, acts[0]);
      ReplaysChargedRight(Apply(s, acts[0]), acts[1..]);
    }
  }

  lemma ChargedKept(s: State, a: Action)
    requires Charged(s) && Enabled(s, a)
    ensures Charged(Apply(s, a))
  {
    match a
    case ByReader(r) =>
    case ByConn(c) =>
    case ByWriter(w) => if w.Receive? && s.ch.queue != [] { assert ChargedRight(s.ch.queue[0]); }
  }

  /** A re-attach takes the newest bytes printed by the moment it reads them ... */
  lemma ReattachReads(acts: seq<Action>)
    requires Possible(Init, acts) && After(Init, acts).c.pc.Open?
    ensures var s := After(Init, acts);
      && ConnEnabled(s, ReadAgain)
      && var pc := Apply(s, ByConn(ReadAgain)).c.pc;
         pc.AgainRead? && IsNewest(pc.again, Flatten(s.t.chunks))
  {
    InitSafe();
    SafeAlong(Init, acts);
  }

  predicate NoConn(acts: seq<Action>) { forall i :: 0 <= i < |acts| ==> !acts[i].ByConn? }

  lemma {:induction false} OthersLeaveConn(s: State, acts: seq<Action>)
    requires Possible(s, acts) && NoConn(acts)
    ensures After(s, acts).c == s.c
    decreases |acts|
  {
    if acts != [] {
      assert !acts[0].ByConn?;
      OthersLeaveConn(Apply(s, acts[0]), acts[1..]);
    }
  }

  /** ... and, whatever reader and writer do meanwhile, charges exactly their length and queues exactly them
      behind everything queued before, if the writer is still there. */
  lemma ReattachSends(s: State, again: Bytes, one: seq<Action>, two: seq<Action>)
    requires s.c.pc == AgainRead(again) && Possible(s, one) && NoConn(one)
    requires ConnEnabled(After(s, one), ChargeAgain)
    requires Possible(Apply(After(s, one), ByConn(ChargeAgain)), two) && NoConn(two)
    ensures var n := if again == [] then 1 else |again|;
      var s1 := After(s, one); var s2 := Apply(s1, ByConn(ChargeAgain)); var s3 := After(s2, two);
      && s2.ch.pending == s1.ch.pending + n && ConnEnabled(s3, SendAgain)
      && Apply(s3, ByConn(SendAgain)).ch.queue ==
         if s3.ch.rxAlive then s3.ch.queue + [Replay(0, again, n)] else s3.ch.queue
  {
    OthersLeaveConn(s, one);
    OthersLeaveConn(Apply(After(s, one), ByConn(ChargeAgain)), two);
  }

  // ------------------------------------------------------------ nobody gets stuck

  /** Until it has sent its exit notices the reader always has a next action. */
  lemma ReaderMoves(s: State) returns (r: ReaderAct)
    requires s.t.pc != Notified
    ensures ReaderEnabled(s, r) && (s.t.pc == Reading ==> r.Append?)
  {
    match s.t.pc
    case Reading => r := Append([0]);
    case Appended => r := LockSubscribers;
    case Locked => r := AddCharge;
    case Charged => r := SendChunk;
    case Sent => r := CheckCap;
    case Undoing => r := UndoCharge;
    case Shedding => r := SendOverflow;
    case Exiting => r := NotifyExit;
  }

  /** The connection goes on up to its end; subscribing waits only while the reader holds the lock. */
  lemma ConnMoves(s: State) returns (c: ConnAct)
    requires s.c.pc != Closed
    requires !(s.t.pc.Locked? || s.t.pc.Charged? || s.t.pc.Sent? || s.t.pc.Undoing? || s.t.pc.Shedding?)
    ensures ConnEnabled(s, c)
  {
    match s.c.pc
    case Start => c := ReadHistory;
    case HistoryRead(_) => c := ChargeFirst;
    case FirstCharged(_) => c := SendFirst;
    case FirstSent => c := CheckExited;
    case ExitChecked => c := Subscribe;
    case Subscribed => c := SpawnWriter(true);
    case Open => c := ReadAgain;
    case AgainRead(_) => c := ChargeAgain;
    case AgainCharged(_) => c := SendAgain;
    case AgainUndo(_) => c := UndoAgain;
  }

  /** A running writer waits only on an empty queue that somebody can still send to. */
  lemma WriterMoves(s: State) returns (w: WriterAct)
    requires s.w.pc != NotStarted && s.w.pc != Dead
    requires s.w.pc == Receiving ==> s.ch.queue != [] || (s.c.pc == Closed && !s.t.listed)
    ensures WriterEnabled(s, w)
  {
    match s.w.pc
    case Receiving => w := Receive;
    case Writing(_) => w := WriteOk;
    case Written(_) => w := Discharge;
    case Stopping => w := Drop;
  }

  /** No subtraction from the counter ever goes below zero, in any interleaving. */
  lemma NoUnderflow(acts: seq<Action>, a: Action)
    requires Possible(Init, acts) && Enabled(After(Init, acts), a)
    ensures 0 <= After(Init, acts).ch.pending && 0 <= Apply(After(Init, acts), a).ch.pending
  {
    InitSafe();
    SafeAlong(Init, acts);
    SafeKept(After(Init, acts), a);
  }

  /** While the writer lives the counter is exactly the real backlog. */
  lemma ExactBacklog(acts: seq<Action>)
    requires Possible(Init, acts) && Alive(After(Init, acts).w)
    ensures var s := After(Init, acts);
      s.ch.pending == Charges(s.ch.queue) + InFlight(s.w) + ReaderOwes(s.t) + ConnOwes(s.c)
  {
    InitSafe();
    SafeAlong(Init, acts);
  }

  /** A client is shed only over a real backlog above the cap; without a re-attach it is never
      above the cap between two appends. */
  lemma ShedMeansBacklog(acts: seq<Action>)
    requires Possible(Init, acts)
    ensures var s := After(Init, acts);
      && (Alive(s.w) && ReaderEnabled(s, CheckCap) ==>
            (Apply(s, ByReader(CheckCap)).t.pc.Shedding? <==>
               Charges(s.ch.queue) + InFlight(s.w) + ConnOwes(s.c) > 16_777_216))
      && (!s.c.reattached && s.t.listed && !InFan(s.t) ==> s.ch.pending <= 16_777_216)
  {
    InitSafe();
    SafeAlong(Init, acts);
  }

  /** Why a writer stops, and what the client has received by then: everything it was ever sent,
      unless a write failed; after a shed nothing is missing up to the chunk that tripped it. */
  lemma StopReasons(acts: seq<Action>)
    requires Possible(Init, acts) && !Alive(After(Init, acts).w) && After(Init, acts).c.from.Some?
    ensures var s := After(Init, acts); var upto := s.c.from.value + Lives(s.w.frames);
      && s.w.why != StillRunning
      && NoticeLast(s.w)
      && (s.w.why == AfterOverflow ==> s.ch.shed && upto == s.ch.enqueued)
      && (s.w.why == AfterExit ==> s.t.exited && upto == |s.t.chunks|)
      && (s.w.why == NoSenders ==> s.c.missed && s.t.exited && upto == |s.t.chunks|)
  {
    InitSafe();
    SafeAlong(Init, acts);
  }

  // ------------------------------------------------------------ the exit notice

  /** Some action of the run puts the client on the list when the exit notices are already out.  The client
      had read the exit flag before that, and found it unset, or it would not have got so far. */
  predicate SubscribesLate(s: State, acts: seq<Action>)
    requires Possible(s, acts)
    decreases |acts|
  {
    && acts != []
    && ((acts[0] == ByConn(Subscribe) && s.t.pc.Notified?) || SubscribesLate(Apply(s, acts[0]), acts[1..]))
  }

  lemma {:induction false} MissedAlong(s: State, acts: seq<Action>)
    requires Possible(s, acts) && (Early(s.c) ==> !s.c.missed)
    ensures After(s, acts).c.missed <==> s.c.missed || SubscribesLate(s, acts)
    decreases |acts|
  {
    if acts != [] { MissedAlong(Apply(s, acts[0]), acts[1..]); }
  }

  /** Once the reader has sent its exit notices, an attached client that was not shed has one queued or in
      hand, unless, and only unless, the run subscribed it after they were sent. */
  lemma ExitNoticeIff(acts: seq<Action>)
    requires Possible(Init, acts)
    requires var s := After(Init, acts); s.t.pc.Notified? && s.c.from.Some? && Alive(s.w) && !s.ch.shed
    ensures ExitedNote in Rest(After(Init, acts)) <==> !SubscribesLate(Init, acts)
  {
    InitSafe();
    SafeAlong(Init, acts);
    MissedAlong(Init, acts);
    var s := After(Init, acts);
    if s.c.missed { assert forall i :: 0 <= i < |Rest(s)| ==> !IsNote(Rest(s)[i]); }
  }

  lemma {:induction false} Extend(s: State, acts: seq<Action>, a: Action)
    requires Possible(s, acts) && Enabled(After(s, acts), a)
    ensures Possible(s, acts + [a]) && After(s, acts + [a]) == Apply(After(s, acts), a)
    decreases |acts|
  {
    if acts == [] {
      assert acts + [a] == [a] && [a][1..] == [];
      assert Possible(Apply(s, a), [a][1..]);
    } else {
      assert (acts + [a])[1..] == acts[1..] + [a];
      Extend(Apply(s, acts[0]), acts[1..], a);
    }
  }

  lemma Go(acts: seq<Action>, s: State, a: Action, s': State) returns (acts': seq<Action>)
    requires Possible(Init, acts) && s == After(Init, acts) && Enabled(s, a) && Apply(s, a) == s'
    ensures Possible(Init, acts') && After(Init, acts') == s'
  {
    Extend(Init, acts, a);
    acts' := acts + [a];
  }

  /** The client has read the exit flag, still false, with its replay queued. */
  const Checked: State :=
    Init.(ch := Init.ch.(queue := [Replay(1, [], 1)], pending := 1), c := Init.c.(pc := ExitChecked))

  lemma ReachChecked() returns (acts: seq<Action>)
    ensures Possible(Init, acts) && After(Init, acts) == Checked
  {
    acts := [];
    var s1 := Init.(c := Init.c.(pc := HistoryRead([])));
    acts := Go(acts, Init, ByConn(ReadHistory), s1);
    var s2 := s1.(ch := Init.ch.(pending := 1), c := Init.c.(pc := FirstCharged([])));
    acts := Go(acts, s1, ByConn(ChargeFirst), s2);
    var s3 := s2.(ch := Checked.ch, c := Init.c.(pc := FirstSent));
    acts := Go(acts, s2, ByConn(SendFirst), s3);
    acts := Go(acts, s3, ByConn(CheckExited), Checked);
  }

  /** The reader exits and sends its notices before the client is listed. */
  lemma ReachMissed(acts: seq<Action>) returns (acts': seq<Action>)
    requires Possible(Init, acts) && After(Init, acts) == Checked
    ensures Possible(Init, acts')
    ensures After(Init, acts') == State(Init.t.(exited := true, listed := true, pc := Notified), Checked.ch,
                                        Init.c.(pc := Open, from := Some(0), missed := true), Init.w.(pc := Receiving))
  {
    var s1 := Checked.(t := Init.t.(exited := true, pc := Exiting));
    acts' := Go(acts, Checked, ByReader(FlagExit), s1);
    var s2 := s1.(t := Init.t.(exited := true, pc := Notified));
    acts' := Go(acts', s1, ByReader(NotifyExit), s2);
    var s3 := s2.(t := s2.t.(listed := true), c := Init.c.(pc := Subscribed, from := Some(0), missed := true));
    acts' := Go(acts', s2, ByConn(Subscribe), s3);
    var s4 := s3.(c := s3.c.(pc := Open), w := Init.w.(pc := Receiving));
    acts' := Go(acts', s3, ByConn(SpawnWriter(true)), s4);
  }

  /** The notice can be missed: this run ends with a dead terminal and a client waiting forever. */
  lemma ExitCanBeMissed() returns (acts: seq<Action>)
    ensures Possible(Init, acts)
    ensures var s := After(Init, acts);
      && s.t.pc.Notified? && s.w.pc.Receiving? && s.ch.queue == [] && HasSender(s)
      && s.w.frames == [Full(1, [])]
  {
    acts := ReachChecked();
    acts := ReachMissed(acts);
    var s := After(Init, acts);
    var m := Replay(1, [], 1);
    var s1 := s.(ch := s.ch.(queue := []), w := s.w.(pc := Writing(m)));
    assert [m][1..] == [];
    acts := Go(acts, s, ByWriter(Receive), s1);
    var s2 := s1.(w := Writer(Written(m), 2, [Full(1, [])], StillRunning));
    acts := Go(acts, s1, ByWriter(WriteOk), s2);
    var s3 := s2.(ch := s2.ch.(pending := 0), w := s2.w.(pc := Receiving));
    acts := Go(acts, s2, ByWriter(Discharge), s3);
  }
}
