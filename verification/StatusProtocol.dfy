/**
 Status detection on one terminal.  Three kinds of thread race over a throttle
 stamp, a pending flag, a sequence counter and the last published report: the
 reader (one per terminal), the 100 ms sweeper (one per terminal) and any number
 of composer submits.  Every atomic operation or mutex section is one action.
 */
module StatusProtocol {
  import opened Prelude

  const THROTTLE_MS := 500
  const SWEEP_MS := 100

  /** How many chunks have reached the scrollback and the OSC tracker. */
  datatype Mark = Mark(tail: nat, osc: nat)

  predicate AtMost(a: Mark, b: Mark) { a.tail <= b.tail && a.osc <= b.osc }

  datatype Status = Working | Blocked | Done | Idle | Unknown

  datatype Report = Report(agent: Option<string>, status: Status)

  /** What one pass saw: a scrollback tail, an OSC state and a process-table sample. */
  datatype Reading = Reading(at: Mark, probe: nat)

  /** Screen scraping and OSC rules, left uninterpreted. */
  type Detector = Reading -> Report

  datatype Commit = Commit(seqno: nat, reading: Reading, report: Report, before: Option<Report>)

  /** An event is due exactly when the pair changed and an agent is involved on either side. */
  predicate EventDue(before: Option<Report>, report: Report) {
    && (before.None? || before.value != report)
    && (report.agent.Some? || (before.Some? && before.value.agent.Some?))
  }

  predicate GateOpens(lastCheck: Option<nat>, now: nat) {
    lastCheck.None? || now >= lastCheck.value + THROTTLE_MS
  }

  predicate Accepts(last: Option<Commit>, q: nat) {
    last.None? || last.value.seqno < q
  }

  datatype Tid = Reader | Sweeper | Prompt(id: nat)

  datatype Pass =
    | Entered
    | Reserved(q: nat)
    | TailRead(q: nat, tail: nat)
    | OscRead(q: nat, at: Mark)
    | Sampled(q: nat, reading: Reading)
    | Publishing(k: nat)

  datatype ReaderPc =
    | Waiting | Appended | Observed | Throttled | Clearing | ReaderPass
    | ExitFlagged | TrackerReset | StateCleared | Gone

  datatype SweeperPc =
    | Sleeping(since: nat) | Awake | Swapping | Forced | TakingNow | Gating(at: nat)
    | Remarking | SweeperPass | Stopped

  /** The cached report a submit saw at its second check, and whether it could still be trusted. */
  datatype Verdict = Verdict(from: Mark, upto: Mark, seen: Option<Commit>, live: bool)

  datatype PromptPc =
    | Cached(from: Mark) | Detecting(from: Mark) | Rechecking(from: Mark)
    | Pasting(v: Verdict) | Gap(v: Verdict) | Entering(v: Verdict) | Finished(v: Verdict)
    | Refused | Failed

  /** What a submit put on the PTY: a whole paste, what a failed write left of one, or its return. */
  datatype Write = Paste(id: nat) | Fragment(id: nat) | CarriageReturn(id: nat)

  /** How a paste went: accepted, or refused with some or all of its bytes written, or with none. */
  datatype Landing = Accepted | Partial | Nothing

  datatype State = State(
    now: nat, mark: Mark, exited: bool,
    lastCheck: Option<nat>, pending: bool,
    reserved: seq<Mark>, last: Option<Commit>,
    reader: ReaderPc, sweeper: SweeperPc, prompts: map<nat, PromptPc>, passes: map<Tid, Pass>,
    pty: seq<Write>,
    commits: seq<Commit>, issued: seq<nat>, ticks: nat)

  const Init: State := State(0, Mark(0, 0), false, None, false, [], None,
                             Waiting, Sleeping(0), map[], map[], [], [], [], 0)

  datatype ReaderAct = Append | Observe | Gate | MarkPending | ClearPending
                     | FlagExit | ResetTracker | ClearState | Leave
  datatype SweeperAct = Wake | LoadExited | SwapPending | Recheck | TakeNow | SweepGate | Remark
  datatype PromptAct = Call | CheckCache | CheckAgain | WritePaste(how: Landing) | EndGap | WriteEnter(ok: bool)
  datatype PassAct = Reserve | ReadTail | ReadOsc | Probe(sample: nat) | TryCommit | Publish

  datatype Action =
    | Time(d: nat)
    | ByReader(r: ReaderAct)
    | BySweeper(w: SweeperAct)
    | ByPrompt(id: nat, p: PromptAct)
    | ByPass(t: Tid, a: PassAct)

  // ------------------------------------------------------------------ actions

  predicate ReaderEnabled(s: State, r: ReaderAct) {
    match r
    case Append => s.reader.Waiting?
    case Observe => s.reader.Appended?
    case Gate => s.reader.Observed?
    case MarkPending => s.reader.Throttled?
    case ClearPending => s.reader.Clearing?
    case FlagExit => s.reader.Waiting?
    case ResetTracker => s.reader.ExitFlagged?
    case ClearState => s.reader.TrackerReset?
    case Leave => s.reader.StateCleared?
  }

  function ReaderApply(s: State, r: ReaderAct): State
    requires ReaderEnabled(s, r)
  {
    var s := s.(ticks := 0);
    match r
    case Append => s.(mark := s.mark.(tail := s.mark.tail + 1), reader := Appended)
    case Observe => s.(mark := s.mark.(osc := s.mark.osc + 1), reader := Observed)
    case Gate =>
      if GateOpens(s.lastCheck, s.now) then s.(lastCheck := Some(s.now), reader := Clearing)
      else s.(reader := Throttled)
    case MarkPending => s.(pending := true, reader := Waiting)
    case ClearPending => s.(pending := false, reader := ReaderPass, passes := s.passes[Reader := Entered])
    case FlagExit => s.(exited := true, reader := ExitFlagged)
    case ResetTracker => s.(mark := s.mark.(osc := s.mark.osc + 1), reader := TrackerReset)
    case ClearState => s.(last := None, reader := StateCleared)
    case Leave => s.(reader := Gone)
  }

  predicate SweeperEnabled(s: State, w: SweeperAct) {
    match w
    case Wake => s.sweeper.Sleeping? && s.now >= s.sweeper.since + SWEEP_MS
    case LoadExited => s.sweeper.Awake?
    case SwapPending => s.sweeper.Swapping?
    case Recheck => s.sweeper.Forced?
    case TakeNow => s.sweeper.TakingNow?
    case SweepGate => s.sweeper.Gating?
    case Remark => s.sweeper.Remarking?
  }

  function SweeperApply(s: State, w: SweeperAct): State
    requires SweeperEnabled(s, w)
  {
    match w
    case Wake => s.(sweeper := Awake, ticks := s.ticks + 1)
    case LoadExited => s.(sweeper := if s.exited then Stopped else Swapping)
    case SwapPending => s.(pending := false, sweeper := if s.pending then Forced else Sleeping(s.now))
    case Recheck => s.(sweeper := if s.exited then Sleeping(s.now) else TakingNow)
    case TakeNow => s.(sweeper := Gating(s.now))
    case SweepGate =>
      if GateOpens(s.lastCheck, s.sweeper.at) then
        s.(lastCheck := Some(s.sweeper.at), sweeper := SweeperPass, passes := s.passes[Sweeper := Entered])
      else s.(sweeper := Remarking)
    case Remark => s.(pending := true, sweeper := Sleeping(s.now))
  }

  predicate PromptEnabled(s: State, id: nat, p: PromptAct) {
    match p
    case Call => id !in s.prompts
    case CheckCache => id in s.prompts && s.prompts[id].Cached?
    case CheckAgain => id in s.prompts && s.prompts[id].Rechecking?
    case WritePaste(_) => id in s.prompts && s.prompts[id].Pasting?
    case EndGap => id in s.prompts && s.prompts[id].Gap?
    case WriteEnter(_) => id in s.prompts && s.prompts[id].Entering?
  }

  predicate ReadsBlocked(last: Option<Commit>) {
    last.Some? && last.value.report.status.Blocked?
  }

  function PromptApply(s: State, id: nat, p: PromptAct): State
    requires PromptEnabled(s, id, p)
  {
    match p
    case Call => s.(prompts := s.prompts[id := if s.exited then Refused else Cached(s.mark)])
    case CheckCache =>
      if ReadsBlocked(s.last) then s.(prompts := s.prompts[id := Refused])
      else s.(prompts := s.prompts[id := Detecting(s.prompts[id].from)],
              passes := s.passes[Prompt(id) := Entered])
    case CheckAgain =>
      if ReadsBlocked(s.last) then s.(prompts := s.prompts[id := Refused])
      else s.(prompts := s.prompts[id := Pasting(Verdict(s.prompts[id].from, s.mark, s.last, !Cleared(s)))])
    case WritePaste(how) =>
      if how.Accepted? then s.(prompts := s.prompts[id := Gap(s.prompts[id].v)], pty := s.pty + [Paste(id)])
      else s.(prompts := s.prompts[id := Failed], pty := if how.Partial? then s.pty + [Fragment(id)] else s.pty)
    case EndGap =>
      s.(prompts := s.prompts[id := if s.exited then Finished(s.prompts[id].v) else Entering(s.prompts[id].v)])
    case WriteEnter(ok) =>
      s.(prompts := s.prompts[id := Finished(s.prompts[id].v)],
         pty := if ok then s.pty + [CarriageReturn(id)] else s.pty)
  }

  predicate PassEnabled(s: State, t: Tid, a: PassAct) {
    && t in s.passes
    && (t.Prompt? ==> t.id in s.prompts && s.prompts[t.id].Detecting?)
    && (t.Reader? ==> s.reader.ReaderPass?)
    && (t.Sweeper? ==> s.sweeper.SweeperPass?)
    && match a
       case Reserve => s.passes[t].Entered?
       case ReadTail => s.passes[t].Reserved?
       case ReadOsc => s.passes[t].TailRead?
       case Probe(_) => s.passes[t].OscRead?
       case TryCommit => s.passes[t].Sampled?
       case Publish => s.passes[t].Publishing?
  }

  /** The pass returns to its caller. */
  function EndPass(s: State, t: Tid): State
    requires t.Prompt? ==> t.id in s.prompts && s.prompts[t.id].Detecting?
  {
    var s := s.(passes := s.passes - {t});
    match t
    case Reader => s.(reader := Waiting)
    case Sweeper => s.(sweeper := Sleeping(s.now))
    case Prompt(id) => s.(prompts := s.prompts[id := Rechecking(s.prompts[id].from)])
  }

  function PassApply(e: Detector, s: State, t: Tid, a: PassAct): State
    requires PassEnabled(s, t, a)
  {
    var s := if t.Reader? then s.(ticks := 0) else s;
    var p := s.passes[t];
    match a
    case Reserve => s.(reserved := s.reserved + [s.mark], passes := s.passes[t := Reserved(|s.reserved| + 1)])
    case ReadTail => s.(passes := s.passes[t := TailRead(p.q, s.mark.tail)])
    case ReadOsc => s.(passes := s.passes[t := OscRead(p.q, Mark(p.tail, s.mark.osc))])
    case Probe(sample) => s.(passes := s.passes[t := Sampled(p.q, Reading(p.at, sample))])
    case TryCommit =>
      if !Accepts(s.last, p.q) then EndPass(s, t)
      else
        var before := if s.last.None? then None else Some(s.last.value.report);
        var c := Commit(p.q, p.reading, e(p.reading), before);
        var s' := s.(last := Some(c), commits := s.commits + [c]);
        if EventDue(before, c.report) then s'.(passes := s.passes[t := Publishing(|s.commits|)])
        else EndPass(s', t)
    case Publish => EndPass(s.(issued := s.issued + [p.k]), t)
  }

  predicate Enabled(s: State, a: Action) {
    match a
    case Time(_) => true
    case ByReader(r) => ReaderEnabled(s, r)
    case BySweeper(w) => SweeperEnabled(s, w)
    case ByPrompt(id, p) => PromptEnabled(s, id, p)
    case ByPass(t, p) => PassEnabled(s, t, p)
  }

  function Apply(e: Detector, s: State, a: Action): State
    requires Enabled(s, a)
  {
    match a
    case Time(d) => s.(now := s.now + d)
    case ByReader(r) => ReaderApply(s, r)
    case BySweeper(w) => SweeperApply(s, w)
    case ByPrompt(id, p) => PromptApply(s, id, p)
    case ByPass(t, p) => PassApply(e, s, t, p)
  }

  /** The actions can be taken one after the other from s. */
  predicate Possible(e: Detector, s: State, acts: seq<Action>)
    decreases |acts|
  {
    acts == [] || (Enabled(s, acts[0]) && Possible(e, Apply(e, s, acts[0]), acts[1..]))
  }

  function After(e: Detector, s: State, acts: seq<Action>): State
    requires Possible(e, s, acts)
    decreases |acts|
  {
    if acts == [] then s else After(e, Apply(e, s, acts[0]), acts[1..])
  }

  // --------------------------------------------------------------- invariants

  /** From here on the cached report has been dropped by the exit path. */
  predicate Cleared(s: State) { s.reader.StateCleared? || s.reader.Gone? }

  predicate Live(s: State) { !s.exited }

  /** Program counters agree with the pass table; clocks do not run ahead. */
  ghost predicate Shape(s: State) {
    && (s.exited <==> s.reader.ExitFlagged? || s.reader.TrackerReset? || Cleared(s))
    && (Reader in s.passes <==> s.reader.ReaderPass?)
    && (Sweeper in s.passes <==> s.sweeper.SweeperPass?)
    && (forall id :: Prompt(id) in s.passes <==> id in s.prompts && s.prompts[id].Detecting?)
    && (s.lastCheck.Some? ==> s.lastCheck.value <= s.now)
    && (s.sweeper.Sleeping? ==> s.sweeper.since <= s.now)
    && (s.sweeper.Gating? ==> s.sweeper.at <= s.now)
    && (!s.exited ==> s.mark.tail == s.mark.osc + if s.reader.Appended? then 1 else 0)
  }

  /** Reservations are made at versions that never run backwards. */
  ghost predicate Marks(s: State) {
    && (forall i, j :: 0 <= i <= j < |s.reserved| ==> AtMost(s.reserved[i], s.reserved[j]))
    && (forall i :: 0 <= i < |s.reserved| ==> AtMost(s.reserved[i], s.mark))
  }

  predicate HasSeq(p: Pass) { !p.Entered? && !p.Publishing? }

  predicate PassOk(s: State, p: Pass) {
    && (HasSeq(p) ==> 1 <= p.q <= |s.reserved|)
    && (p.TailRead? ==> s.reserved[p.q - 1].tail <= p.tail <= s.mark.tail)
    && (p.OscRead? ==> AtMost(s.reserved[p.q - 1], p.at) && AtMost(p.at, s.mark))
    && (p.Sampled? ==> AtMost(s.reserved[p.q - 1], p.reading.at) && AtMost(p.reading.at, s.mark))
    && (p.Publishing? ==> p.k < |s.commits|)
  }

  /** A pass reads a tail and an OSC state at least as new as its reservation. */
  ghost predicate PassesOk(s: State) {
    forall t :: t in s.passes ==> PassOk(s, s.passes[t])
  }

  predicate CommitOk(e: Detector, s: State, c: Commit) {
    && 1 <= c.seqno <= |s.reserved|
    && AtMost(s.reserved[c.seqno - 1], c.reading.at)
    && AtMost(c.reading.at, s.mark)
    && c.report == e(c.reading)
  }

  ghost predicate CommitsOk(e: Detector, s: State) {
    && (forall k :: 0 <= k < |s.commits| ==> CommitOk(e, s, s.commits[k]))
    && (s.last.Some? ==> s.commits != [] && s.last.value == s.commits[|s.commits| - 1])
  }

  /** Until the exit path drops the cache, the history is one strictly increasing chain. */
  ghost predicate Chain(s: State) {
    !Cleared(s) ==>
      && (s.commits != [] ==> s.last.Some?)
      && (forall i, j :: 0 <= i < j < |s.commits| ==> s.commits[i].seqno < s.commits[j].seqno)
      && (forall i :: 0 < i < |s.commits| ==> s.commits[i].before == Some(s.commits[i - 1].report))
      && (s.commits != [] ==> s.commits[0].before == None)
  }

  /** The cached report was reserved after the latest append. */
  predicate Fresh(s: State) {
    || s.mark == Mark(0, 0)
    || (s.last.Some? && 1 <= s.last.value.seqno <= |s.reserved| && s.reserved[s.last.value.seqno - 1] == s.mark)
  }

  /** This thread's pass is still going to see everything appended so far. */
  predicate WillCover(s: State, t: Tid) {
    && t in s.passes
    && var p := s.passes[t];
       p.Entered? || (HasSeq(p) && 1 <= p.q <= |s.reserved| && s.reserved[p.q - 1] == s.mark)
  }

  predicate SweeperHolds(s: State) {
    s.sweeper.Forced? || s.sweeper.TakingNow? || s.sweeper.Gating? || s.sweeper.Remarking?
    || (s.sweeper.SweeperPass? && WillCover(s, Sweeper))
  }

  /** No flip is lost: the four ways in which the newest output is accounted for. */
  predicate Covered(s: State) {
    Live(s) ==>
      && (s.reader.Waiting? ==> Fresh(s) || s.pending || SweeperHolds(s))
      && (s.reader.ReaderPass? ==> Fresh(s) || WillCover(s, Reader))
  }
}
