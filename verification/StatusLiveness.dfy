/** Once output stops, six sweeper ticks bring the published report up to date. */
module StatusLiveness {
  import opened Prelude
  import opened StatusProtocol
  import opened StatusSafety

  /** While the newest output is still unreported, the throttle stamp bounds the ticks spent. */
  predicate Paced(s: State) {
    match s.sweeper
    case Sleeping(since) =>
      s.ticks <= 5 && (s.ticks >= 1 ==> s.lastCheck.Some? && s.lastCheck.value + SWEEP_MS * (s.ticks - 1) <= since)
    case Gating(at) =>
      s.ticks <= 6 && (s.ticks >= 1 && s.lastCheck.Some? ==> s.lastCheck.value + SWEEP_MS * (s.ticks - 1) <= at)
    case Remarking =>
      s.ticks <= 5 && (s.ticks >= 1 ==> s.lastCheck.Some? && s.lastCheck.value + SWEEP_MS * (s.ticks - 1) <= s.now)
    case SweeperPass => s.ticks >= 1 ==> WillCover(s, Sweeper)
    case Stopped => false
    case _ =>
      s.ticks <= 6 && (s.ticks >= 1 && s.lastCheck.Some? ==> s.lastCheck.value + SWEEP_MS * (s.ticks - 1) <= s.now)
  }

  predicate TicksOk(s: State) {
    && (s.sweeper.Stopped? ==> s.exited)
    && (Live(s) && s.reader.Waiting? && !Fresh(s) ==> Paced(s))
  }

  ghost predicate Safe(e: Detector, s: State) { Base(e, s) && Covered(s) && TicksOk(s) }

  lemma TicksReader(s: State, r: ReaderAct)
    requires Shape(s) && TicksOk(s) && ReaderEnabled(s, r)
    ensures TicksOk(ReaderApply(s, r))
  {
  }

  lemma TicksSweeper(e: Detector, s: State, w: SweeperAct)
    requires Safe(e, s) && SweeperEnabled(s, w)
    ensures TicksOk(SweeperApply(s, w))
  {
    var s' := SweeperApply(s, w);
    if Live(s') && s'.reader.Waiting? && !Fresh(s') {
      assert Live(s) && s.reader.Waiting? && !Fresh(s);
    }
  }

  lemma TicksPrompt(e: Detector, s: State, id: nat, p: PromptAct)
    requires Safe(e, s) && PromptEnabled(s, id, p)
    ensures TicksOk(PromptApply(s, id, p))
  {
    PromptFrame(s, id, p);
    assert SamePass(s, PromptApply(s, id, p), Sweeper);
  }

  lemma TicksPass(e: Detector, s: State, t: Tid, a: PassAct)
    requires Safe(e, s) && PassEnabled(s, t, a)
    ensures TicksOk(PassApply(e, s, t, a))
  {
    PassShare(e, s, t, a);
    PassSweeper(e, s, t, a);
    TicksFrom(s, PassApply(e, s, t, a), t);
  }

  lemma TicksFrom(s: State, s': State, t: Tid)
    requires Shape(s) && Covered(s) && TicksOk(s) && t in s.passes
    requires ThreadsAfter(s, s', t) && s.reserved <= s'.reserved
    requires forall u :: u != t ==> SamePass(s, s', u)
    requires Live(s) && Fresh(s) ==> Fresh(s')
    requires Live(s) && WillCover(s, t) ==> Fresh(s') || WillCover(s', t)
    requires s'.ticks == (if t.Reader? then 0 else s.ticks) && s'.now == s.now && s'.lastCheck == s.lastCheck
    requires s'.sweeper == s.sweeper || (t.Sweeper? && s'.sweeper == Sleeping(s.now) && !WillCover(s', Sweeper))
    ensures TicksOk(s')
  {
    if t != Sweeper && WillCover(s, Sweeper) { WillCoverStays(s, s', Sweeper); }
  }

  /** Which pass actions touch the sweeper's own counters. */
  lemma PassSweeper(e: Detector, s: State, t: Tid, a: PassAct)
    requires PassEnabled(s, t, a)
    ensures var s' := PassApply(e, s, t, a);
      && s'.ticks == (if t.Reader? then 0 else s.ticks)
      && (s'.sweeper == s.sweeper || (t.Sweeper? && s'.sweeper == Sleeping(s.now) && !WillCover(s', Sweeper)))
      && s'.now == s.now && s'.lastCheck == s.lastCheck
      && (!t.Reader? ==> s'.reader == s.reader)
  {
  }

  lemma SafeKept(e: Detector, s: State, a: Action)
    requires Safe(e, s) && Enabled(s, a)
    ensures Safe(e, Apply(e, s, a))
  {
    BaseKept(e, s, a);
    match a
    case Time(_) =>
    case ByReader(r) => CoveredReader(s, r); TicksReader(s, r);
    case BySweeper(w) => CoveredSweeper(e, s, w); TicksSweeper(e, s, w);
    case ByPrompt(id, p) => CoveredPrompt(e, s, id, p); TicksPrompt(e, s, id, p);
    case ByPass(t, p) => CoveredPass(e, s, t, p); TicksPass(e, s, t, p);
  }

  lemma {:induction false} SafeAlong(e: Detector, s: State, acts: seq<Action>)
    requires Safe(e, s) && Possible(e, s, acts)
    ensures Safe(e, After(e, s, acts))
    decreases |acts|
  {
    if acts != [] {
      SafeKept(e, s, acts[0]);
      SafeAlong(e, Apply(e, s, acts[0]), acts[1..]);
    }
  }

  /** No action of the reader thread, so no output and no exit. */
  predicate Quiet(acts: seq<Action>) {
    forall i :: 0 <= i < |acts| ==> !acts[i].ByReader? && !(acts[i].ByPass? && acts[i].t.Reader?)
  }

  function Wakes(acts: seq<Action>): nat {
    if acts == [] then 0 else (if acts[0] == BySweeper(Wake) then 1 else 0) + Wakes(acts[1..])
  }

  lemma QuietStep(e: Detector, s: State, a: Action)
    requires Enabled(s, a) && Quiet([a])
    ensures var s' := Apply(e, s, a);
      && s'.reader == s.reader && s'.mark == s.mark && s'.exited == s.exited
      && s'.ticks == s.ticks + Wakes([a])
  {
    assert !([a][0].ByReader?);
    assert Wakes([a]) == (if a == BySweeper(Wake) then 1 else 0) + Wakes([a][1..]);
    match a
    case Time(_) =>
    case ByReader(r) =>
    case BySweeper(w) =>
    case ByPrompt(id, p) =>
    case ByPass(t, p) => assert !([a][0].t.Reader?); MarksSame(e, s, t, p); PassSweeper(e, s, t, p);
  }

  lemma MarksSame(e: Detector, s: State, t: Tid, a: PassAct)
    requires PassEnabled(s, t, a)
    ensures PassApply(e, s, t, a).mark == s.mark && PassApply(e, s, t, a).exited == s.exited
  {
  }

  lemma {:induction false} QuietAlong(e: Detector, s: State, acts: seq<Action>)
    requires Possible(e, s, acts) && Quiet(acts)
    ensures var s' := After(e, s, acts);
      && s'.reader == s.reader && s'.mark == s.mark && s'.exited == s.exited
      && s'.ticks == s.ticks + Wakes(acts)
    decreases |acts|
  {
    if acts != [] {
      assert Quiet([acts[0]]) by { assert !acts[0].ByReader?; }
      QuietStep(e, s, acts[0]);
      assert Quiet(acts[1..]);
      QuietAlong(e, Apply(e, s, acts[0]), acts[1..]);
      assert Wakes([acts[0]]) == (if acts[0] == BySweeper(Wake) then 1 else 0) + Wakes([acts[0]][1..]);
    }
  }

  lemma InitSafe(e: Detector)
    ensures Safe(e, Init)
  {
  }

  /** In every reachable state of a live terminal the newest output is accounted for. */
  lemma NoFlipLost(e: Detector, history: seq<Action>)
    requires Possible(e, Init, history) && Live(After(e, Init, history))
    ensures var s := After(e, Init, history);
      && (s.reader.Waiting? ==> Fresh(s) || s.pending || SweeperHolds(s))
      && (s.reader.ReaderPass? ==> Fresh(s) || WillCover(s, Reader))
      && (s.reader.Waiting? || s.reader.ReaderPass? ==> s.mark.tail == s.mark.osc)
  {
    InitSafe(e);
    SafeAlong(e, Init, history);
  }

  /** A fresh report is the detector's verdict on everything printed so far. */
  lemma FreshMeansCurrent(e: Detector, s: State)
    requires Base(e, s) && Fresh(s) && s.mark != Mark(0, 0)
    ensures s.last.Some? && s.last.value.reading.at == s.mark && s.last.value.report == e(s.last.value.reading)
  {
    assert CommitOk(e, s, s.commits[|s.commits| - 1]);
  }

  /** Output stopped, six ticks finished: the cached report covers all of the output. */
  lemma SixTicksSuffice(e: Detector, history: seq<Action>, quiet: seq<Action>)
    requires Possible(e, Init, history) && Possible(e, After(e, Init, history), quiet)
    requires After(e, Init, history).reader.Waiting? && Quiet(quiet) && Wakes(quiet) >= 6
    requires After(e, After(e, Init, history), quiet).sweeper.Sleeping?
    ensures var s := After(e, After(e, Init, history), quiet);
      && Fresh(s)
      && (s.mark != Mark(0, 0) ==>
          s.last.Some? && s.last.value.reading.at == s.mark && s.last.value.report == e(s.last.value.reading))
  {
    var s := After(e, Init, history);
    InitSafe(e);
    SafeAlong(e, Init, history);
    SafeAlong(e, s, quiet);
    QuietAlong(e, s, quiet);
    var s' := After(e, s, quiet);
    if s'.mark != Mark(0, 0) { FreshMeansCurrent(e, s'); }
  }

  /** The sweeper of a live terminal always has a next action, at the latest after its sleep. */
  lemma SweeperMoves(e: Detector, s: State) returns (a: Action)
    requires Safe(e, s) && Live(s)
    ensures Enabled(Apply(e, s, Time(100)), a)
    ensures a.BySweeper? || (a.ByPass? && a.t.Sweeper?)
  {
    match s.sweeper
    case Sleeping(_) => a := BySweeper(Wake);
    case Awake => a := BySweeper(LoadExited);
    case Swapping => a := BySweeper(SwapPending);
    case Forced => a := BySweeper(Recheck);
    case TakingNow => a := BySweeper(TakeNow);
    case Gating(_) => a := BySweeper(SweepGate);
    case Remarking => a := BySweeper(Remark);
    case SweeperPass =>
      match s.passes[Sweeper] {
        case Entered => a := ByPass(Sweeper, Reserve);
        case Reserved(_) => a := ByPass(Sweeper, ReadTail);
        case TailRead(_, _) => a := ByPass(Sweeper, ReadOsc);
        case OscRead(_, _) => a := ByPass(Sweeper, Probe(0));
        case Sampled(_, _) => a := ByPass(Sweeper, TryCommit);
        case Publishing(_) => a := ByPass(Sweeper, Publish);
      }
  }

  // ------------------------------------------------------------ the throttle

  /** The stamp is what it was, or at least 500 ms later. */
  predicate Apart(before: Option<nat>, after: Option<nat>) {
    before.Some? ==> after.Some? && (after == before || after.value >= before.value + 500)
  }

  lemma StampStep(e: Detector, s: State, a: Action)
    requires Enabled(s, a)
    ensures Apart(s.lastCheck, Apply(e, s, a).lastCheck)
  {
    match a
    case Time(_) =>
    case ByReader(r) =>
    case BySweeper(w) =>
    case ByPrompt(id, p) => PromptFrame(s, id, p);
    case ByPass(t, p) => ClearedPass(e, s, t, p);
  }

  /** The reader and the sweeper together check at most every 500 ms, whatever runs in between. */
  lemma {:induction false} ChecksApart(e: Detector, s: State, acts: seq<Action>)
    requires Possible(e, s, acts)
    ensures Apart(s.lastCheck, After(e, s, acts).lastCheck)
    decreases |acts|
  {
    if acts != [] {
      StampStep(e, s, acts[0]);
      ChecksApart(e, Apply(e, s, acts[0]), acts[1..]);
    }
  }

  // ------------------------------------------------------------ ticks do happen

  /** An action of the sweeper thread, its detection pass included. */
  predicate Own(a: Action) { a.BySweeper? || (a.ByPass? && a.t.Sweeper?) }

  function PassRank(p: Pass): nat {
    match p
    case Entered => 6
    case Reserved(_) => 5
    case TailRead(_, _) => 4
    case OscRead(_, _) => 3
    case Sampled(_, _) => 2
    case Publishing(_) => 1
  }

  /** How many actions of its own the sweeper can still take before it sleeps again. */
  function Rank(s: State): nat {
    match s.sweeper
    case Sleeping(_) => 0
    case Stopped => 0
    case Awake => 11
    case Swapping => 10
    case Forced => 9
    case TakingNow => 8
    case Gating(_) => 7
    case Remarking => 1
    case SweeperPass => if Sweeper in s.passes then PassRank(s.passes[Sweeper]) else 0
  }

  lemma RankPass(e: Detector, s: State, t: Tid, a: PassAct)
    requires Shape(s) && PassEnabled(s, t, a)
    ensures if t.Sweeper? then Rank(PassApply(e, s, t, a)) < Rank(s) else Rank(PassApply(e, s, t, a)) == Rank(s)
  {
    if !t.Sweeper? {
      PassFrame(e, s, t, a);
      assert SamePass(s, PassApply(e, s, t, a), Sweeper);
      PassSweeper(e, s, t, a);
    }
  }

  /** Every action of the sweeper's own but a wake-up lowers the rank, a wake-up sets it to 11, and nobody
      else changes it. */
  lemma RankStep(e: Detector, s: State, a: Action)
    requires Shape(s) && Enabled(s, a)
    ensures var r := Rank(Apply(e, s, a));
      if a == BySweeper(Wake) then r == 11 else if Own(a) then r < Rank(s) else r == Rank(s)
  {
    match a
    case Time(_) =>
    case ByReader(r) => RankReader(s, r);
    case BySweeper(w) => RankSweeper(s, w);
    case ByPrompt(id, p) => RankPrompt(s, id, p);
    case ByPass(t, p) => RankPass(e, s, t, p);
  }

  lemma RankReader(s: State, r: ReaderAct)
    requires ReaderEnabled(s, r)
    ensures Rank(ReaderApply(s, r)) == Rank(s)
  {
  }

  lemma RankSweeper(s: State, w: SweeperAct)
    requires Shape(s) && SweeperEnabled(s, w)
    ensures if w.Wake? then Rank(SweeperApply(s, w)) == 11 else Rank(SweeperApply(s, w)) < Rank(s)
  {
  }

  lemma RankPrompt(s: State, id: nat, p: PromptAct)
    requires PromptEnabled(s, id, p)
    ensures Rank(PromptApply(s, id, p)) == Rank(s)
  {
    PromptFrame(s, id, p);
    assert SamePass(s, PromptApply(s, id, p), Sweeper);
  }

  function OwnCount(acts: seq<Action>): nat {
    if acts == [] then 0 else (if Own(acts[0]) then 1 else 0) + OwnCount(acts[1..])
  }

  /** Between two wake-ups the sweeper takes at most eleven actions, however the others interleave. */
  lemma {:induction false} WakesBound(e: Detector, s: State, acts: seq<Action>)
    requires Shape(s) && Possible(e, s, acts)
    ensures OwnCount(acts) + Rank(After(e, s, acts)) <= Rank(s) + 12 * Wakes(acts)
    decreases |acts|
  {
    if acts != [] {
      RankStep(e, s, acts[0]);
      ShapeKept(e, s, acts[0]);
      WakesBound(e, Apply(e, s, acts[0]), acts[1..]);
    }
  }

  const ENOUGH := 83

  /** So six ticks do happen: once output stops, 83 actions of the sweeper thread, interleaved with whatever
      submits do, bring the report up to date by its next sleep. */
  lemma SweeperCatchesUp(e: Detector, history: seq<Action>, quiet: seq<Action>)
    requires Possible(e, Init, history) && Possible(e, After(e, Init, history), quiet)
    requires After(e, Init, history).reader.Waiting? && Quiet(quiet) && OwnCount(quiet) >= ENOUGH
    requires After(e, After(e, Init, history), quiet).sweeper.Sleeping?
    ensures Wakes(quiet) >= 6 && Fresh(After(e, After(e, Init, history), quiet))
  {
    InitSafe(e);
    SafeAlong(e, Init, history);
    WakesBound(e, After(e, Init, history), quiet);
    SixTicksSuffice(e, history, quiet);
  }
}
