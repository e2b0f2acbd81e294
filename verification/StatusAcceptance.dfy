/** Which submits are refused, what the others write, and that every submit comes to an end. */
module StatusAcceptance {
  import opened Prelude
  import opened StatusProtocol
  import opened StatusSafety
  import opened StatusLiveness
  import opened StatusOutcomes

  // ------------------------------------------------------------ refusals

  /** This action is the submit finding the terminal exited, or a check of its finding the cached status blocked. */
  predicate Refuses(s: State, a: Action, id: nat) {
    || (a == ByPrompt(id, Call) && s.exited)
    || ((a == ByPrompt(id, CheckCache) || a == ByPrompt(id, CheckAgain))
        && s.last.Some? && s.last.value.report.status == Blocked)
  }

  /** Some action of the run refuses the submit. */
  predicate SomeRefuses(e: Detector, s: State, acts: seq<Action>, id: nat)
    requires Possible(e, s, acts)
    decreases |acts|
  {
    acts != [] && (Refuses(s, acts[0], id) || SomeRefuses(e, Apply(e, s, acts[0]), acts[1..], id))
  }

  lemma RefusedStepIff(e: Detector, s: State, a: Action, id: nat)
    requires Enabled(s, a)
    ensures IsRefused(Apply(e, s, a), id) <==> IsRefused(s, id) || Refuses(s, a, id)
  {
    match a
    case Time(_) =>
    case ByReader(_) => OthersLeavePrompts(e, s, a, id);
    case BySweeper(_) => OthersLeavePrompts(e, s, a, id);
    case ByPrompt(own, p) => if own != id { OtherPrompt(s, own, p, id); } else { OwnRefusal(s, id, p); }
    case ByPass(t, p) => PassPrompts(e, s, t, p); PassPty(e, s, t, p);
  }

  lemma OwnRefusal(s: State, id: nat, p: PromptAct)
    requires PromptEnabled(s, id, p)
    ensures IsRefused(PromptApply(s, id, p), id) <==> Refuses(s, ByPrompt(id, p), id)
    ensures !IsRefused(s, id)
  {
  }

  lemma {:induction false} RefusedAlong(e: Detector, s: State, acts: seq<Action>, id: nat)
    requires Possible(e, s, acts)
    ensures IsRefused(After(e, s, acts), id) <==> IsRefused(s, id) || SomeRefuses(e, s, acts, id)
    decreases |acts|
  {
    if acts != [] {
      RefusedStepIff(e, s, acts[0], id);
      RefusedAlong(e, Apply(e, s, acts[0]), acts[1..], id);
    }
  }

  /** A submit is refused exactly when the terminal had exited at its call or one of its two checks found the
      cached status blocked; any other status, a missing report or a missing agent lets it through. */
  lemma RefusedIff(e: Detector, history: seq<Action>, id: nat)
    requires Possible(e, Init, history)
    ensures IsRefused(After(e, Init, history), id) <==> SomeRefuses(e, Init, history, id)
  {
    RefusedAlong(e, Init, history, id);
  }

  /** What a submit does next, when nothing refuses it. */
  lemma GoesOn(s: State, id: nat, p: PromptAct)
    requires PromptEnabled(s, id, p) && !Refuses(s, ByPrompt(id, p), id)
    ensures var s' := PromptApply(s, id, p);
      && id in s'.prompts
      && match p
         case Call => s'.prompts[id].Cached?
         case CheckCache => s'.prompts[id].Detecting? && Prompt(id) in s'.passes && s'.passes[Prompt(id)].Entered?
         case CheckAgain => s'.prompts[id].Pasting?
         case WritePaste(how) => if how == Accepted then s'.prompts[id].Gap? else s'.prompts[id].Failed?
         case EndGap => if s.exited then s'.prompts[id].Finished? else s'.prompts[id].Entering?
         case WriteEnter(_) => s'.prompts[id].Finished?
  {
  }

  // ------------------------------------------------------------ what is written

  /** The bytes an action puts on the PTY. */
  function Written(a: Action): seq<Write> {
    match a
    case ByPrompt(id, WritePaste(how)) =>
      (match how case Accepted => [Paste(id)] case Partial => [Fragment(id)] case Nothing => [])
    case ByPrompt(id, WriteEnter(ok)) => if ok then [CarriageReturn(id)] else []
    case _ => []
  }

  function AllWritten(acts: seq<Action>): seq<Write> {
    if acts == [] then [] else Written(acts[0]) + AllWritten(acts[1..])
  }

  lemma WrittenStep(e: Detector, s: State, a: Action)
    requires Enabled(s, a)
    ensures Apply(e, s, a).pty == s.pty + Written(a)
  {
    match a
    case ByPrompt(id, p) =>
    case ByPass(t, p) => PassPty(e, s, t, p);
    case _ => OthersLeavePrompts(e, s, a, 0);
  }

  /** The PTY receives what the writes of a run put there, in the order of those writes, and nothing else. */
  lemma {:induction false} PtyIsWritten(e: Detector, s: State, acts: seq<Action>)
    requires Possible(e, s, acts)
    ensures After(e, s, acts).pty == s.pty + AllWritten(acts)
    decreases |acts|
  {
    if acts != [] {
      WrittenStep(e, s, acts[0]);
      PtyIsWritten(e, Apply(e, s, acts[0]), acts[1..]);
      assert (s.pty + Written(acts[0])) + AllWritten(acts[1..]) == s.pty + AllWritten(acts);
    }
  }

  /** Each write of this submit that the run attempts succeeds. */
  predicate WritesSucceed(acts: seq<Action>, id: nat) {
    forall i :: 0 <= i < |acts| && acts[i].ByPrompt? && acts[i].id == id ==>
      (acts[i].p.WritePaste? ==> acts[i].p.how == Accepted) && (acts[i].p.WriteEnter? ==> acts[i].p.ok)
  }

  /** The submit's gap ends on an exited terminal somewhere in the run. */
  predicate ExitsInGap(e: Detector, s: State, acts: seq<Action>, id: nat)
    requires Possible(e, s, acts)
    decreases |acts|
  {
    acts != [] && ((acts[0] == ByPrompt(id, EndGap) && s.exited) || ExitsInGap(e, Apply(e, s, acts[0]), acts[1..], id))
  }

  ghost predicate Returns(s: State, id: nat, cut: bool) {
    && !(id in s.prompts && s.prompts[id].Failed?)
    && multiset(s.pty)[Paste(id)] == (if Pasted(s, id) then 1 else 0)
    && (cut ==> id in s.prompts && s.prompts[id].Finished?)
    && multiset(s.pty)[CarriageReturn(id)] ==
       (if id in s.prompts && s.prompts[id].Finished? && !cut then 1 else 0)
  }

  lemma ReturnsOwn(s: State, id: nat, p: PromptAct, cut: bool)
    requires Returns(s, id, cut) && PromptEnabled(s, id, p)
    requires (p.WritePaste? ==> p.how == Accepted) && (p.WriteEnter? ==> p.ok)
    ensures Returns(PromptApply(s, id, p), id, cut || (p.EndGap? && s.exited))
  {
    match p
    case WritePaste(_) => OneMore(s.pty, Paste(id), Paste(id)); OneMore(s.pty, Paste(id), CarriageReturn(id));
    case WriteEnter(_) =>
      OneMore(s.pty, CarriageReturn(id), Paste(id));
      OneMore(s.pty, CarriageReturn(id), CarriageReturn(id));
    case _ => PtyKeeps(s, id, p);
  }

  lemma ReturnsOther(s: State, s': State, id: nat, cut: bool)
    requires Returns(s, id, cut)
    requires multiset(s'.pty)[Paste(id)] == multiset(s.pty)[Paste(id)]
    requires multiset(s'.pty)[CarriageReturn(id)] == multiset(s.pty)[CarriageReturn(id)]
    requires id in s'.prompts <==> id in s.prompts
    requires id in s.prompts ==>
      s'.prompts[id] == s.prompts[id] || (s.prompts[id].Detecting? && s'.prompts[id].Rechecking?)
    ensures Returns(s', id, cut)
  {
  }

  lemma OtherWrites(s: State, own: nat, p: PromptAct, id: nat)
    requires PromptEnabled(s, own, p) && own != id
    ensures multiset(PromptApply(s, own, p).pty)[Paste(id)] == multiset(s.pty)[Paste(id)]
    ensures multiset(PromptApply(s, own, p).pty)[CarriageReturn(id)] == multiset(s.pty)[CarriageReturn(id)]
  {
    WrittenStep((_) => Report(None, Unknown), s, ByPrompt(own, p));
    NotMine(s.pty, Written(ByPrompt(own, p)), own, id);
  }

  lemma NotMine(log: seq<Write>, more: seq<Write>, own: nat, id: nat)
    requires own != id && (forall i :: 0 <= i < |more| ==> more[i].id == own)
    ensures multiset(log + more)[Paste(id)] == multiset(log)[Paste(id)]
    ensures multiset(log + more)[CarriageReturn(id)] == multiset(log)[CarriageReturn(id)]
  {
    assert Paste(id) !in more && CarriageReturn(id) !in more;
  }

  lemma PassReturns(e: Detector, s: State, t: Tid, a: PassAct, id: nat)
    requires PassEnabled(s, t, a)
    ensures var s' := PassApply(e, s, t, a);
      && s'.pty == s.pty && (id in s'.prompts <==> id in s.prompts)
      && (id in s.prompts ==>
            s'.prompts[id] == s.prompts[id] || (s.prompts[id].Detecting? && s'.prompts[id].Rechecking?))
  {
  }

  lemma ReturnsStep(e: Detector, s: State, a: Action, id: nat, cut: bool)
    requires Returns(s, id, cut) && Enabled(s, a) && WritesSucceed([a], id)
    ensures Returns(Apply(e, s, a), id, cut || (a == ByPrompt(id, EndGap) && s.exited))
  {
    match a
    case ByPrompt(own, p) =>
      if own == id {
        assert [a][0].id == id;
        ReturnsOwn(s, id, p, cut);
      } else {
        OtherPrompt(s, own, p, id);
        OtherWrites(s, own, p, id);
        ReturnsOther(s, Apply(e, s, a), id, cut);
      }
    case ByPass(t, p) => PassReturns(e, s, t, p, id); ReturnsOther(s, Apply(e, s, a), id, cut);
    case _ => OthersLeavePrompts(e, s, a, id); ReturnsOther(s, Apply(e, s, a), id, cut);
  }

  lemma {:induction false} ReturnsAlong(e: Detector, s: State, acts: seq<Action>, id: nat, cut: bool)
    requires Returns(s, id, cut) && Possible(e, s, acts) && WritesSucceed(acts, id)
    ensures Returns(After(e, s, acts), id, cut || ExitsInGap(e, s, acts, id))
    decreases |acts|
  {
    if acts != [] {
      assert WritesSucceed([acts[0]], id);
      ReturnsStep(e, s, acts[0], id, cut);
      ReturnsAlong(e, Apply(e, s, acts[0]), acts[1..], id, cut || (acts[0] == ByPrompt(id, EndGap) && s.exited));
    }
  }

  /** The submit is over. */
  predicate Ended(s: State, id: nat) {
    id in s.prompts && (s.prompts[id].Finished? || s.prompts[id].Refused? || s.prompts[id].Failed?)
  }

  /** A submit made on a live terminal, none of whose checks finds the cached status blocked and none of whose
      writes fails, ends with one paste on the PTY and one carriage return, the return being left out exactly
      when the terminal had exited by the end of the gap. */
  lemma UnblockedPromptPastes(e: Detector, history: seq<Action>, id: nat)
    requires Possible(e, Init, history) && !SomeRefuses(e, Init, history, id) && WritesSucceed(history, id)
    requires Ended(After(e, Init, history), id)
    ensures var s := After(e, Init, history);
      && s.prompts[id].Finished?
      && multiset(s.pty)[Paste(id)] == 1
      && multiset(s.pty)[CarriageReturn(id)] == if ExitsInGap(e, Init, history, id) then 0 else 1
  {
    RefusedIff(e, history, id);
    ReturnsAlong(e, Init, history, id, false);
  }

  // ------------------------------------------------------------ every submit ends

  /** An action of the thread that carries out this submit. */
  predicate Mine(a: Action, id: nat) { (a.ByPrompt? && a.id == id) || (a.ByPass? && a.t == Prompt(id)) }

  function Mines(acts: seq<Action>, id: nat): nat {
    if acts == [] then 0 else (if Mine(acts[0], id) then 1 else 0) + Mines(acts[1..], id)
  }

  /** How many actions the submit can still take. */
  function Left(s: State, id: nat): nat {
    if id !in s.prompts then 12
    else
      match s.prompts[id]
      case Cached(_) => 11
      case Detecting(_) => 4 + if Prompt(id) in s.passes then PassRank(s.passes[Prompt(id)]) else 0
      case Rechecking(_) => 4
      case Pasting(_) => 3
      case Gap(_) => 2
      case Entering(_) => 1
      case _ => 0
  }

  lemma LeftOwn(s: State, id: nat, p: PromptAct)
    requires PromptEnabled(s, id, p)
    ensures Left(PromptApply(s, id, p), id) < Left(s, id)
  {
  }

  lemma LeftPass(e: Detector, s: State, t: Tid, a: PassAct, id: nat)
    requires PassEnabled(s, t, a)
    ensures if t == Prompt(id) then Left(PassApply(e, s, t, a), id) < Left(s, id)
            else Left(PassApply(e, s, t, a), id) == Left(s, id)
  {
    if t == Prompt(id) {
      LeftOwnPass(e, s, id, a);
    } else {
      PassFrame(e, s, t, a);
      PassPrompts(e, s, t, a);
      assert SamePass(s, PassApply(e, s, t, a), Prompt(id));
    }
  }

  lemma LeftOwnPass(e: Detector, s: State, id: nat, a: PassAct)
    requires PassEnabled(s, Prompt(id), a)
    ensures Left(PassApply(e, s, Prompt(id), a), id) < Left(s, id)
  {
  }

  lemma LeftStep(e: Detector, s: State, a: Action, id: nat)
    requires Enabled(s, a)
    ensures var n := Left(Apply(e, s, a), id); if Mine(a, id) then n < Left(s, id) else n == Left(s, id)
  {
    match a
    case ByPrompt(own, p) =>
      if own == id {
        LeftOwn(s, id, p);
      } else {
        PromptFrame(s, own, p);
        OtherPrompt(s, own, p, id);
        assert SamePass(s, PromptApply(s, own, p), Prompt(id));
      }
    case ByPass(t, p) => LeftPass(e, s, t, p, id);
    case _ => OthersLeavePrompts(e, s, a, id);
  }

  lemma {:induction false} LeftAlong(e: Detector, s: State, acts: seq<Action>, id: nat)
    requires Possible(e, s, acts)
    ensures Mines(acts, id) + Left(After(e, s, acts), id) <= Left(s, id)
    decreases |acts|
  {
    if acts != [] {
      LeftStep(e, s, acts[0], id);
      LeftAlong(e, Apply(e, s, acts[0]), acts[1..], id);
    }
  }

  /** A submit takes at most twelve actions, however the others interleave, and until it has ended its next one
      is always possible: it waits for nobody. */
  lemma SubmitEnds(e: Detector, history: seq<Action>, id: nat) returns (a: Action)
    requires Possible(e, Init, history)
    ensures Mines(history, id) <= 12
    ensures !Ended(After(e, Init, history), id) ==> Mine(a, id) && Enabled(After(e, Init, history), a)
  {
    LeftAlong(e, Init, history, id);
    ReachedPty(e, history);
    var s := After(e, Init, history);
    a := ByPrompt(id, Call);
    if id in s.prompts {
      match s.prompts[id]
      case Cached(_) => a := ByPrompt(id, CheckCache);
      case Detecting(_) => a := ByPass(Prompt(id), NextOf(s.passes[Prompt(id)]));
      case Rechecking(_) => a := ByPrompt(id, CheckAgain);
      case Pasting(_) => a := ByPrompt(id, WritePaste(Accepted));
      case Gap(_) => a := ByPrompt(id, EndGap);
      case Entering(_) => a := ByPrompt(id, WriteEnter(true));
      case _ =>
    }
  }

  function NextOf(p: Pass): PassAct {
    match p
    case Entered => Reserve
    case Reserved(_) => ReadTail
    case TailRead(_, _) => ReadOsc
    case OscRead(_, _) => Probe(0)
    case Sampled(_, _) => TryCommit
    case Publishing(_) => Publish
  }

  /** So does the reader: it is never stuck either, and while waiting it can take output. */
  lemma ReaderMoves(e: Detector, history: seq<Action>) returns (a: Action)
    requires Possible(e, Init, history)
    ensures var s := After(e, Init, history);
      s.reader != Gone ==>
        && Enabled(s, a) && (a.ByReader? || (a.ByPass? && a.t == Reader))
        && (s.reader == Waiting ==> a == ByReader(Append))
  {
    ReachedPty(e, history);
    var s := After(e, Init, history);
    match s.reader
    case Waiting => a := ByReader(Append);
    case Appended => a := ByReader(Observe);
    case Observed => a := ByReader(Gate);
    case Throttled => a := ByReader(MarkPending);
    case Clearing => a := ByReader(ClearPending);
    case ReaderPass => a := ByPass(Reader, NextOf(s.passes[Reader]));
    case ExitFlagged => a := ByReader(ResetTracker);
    case TrackerReset => a := ByReader(ClearState);
    case StateCleared => a := ByReader(Leave);
    case Gone => a := Time(0);
  }

  // ------------------------------------------------------------ the throttle and the exit path

  /** The reader detects exactly when no check was made yet or the last one is at least half a second old, and
      stamps the moment; otherwise it leaves the stamp and asks the sweeper. */
  lemma ReaderGateIff(s: State)
    requires ReaderEnabled(s, Gate)
    ensures var s' := ReaderApply(s, Gate);
      && (s'.reader.Clearing? <==> s.lastCheck == None || s.now >= s.lastCheck.value + 500)
      && s'.lastCheck == (if s'.reader.Clearing? then Some(s.now) else s.lastCheck)
      && (!s'.reader.Clearing? ==> ReaderEnabled(s', MarkPending) && ReaderApply(s', MarkPending).pending)
      && (s'.reader.Clearing? ==> ReaderEnabled(s', ClearPending) && !ReaderApply(s', ClearPending).pending)
  {
  }

  /** So does the sweeper, by the time it took before locking the stamp. */
  lemma SweepGateIff(s: State)
    requires SweeperEnabled(s, SweepGate)
    ensures var s' := SweeperApply(s, SweepGate); var at := s.sweeper.at;
      && (s'.sweeper.SweeperPass? <==> s.lastCheck == None || at >= s.lastCheck.value + 500)
      && s'.lastCheck == (if s'.sweeper.SweeperPass? then Some(at) else s.lastCheck)
      && (!s'.sweeper.SweeperPass? ==> SweeperEnabled(s', Remark) && SweeperApply(s', Remark).pending)
  {
  }

  /** The sweeper's way to a check: it stops at an exited terminal, goes back to sleep without a request, takes up a
      request by withdrawing it, and drops it if the terminal has exited since. */
  lemma SweeperChecksIff(s: State)
    ensures SweeperEnabled(s, LoadExited) ==>
      SweeperApply(s, LoadExited) == s.(sweeper := if s.exited then Stopped else Swapping)
    ensures SweeperEnabled(s, SwapPending) ==>
      var s' := SweeperApply(s, SwapPending);
      !s'.pending && (s'.sweeper == Forced <==> s.pending) && (s'.sweeper == Sleeping(s.now) <==> !s.pending)
    ensures SweeperEnabled(s, Recheck) ==>
      SweeperApply(s, Recheck) == s.(sweeper := if s.exited then Sleeping(s.now) else TakingNow)
  {
  }

  /** The sweeper is past its last look at the exit flag, on its way to a detection. */
  predicate PastLook(w: SweeperPc) { w.TakingNow? || w.Gating? || w.SweeperPass? }

  lemma StillNotPast(e: Detector, s: State, a: Action)
    requires s.exited && !PastLook(s.sweeper) && Enabled(s, a)
    ensures Apply(e, s, a).exited && !PastLook(Apply(e, s, a).sweeper)
  {
    match a
    case Time(_) =>
    case ByReader(r) =>
    case BySweeper(w) =>
    case ByPrompt(id, p) => PromptFrame(s, id, p);
    case ByPass(t, p) => MarksSame(e, s, t, p); PassSweeper(e, s, t, p);
  }

  /** On an exited terminal a sweeper that is not already past that look never detects again. */
  lemma {:induction false} NoSweepAfterExit(e: Detector, s: State, acts: seq<Action>)
    requires s.exited && !PastLook(s.sweeper) && Possible(e, s, acts)
    ensures After(e, s, acts).exited && !PastLook(After(e, s, acts).sweeper)
    ensures BySweeper(TakeNow) !in acts && BySweeper(SweepGate) !in acts
    decreases |acts|
  {
    if acts != [] {
      StillNotPast(e, s, acts[0]);
      NoSweepAfterExit(e, Apply(e, s, acts[0]), acts[1..]);
      assert acts == [acts[0]] + acts[1..];
    }
  }

  /** The exit path, step by step: the flag, a tracker version of its own, an empty cache, the end. */
  lemma ExitPathIs(s: State)
    requires ReaderEnabled(s, FlagExit)
    ensures var s1 := ReaderApply(s, FlagExit);
      && s1.exited && ReaderEnabled(s1, ResetTracker)
      && var s2 := ReaderApply(s1, ResetTracker);
      && s2.mark == Mark(s.mark.tail, s.mark.osc + 1) && ReaderEnabled(s2, ClearState)
      && var s3 := ReaderApply(s2, ClearState);
      && s3.last == None && ReaderEnabled(s3, Leave)
      && ReaderApply(s3, Leave) == s.(ticks := 0, exited := true, mark := s2.mark, last := None, reader := Gone)
  {
  }

  /** A pass reads what is there when it reads: the scrollback first, then the tracker, which may be newer. */
  lemma ReadsNewest(e: Detector, s: State, t: Tid, sample: nat)
    ensures PassEnabled(s, t, ReadTail) ==>
      PassApply(e, s, t, ReadTail).passes[t] == TailRead(s.passes[t].q, s.mark.tail)
    ensures PassEnabled(s, t, ReadOsc) ==>
      PassApply(e, s, t, ReadOsc).passes[t] == OscRead(s.passes[t].q, Mark(s.passes[t].tail, s.mark.osc))
    ensures PassEnabled(s, t, Probe(sample)) ==>
      PassApply(e, s, t, Probe(sample)).passes[t] == Sampled(s.passes[t].q, Reading(s.passes[t].at, sample))
  {
  }

  lemma PassCaches(e: Detector, s: State, t: Tid, a: PassAct)
    requires PassEnabled(s, t, a)
    ensures var s' := PassApply(e, s, t, a);
      if a == TryCommit && (s.last == None || s.last.value.seqno < s.passes[t].q)
      then s'.last.Some? && s'.last.value.seqno == s.passes[t].q
        && s'.last.value.report == e(s.passes[t].reading)
      else s'.last == s.last
  {
  }

  /** What the cache holds: the exit path empties it, a commit in order replaces it by the detector's answer for
      what the pass read, and nothing else touches it. */
  lemma CacheStep(e: Detector, s: State, a: Action)
    requires Enabled(s, a)
    ensures var s' := Apply(e, s, a);
      if a == ByReader(ClearState) then s'.last == None
      else if a.ByPass? && a.a == TryCommit && (s.last == None || s.last.value.seqno < s.passes[a.t].q)
      then s'.last.Some? && s'.last.value.seqno == s.passes[a.t].q
        && s'.last.value.report == e(s.passes[a.t].reading)
      else s'.last == s.last
  {
    match a
    case Time(_) =>
    case ByReader(r) =>
    case BySweeper(w) =>
    case ByPrompt(id, p) =>
    case ByPass(t, p) => PassCaches(e, s, t, p);
  }
}
