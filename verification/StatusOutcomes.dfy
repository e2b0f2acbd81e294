/** Stale passes, composer refusals, PTY writes and issued events. */
module StatusOutcomes {
  import opened Prelude
  import opened StatusProtocol
  import opened StatusSafety
  import opened StatusLiveness

  // ------------------------------------------------------------ stale passes

  lemma ReservedInOrder(s: State, p: nat, q: nat)
    requires Marks(s) && 1 <= p <= |s.reserved| && 1 <= q <= |s.reserved|
    ensures p <= q ==> AtMost(s.reserved[p - 1], s.reserved[q - 1])
  {
  }

  /** A pass whose tail predates the committed sequence's reservation is refused at its commit. */
  lemma StalePassDropped(e: Detector, s: State, t: Tid)
    requires Base(e, s) && PassEnabled(s, t, TryCommit) && s.last.Some?
    requires 1 <= s.last.value.seqno <= |s.reserved|
    requires s.passes[t].reading.at.tail < s.reserved[s.last.value.seqno - 1].tail
    ensures PassApply(e, s, t, TryCommit).last == s.last
    ensures PassApply(e, s, t, TryCommit).commits == s.commits
  {
    var p := s.passes[t];
    assert PassOk(s, p);
    ReservedInOrder(s, s.last.value.seqno, p.q);
  }

  /** Until the exit path clears the cache, the committed history is strictly increasing and never
      steps back behind an earlier commit's reservation. */
  lemma StaleNeverWins(e: Detector, history: seq<Action>, i: nat, j: nat)
    requires Possible(e, Init, history) && !Cleared(After(e, Init, history))
    requires i < j < |After(e, Init, history).commits|
    ensures var s := After(e, Init, history);
      && 1 <= s.commits[i].seqno < s.commits[j].seqno <= |s.reserved|
      && AtMost(s.reserved[s.commits[j].seqno - 1], s.commits[j].reading.at)
      && AtMost(s.reserved[s.commits[i].seqno - 1], s.commits[j].reading.at)
  {
    InitSafe(e);
    SafeAlong(e, Init, history);
    var s := After(e, Init, history);
    assert CommitOk(e, s, s.commits[i]) && CommitOk(e, s, s.commits[j]);
  }

  // ------------------------------------------------------------ composer refusal

  predicate HasVerdict(p: PromptPc) { p.Pasting? || p.Gap? || p.Entering? || p.Finished? }

  /** The cached report was reserved at or after version m. */
  predicate Since(s: State, m: Mark) {
    && s.last.Some? && 1 <= s.last.value.seqno <= |s.reserved|
    && AtMost(m, s.reserved[s.last.value.seqno - 1])
  }

  predicate VerdictOk(e: Detector, v: Verdict) {
    && AtMost(v.from, v.upto)
    && (v.live ==>
          && v.seen.Some?
          && AtMost(v.from, v.seen.value.reading.at) && AtMost(v.seen.value.reading.at, v.upto)
          && v.seen.value.report == e(v.seen.value.reading)
          && !v.seen.value.report.status.Blocked?)
  }

  predicate PromptOk(e: Detector, s: State, id: nat)
    requires id in s.prompts
  {
    match s.prompts[id]
    case Cached(from) => AtMost(from, s.mark)
    case Detecting(from) =>
      && AtMost(from, s.mark)
      && Prompt(id) in s.passes
      && (var p := s.passes[Prompt(id)];
          && (HasSeq(p) ==> 1 <= p.q <= |s.reserved| && AtMost(from, s.reserved[p.q - 1]))
          && (p.Publishing? && !Cleared(s) ==> Since(s, from)))
    case Rechecking(from) => AtMost(from, s.mark) && (!Cleared(s) ==> Since(s, from))
    case Pasting(v) => VerdictOk(e, v)
    case Gap(v) => VerdictOk(e, v)
    case Entering(v) => VerdictOk(e, v)
    case Finished(v) => VerdictOk(e, v)
    case _ => true
  }

  ghost predicate PromptsOk(e: Detector, s: State) {
    forall id :: id in s.prompts ==> PromptOk(e, s, id)
  }

  lemma SinceStays(e: Detector, s: State, a: Action, m: Mark)
    requires Base(e, s) && Enabled(s, a) && Since(s, m) && !Cleared(Apply(e, s, a))
    ensures Since(Apply(e, s, a), m)
  {
    ClearedStays(e, s, a);
    CommitsGrow(e, s, a);
    MarksKept(e, s, a);
    if a.ByPass? && a.a.TryCommit? { assert PassOk(s, s.passes[a.t]); }
  }

  /** A prompt that this action does not move keeps its facts. */
  lemma PromptUntouched(e: Detector, s: State, a: Action, id: nat)
    requires Base(e, s) && Enabled(s, a) && id in s.prompts && PromptOk(e, s, id)
    requires id in Apply(e, s, a).prompts && Apply(e, s, a).prompts[id] == s.prompts[id]
    requires SamePass(s, Apply(e, s, a), Prompt(id))
    ensures PromptOk(e, Apply(e, s, a), id)
  {
    var s' := Apply(e, s, a);
    MarksKept(e, s, a);
    ClearedStays(e, s, a);
    match s.prompts[id]
    case Detecting(from) => if Since(s, from) && !Cleared(s') { SinceStays(e, s, a, from); }
    case Rechecking(from) => if Since(s, from) && !Cleared(s') { SinceStays(e, s, a, from); }
    case _ =>
  }

  lemma PromptOwnStep(e: Detector, s: State, id: nat, p: PromptAct)
    requires Shape(s) && CommitsOk(e, s) && PromptEnabled(s, id, p)
    requires id in s.prompts ==> PromptOk(e, s, id)
    ensures PromptOk(e, PromptApply(s, id, p), id)
  {
    if p.CheckAgain? { PromptChecksAgain(e, s, id); }
  }

  lemma PromptChecksAgain(e: Detector, s: State, id: nat)
    requires CommitsOk(e, s) && PromptEnabled(s, id, CheckAgain) && PromptOk(e, s, id)
    ensures PromptOk(e, PromptApply(s, id, CheckAgain), id)
  {
    if s.last.Some? { assert CommitOk(e, s, s.commits[|s.commits| - 1]); }
  }

  /** A commit attempt reserved at or after m leaves a cache reserved at or after m. */
  lemma CommitSince(e: Detector, s: State, t: Tid, m: Mark)
    requires Marks(s) && CommitsOk(e, s) && PassEnabled(s, t, TryCommit)
    requires 1 <= s.passes[t].q <= |s.reserved| && AtMost(m, s.reserved[s.passes[t].q - 1])
    ensures Since(PassApply(e, s, t, TryCommit), m)
  {
    var q := s.passes[t].q;
    if !Accepts(s.last, q) {
      assert CommitOk(e, s, s.commits[|s.commits| - 1]);
      assert AtMost(s.reserved[q - 1], s.reserved[s.last.value.seqno - 1]);
    }
  }

  lemma PromptOwnCommit(e: Detector, s: State, id: nat)
    requires Base(e, s) && PassEnabled(s, Prompt(id), TryCommit) && PromptOk(e, s, id)
    ensures id in PassApply(e, s, Prompt(id), TryCommit).prompts
    ensures PromptOk(e, PassApply(e, s, Prompt(id), TryCommit), id)
  {
    CommitSince(e, s, Prompt(id), s.prompts[id].from);
    CommitLeaves(e, s, id);
    AfterOwnCommit(e, PassApply(e, s, Prompt(id), TryCommit), id, s.prompts[id].from);
  }

  /** Where a submit is after its own commit attempt: publishing, or back at its second check. */
  predicate CommitDone(s: State, id: nat, from: Mark) {
    && id in s.prompts && AtMost(from, s.mark)
    && (if Prompt(id) in s.passes then s.prompts[id] == Detecting(from) && s.passes[Prompt(id)].Publishing?
        else s.prompts[id] == Rechecking(from))
  }

  lemma CommitLeaves(e: Detector, s: State, id: nat)
    requires PassEnabled(s, Prompt(id), TryCommit) && AtMost(s.prompts[id].from, s.mark)
    ensures CommitDone(PassApply(e, s, Prompt(id), TryCommit), id, s.prompts[id].from)
  {
  }

  lemma AfterOwnCommit(e: Detector, s: State, id: nat, from: Mark)
    requires CommitDone(s, id, from) && Since(s, from)
    ensures PromptOk(e, s, id)
  {
  }

  lemma PromptOwnPass(e: Detector, s: State, id: nat, a: PassAct)
    requires Base(e, s) && PassEnabled(s, Prompt(id), a) && PromptOk(e, s, id) && !a.TryCommit?
    ensures id in PassApply(e, s, Prompt(id), a).prompts
    ensures PromptOk(e, PassApply(e, s, Prompt(id), a), id)
  {
  }

  lemma PassPrompts(e: Detector, s: State, t: Tid, a: PassAct)
    requires PassEnabled(s, t, a)
    ensures forall id :: id in PassApply(e, s, t, a).prompts <==> id in s.prompts
    ensures forall id :: id in s.prompts && t != Prompt(id) ==> PassApply(e, s, t, a).prompts[id] == s.prompts[id]
  {
  }

  lemma PromptsKept(e: Detector, s: State, a: Action)
    requires Base(e, s) && PromptsOk(e, s) && Enabled(s, a)
    ensures PromptsOk(e, Apply(e, s, a))
  {
    var s' := Apply(e, s, a);
    forall id | id in s'.prompts ensures PromptOk(e, s', id) { PromptKept(e, s, a, id); }
  }

  lemma PromptKept(e: Detector, s: State, a: Action, id: nat)
    requires Base(e, s) && PromptsOk(e, s) && Enabled(s, a) && id in Apply(e, s, a).prompts
    ensures PromptOk(e, Apply(e, s, a), id)
  {
    if a.ByPrompt? { PromptKeptByPrompt(e, s, a.id, a.p, id); }
    else if a.ByPass? { PromptKeptByPass(e, s, a.t, a.a, id); }
    else {
      OthersLeavePrompts(e, s, a, id);
      PromptKeptByOther(e, s, a, id);
    }
  }

  lemma PromptKeptByOther(e: Detector, s: State, a: Action, id: nat)
    requires Base(e, s) && PromptsOk(e, s) && Enabled(s, a) && !a.ByPrompt? && !a.ByPass? && id in s.prompts
    ensures Apply(e, s, a).prompts == s.prompts && PromptOk(e, Apply(e, s, a), id)
  {
    OthersLeavePrompts(e, s, a, id);
    PromptUntouched(e, s, a, id);
  }

  lemma OthersLeavePrompts(e: Detector, s: State, a: Action, id: nat)
    requires Enabled(s, a) && !a.ByPrompt? && !a.ByPass?
    ensures Apply(e, s, a).prompts == s.prompts && Apply(e, s, a).pty == s.pty
    ensures SamePass(s, Apply(e, s, a), Prompt(id))
  {
    match a
    case Time(_) =>
    case ByReader(r) => ReaderLeavesPrompts(s, r, id);
    case BySweeper(w) => SweeperLeavesPrompts(s, w, id);
  }

  lemma ReaderLeavesPrompts(s: State, r: ReaderAct, id: nat)
    requires ReaderEnabled(s, r)
    ensures var s' := ReaderApply(s, r);
      s'.prompts == s.prompts && s'.pty == s.pty && SamePass(s, s', Prompt(id))
  {
  }

  lemma SweeperLeavesPrompts(s: State, w: SweeperAct, id: nat)
    requires SweeperEnabled(s, w)
    ensures var s' := SweeperApply(s, w);
      s'.prompts == s.prompts && s'.pty == s.pty && SamePass(s, s', Prompt(id))
  {
  }

  lemma PromptKeptByPrompt(e: Detector, s: State, own: nat, p: PromptAct, id: nat)
    requires Base(e, s) && PromptsOk(e, s) && PromptEnabled(s, own, p) && id in PromptApply(s, own, p).prompts
    ensures PromptOk(e, PromptApply(s, own, p), id)
  {
    if own == id { PromptOwnStep(e, s, id, p); }
    else {
      PromptFrame(s, own, p);
      OtherPrompt(s, own, p, id);
      PromptUntouched(e, s, ByPrompt(own, p), id);
    }
  }

  lemma OtherPrompt(s: State, own: nat, p: PromptAct, id: nat)
    requires PromptEnabled(s, own, p) && own != id
    ensures id in PromptApply(s, own, p).prompts <==> id in s.prompts
    ensures id in s.prompts ==> PromptApply(s, own, p).prompts[id] == s.prompts[id]
  {
  }

  lemma PromptKeptByPass(e: Detector, s: State, t: Tid, p: PassAct, id: nat)
    requires Base(e, s) && PromptsOk(e, s) && PassEnabled(s, t, p) && id in PassApply(e, s, t, p).prompts
    ensures PromptOk(e, PassApply(e, s, t, p), id)
  {
    PassFrame(e, s, t, p);
    PassPrompts(e, s, t, p);
    if t != Prompt(id) { PromptUntouched(e, s, ByPass(t, p), id); }
    else if p.TryCommit? { PromptOwnCommit(e, s, id); }
    else { PromptOwnPass(e, s, id, p); }
  }

  lemma InitPrompts(e: Detector)
    ensures PromptsOk(e, Init) && PtyOk(Init) && EventsOk(Init)
  {
  }

  lemma {:induction false} PromptsAlong(e: Detector, s: State, acts: seq<Action>)
    requires Safe(e, s) && PromptsOk(e, s) && Possible(e, s, acts)
    ensures PromptsOk(e, After(e, s, acts))
    decreases |acts|
  {
    if acts != [] {
      SafeKept(e, s, acts[0]);
      PromptsKept(e, s, acts[0]);
      PromptsAlong(e, Apply(e, s, acts[0]), acts[1..]);
    }
  }

  /** Every version between two marks reads as blocked, whatever the process table says. */
  ghost predicate BlockedThroughout(e: Detector, from: Mark, upto: Mark) {
    forall r: Reading :: AtMost(from, r.at) && AtMost(r.at, upto) ==> e(r).status.Blocked?
  }

  /** No submit accepted on a live terminal has a window that was blocked throughout. */
  lemma AcceptedMeansUnblocked(e: Detector, history: seq<Action>, id: nat)
    requires Possible(e, Init, history) && id in After(e, Init, history).prompts
    requires HasVerdict(After(e, Init, history).prompts[id]) && After(e, Init, history).prompts[id].v.live
    ensures var v := After(e, Init, history).prompts[id].v; !BlockedThroughout(e, v.from, v.upto)
  {
    InitSafe(e);
    InitPrompts(e);
    PromptsAlong(e, Init, history);
    var s := After(e, Init, history);
    assert PromptOk(e, s, id);
    assert AtMost(s.prompts[id].v.from, s.prompts[id].v.seen.value.reading.at);
  }

  /** The second check: blocked from call to check means refused. */
  lemma BlockedCheckRefuses(e: Detector, history: seq<Action>, id: nat)
    requires Possible(e, Init, history) && Enabled(After(e, Init, history), ByPrompt(id, CheckAgain))
    requires !Cleared(After(e, Init, history))
    requires BlockedThroughout(e, After(e, Init, history).prompts[id].from, After(e, Init, history).mark)
    ensures PromptApply(After(e, Init, history), id, CheckAgain).prompts[id] == Refused
  {
    InitSafe(e);
    InitPrompts(e);
    SafeAlong(e, Init, history);
    PromptsAlong(e, Init, history);
    var s := After(e, Init, history);
    assert PromptOk(e, s, id);
    assert CommitOk(e, s, s.commits[|s.commits| - 1]);
  }

  // ------------------------------------------------------------ what reaches the PTY

  predicate Pasted(s: State, id: nat) {
    id in s.prompts && (s.prompts[id].Gap? || s.prompts[id].Entering? || s.prompts[id].Finished?)
  }

  ghost predicate PtyOf(s: State, id: nat) {
    && multiset(s.pty)[Paste(id)] == (if Pasted(s, id) then 1 else 0)
    && multiset(s.pty)[CarriageReturn(id)] <= (if Pasted(s, id) && s.prompts[id].Finished? then 1 else 0)
    && multiset(s.pty)[Fragment(id)] <= (if id in s.prompts && s.prompts[id].Failed? then 1 else 0)
  }

  /** Each submit writes at most one paste, and a carriage return only behind its paste. */
  ghost predicate PtyOk(s: State) {
    && (forall id :: PtyOf(s, id))
    && (forall i :: 0 <= i < |s.pty| && s.pty[i].CarriageReturn? ==> Paste(s.pty[i].id) in s.pty[..i])
  }

  lemma PtyCounts(s: State, id: nat, p: PromptAct, u: nat)
    requires PromptEnabled(s, id, p) && PtyOf(s, u)
    ensures PtyOf(PromptApply(s, id, p), u)
  {
    match p
    case WritePaste(how) => PtyPaste(s, id, how, u);
    case WriteEnter(ok) => PtyEnter(s, id, ok, u);
    case _ => PtyKeeps(s, id, p);
  }

  lemma PtyPaste(s: State, id: nat, how: Landing, u: nat)
    requires PromptEnabled(s, id, WritePaste(how)) && PtyOf(s, u)
    ensures PtyOf(PromptApply(s, id, WritePaste(how)), u)
  {
    var w := if how.Accepted? then Paste(id) else Fragment(id);
    OneMore(s.pty, w, Paste(u));
    OneMore(s.pty, w, Fragment(u));
    OneMore(s.pty, w, CarriageReturn(u));
  }

  lemma OneMore(log: seq<Write>, w: Write, x: Write)
    ensures multiset(log + [w])[x] == multiset(log)[x] + if x == w then 1 else 0
  {
    assert multiset(log + [w]) == multiset(log) + multiset{w};
  }

  lemma PtyEnter(s: State, id: nat, ok: bool, u: nat)
    requires PromptEnabled(s, id, WriteEnter(ok)) && PtyOf(s, u)
    ensures PtyOf(PromptApply(s, id, WriteEnter(ok)), u)
  {
    OneMore(s.pty, CarriageReturn(id), Paste(u));
    OneMore(s.pty, CarriageReturn(id), Fragment(u));
    OneMore(s.pty, CarriageReturn(id), CarriageReturn(u));
  }

  lemma PtyKeeps(s: State, id: nat, p: PromptAct)
    requires PromptEnabled(s, id, p) && !p.WritePaste? && !p.WriteEnter?
    ensures var s' := PromptApply(s, id, p);
      && s'.pty == s.pty && id in s'.prompts
      && (forall u :: u != id ==> (u in s'.prompts <==> u in s.prompts))
      && (forall u :: u != id && u in s.prompts ==> s'.prompts[u] == s.prompts[u])
      && (Pasted(s', id) <==> Pasted(s, id))
      && (id in s.prompts ==> !s.prompts[id].Failed?)
      && (Pasted(s, id) && s.prompts[id].Finished? ==> s'.prompts[id].Finished?)
  {
  }

  lemma PtyPrompt(s: State, id: nat, p: PromptAct)
    requires PtyOk(s) && PromptEnabled(s, id, p)
    ensures PtyOk(PromptApply(s, id, p))
  {
    var s' := PromptApply(s, id, p);
    forall u ensures PtyOf(s', u) { PtyCounts(s, id, p, u); }
    PtyAppends(s, id, p);
    if s'.pty != s.pty { BehindPaste(s.pty, s'.pty[|s.pty|]); }
  }

  lemma PtyAppends(s: State, id: nat, p: PromptAct)
    requires PtyOk(s) && PromptEnabled(s, id, p)
    ensures var s' := PromptApply(s, id, p);
      || s'.pty == s.pty
      || s'.pty == s.pty + [Paste(id)]
      || s'.pty == s.pty + [Fragment(id)]
      || (s'.pty == s.pty + [CarriageReturn(id)] && Paste(id) in s.pty)
  {
    assert PtyOf(s, id);
  }

  lemma BehindPaste(log: seq<Write>, w: Write)
    requires forall i :: 0 <= i < |log| && log[i].CarriageReturn? ==> Paste(log[i].id) in log[..i]
    requires w.CarriageReturn? ==> Paste(w.id) in log
    ensures var l := log + [w];
      forall i :: 0 <= i < |l| && l[i].CarriageReturn? ==> Paste(l[i].id) in l[..i]
  {
    var l := log + [w];
    forall i | 0 <= i < |l| && l[i].CarriageReturn? ensures Paste(l[i].id) in l[..i] {
      if i < |log| { assert l[..i] == log[..i]; } else { assert l[..i] == log; }
    }
  }

  lemma PtyElsewhere(s: State, s': State)
    requires PtyOk(s) && s'.pty == s.pty
    requires forall id :: id in s'.prompts <==> id in s.prompts
    requires forall id :: id in s.prompts && Pasted(s, id) ==> s'.prompts[id] == s.prompts[id]
    requires forall id :: id in s.prompts && Pasted(s', id) ==> Pasted(s, id)
    requires forall id :: id in s.prompts && s.prompts[id].Failed? ==> s'.prompts[id].Failed?
    ensures PtyOk(s')
  {
    forall u ensures PtyOf(s', u) { assert PtyOf(s, u); }
  }

  lemma PassPty(e: Detector, s: State, t: Tid, a: PassAct)
    requires PassEnabled(s, t, a)
    ensures var s' := PassApply(e, s, t, a);
      && s'.pty == s.pty
      && (t.Prompt? ==> t.id in s'.prompts && (s'.prompts[t.id].Detecting? || s'.prompts[t.id].Rechecking?))
  {
  }

  lemma PtyKept(e: Detector, s: State, a: Action)
    requires PtyOk(s) && Enabled(s, a)
    ensures PtyOk(Apply(e, s, a))
  {
    match a
    case ByPrompt(id, p) => PtyPrompt(s, id, p);
    case ByPass(t, p) => PtyByPass(e, s, t, p);
    case _ => PtyByOther(e, s, a);
  }

  lemma PtyByOther(e: Detector, s: State, a: Action)
    requires PtyOk(s) && Enabled(s, a) && !a.ByPrompt? && !a.ByPass?
    ensures PtyOk(Apply(e, s, a))
  {
    OthersLeavePrompts(e, s, a, 0);
    PtyElsewhere(s, Apply(e, s, a));
  }

  lemma PtyByPass(e: Detector, s: State, t: Tid, p: PassAct)
    requires PtyOk(s) && PassEnabled(s, t, p)
    ensures PtyOk(PassApply(e, s, t, p))
  {
    PassPty(e, s, t, p);
    PassPrompts(e, s, t, p);
    PtyElsewhere(s, PassApply(e, s, t, p));
  }

  lemma {:induction false} PtyAlong(e: Detector, s: State, acts: seq<Action>)
    requires PtyOk(s) && Possible(e, s, acts)
    ensures PtyOk(After(e, s, acts))
    decreases |acts|
  {
    if acts != [] {
      PtyKept(e, s, acts[0]);
      PtyAlong(e, Apply(e, s, acts[0]), acts[1..]);
    }
  }

  /** Over any run a submit writes at most one paste and, behind it, at most one carriage return.  A failed
      one leaves at most one fragment and no return, a refused one nothing. */
  lemma AtMostOnePaste(e: Detector, history: seq<Action>, id: nat)
    requires Possible(e, Init, history)
    ensures var s := After(e, Init, history);
      && multiset(s.pty)[Paste(id)] == (if Pasted(s, id) then 1 else 0)
      && multiset(s.pty)[CarriageReturn(id)] <= multiset(s.pty)[Paste(id)]
      && multiset(s.pty)[Fragment(id)] <= (if id in s.prompts && s.prompts[id].Failed? then 1 else 0)
      && (forall i :: 0 <= i < |s.pty| && s.pty[i] == CarriageReturn(id) ==> Paste(id) in s.pty[..i])
  {
    InitPrompts(e);
    PtyAlong(e, Init, history);
    assert PtyOf(After(e, Init, history), id);
  }

  // ------------------------------------------------------------ a refused submit

  predicate IsRefused(s: State, id: nat) { id in s.prompts && s.prompts[id].Refused? }

  lemma RefusedStep(e: Detector, s: State, a: Action, id: nat)
    requires Shape(s) && Enabled(s, a) && IsRefused(s, id)
    ensures IsRefused(Apply(e, s, a), id)
  {
    match a
    case ByPrompt(own, p) => if own != id { OtherPrompt(s, own, p, id); }
    case ByPass(t, p) => PassPrompts(e, s, t, p);
    case _ =>
  }

  lemma {:induction false} RefusedStays(e: Detector, s: State, acts: seq<Action>, id: nat)
    requires Shape(s) && Possible(e, s, acts) && IsRefused(s, id)
    ensures IsRefused(After(e, s, acts), id)
    decreases |acts|
  {
    if acts != [] {
      ShapeKept(e, s, acts[0]);
      RefusedStep(e, s, acts[0], id);
      RefusedStays(e, Apply(e, s, acts[0]), acts[1..], id);
    }
  }

  /** If every output version from the call to the second check reads as blocked, that check refuses the
      submit, and whatever happens afterwards it never has anything on the PTY. */
  lemma BlockedPromptRefused(e: Detector, history: seq<Action>, id: nat, more: seq<Action>)
    requires Possible(e, Init, history) && Enabled(After(e, Init, history), ByPrompt(id, CheckAgain))
    requires !Cleared(After(e, Init, history))
    requires BlockedThroughout(e, After(e, Init, history).prompts[id].from, After(e, Init, history).mark)
    requires Possible(e, Apply(e, After(e, Init, history), ByPrompt(id, CheckAgain)), more)
    ensures var s := After(e, Apply(e, After(e, Init, history), ByPrompt(id, CheckAgain)), more);
      IsRefused(s, id) && Paste(id) !in s.pty && Fragment(id) !in s.pty && CarriageReturn(id) !in s.pty
  {
    BlockedCheckRefuses(e, history, id);
    ReachedPty(e, history);
    CheckedSilent(e, After(e, Init, history), more, id);
  }

  lemma ReachedPty(e: Detector, history: seq<Action>)
    requires Possible(e, Init, history)
    ensures Shape(After(e, Init, history)) && PtyOk(After(e, Init, history))
  {
    InitSafe(e);
    InitPrompts(e);
    SafeAlong(e, Init, history);
    PtyAlong(e, Init, history);
  }

  lemma CheckedSilent(e: Detector, s: State, acts: seq<Action>, id: nat)
    requires Shape(s) && PtyOk(s) && PromptEnabled(s, id, CheckAgain)
    requires PromptApply(s, id, CheckAgain).prompts[id].Refused? && Possible(e, PromptApply(s, id, CheckAgain), acts)
    ensures var s' := After(e, PromptApply(s, id, CheckAgain), acts);
      IsRefused(s', id) && Paste(id) !in s'.pty && Fragment(id) !in s'.pty && CarriageReturn(id) !in s'.pty
  {
    ShapePrompt(s, id, CheckAgain);
    PtyPrompt(s, id, CheckAgain);
    RefusedSilent(e, PromptApply(s, id, CheckAgain), acts, id);
  }

  lemma RefusedSilent(e: Detector, s: State, acts: seq<Action>, id: nat)
    requires Shape(s) && PtyOk(s) && IsRefused(s, id) && Possible(e, s, acts)
    ensures var s' := After(e, s, acts);
      IsRefused(s', id) && Paste(id) !in s'.pty && Fragment(id) !in s'.pty && CarriageReturn(id) !in s'.pty
  {
    RefusedStays(e, s, acts, id);
    PtyAlong(e, s, acts);
    assert PtyOf(After(e, s, acts), id);
  }

  // ------------------------------------------------------------ issued events

  predicate Due(s: State, k: nat)
    requires k < |s.commits|
  {
    var before := s.commits[k].before;
    var now := s.commits[k].report;
    && (before == None || before.value != now)
    && (now.agent != None || (before != None && before.value.agent != None))
  }

  ghost predicate HeldBy(s: State, k: nat, t: Tid) { t in s.passes && s.passes[t] == Publishing(k) }

  /** Events are issued once each, for exactly the commits that are due one. */
  ghost predicate EventsOk(s: State) {
    && NoDup(s.issued)
    && (forall k :: k in s.issued ==> k < |s.commits| && Due(s, k))
    && (forall t, k: nat :: HeldBy(s, k, t) ==> k < |s.commits| && Due(s, k) && k !in s.issued)
    && (forall t, u, k: nat :: HeldBy(s, k, t) && HeldBy(s, k, u) ==> t == u)
    && (forall k: nat :: k < |s.commits| && Due(s, k) ==> k in s.issued || exists t :: HeldBy(s, k, t))
  }

  lemma EventsElsewhere(s: State, s': State)
    requires EventsOk(s) && s'.commits == s.commits && s'.issued == s.issued
    requires forall t, k: nat :: HeldBy(s', k, t) <==> HeldBy(s, k, t)
    ensures EventsOk(s')
  {
    forall k: nat | k < |s'.commits| && Due(s', k) ensures k in s'.issued || exists t :: HeldBy(s', k, t) {
      assert Due(s, k);
      if k !in s.issued { var t :| HeldBy(s, k, t); assert HeldBy(s', k, t); }
    }
  }

  lemma EventsCommit(s: State, s': State, t: Tid, c: Commit)
    requires EventsOk(s) && s'.commits == s.commits + [c] && s'.issued == s.issued
    requires forall u, k: nat :: HeldBy(s', k, u) <==>
      HeldBy(s, k, u) || (u == t && k == |s.commits| && EventDue(c.before, c.report))
    ensures EventsOk(s')
  {
    forall k: nat | k < |s'.commits| && Due(s', k) ensures k in s'.issued || exists u :: HeldBy(s', k, u) {
      if k < |s.commits| {
        assert Due(s, k);
        if k !in s.issued { var u :| HeldBy(s, k, u); assert HeldBy(s', k, u); }
      } else {
        assert HeldBy(s', k, t);
      }
    }
    forall u, k: nat | HeldBy(s', k, u) ensures k < |s'.commits| && Due(s', k) && k !in s'.issued {
      if HeldBy(s, k, u) { assert Due(s, k); }
    }
    forall k | k in s'.issued ensures k < |s'.commits| && Due(s', k) { assert Due(s, k); }
  }

  lemma EventsPublish(s: State, s': State, t: Tid, j: nat)
    requires EventsOk(s) && HeldBy(s, j, t) && s'.commits == s.commits && s'.issued == s.issued + [j]
    requires forall u, k: nat :: HeldBy(s', k, u) <==> HeldBy(s, k, u) && u != t
    ensures EventsOk(s')
  {
    forall k: nat | k < |s'.commits| && Due(s', k) ensures k in s'.issued || exists u :: HeldBy(s', k, u) {
      assert Due(s, k);
      if k !in s.issued {
        var u :| HeldBy(s, k, u);
        if u == t { assert s'.issued[|s.issued|] == k; } else { assert HeldBy(s', k, u); }
      } else {
        assert k in s.issued;
      }
    }
    forall k | k in s'.issued ensures k < |s'.commits| && Due(s', k) {
      if k in s.issued { assert Due(s, k); } else { assert k == j && Due(s, j); }
    }
    forall u, k: nat | HeldBy(s', k, u) ensures k < |s'.commits| && Due(s', k) && k !in s'.issued {
      assert HeldBy(s, k, u) && Due(s, k);
    }
  }

  lemma EventsPass(e: Detector, s: State, t: Tid, a: PassAct)
    requires EventsOk(s) && PassEnabled(s, t, a)
    ensures EventsOk(PassApply(e, s, t, a))
  {
    var s' := PassApply(e, s, t, a);
    var p := s.passes[t];
    PassHolds(e, s, t, a);
    PassIssues(e, s, t, a);
    if a.TryCommit? && Accepts(s.last, p.q) {
      CommitsGrowPass(e, s, t, a);
      EventsCommit(s, s', t, NewCommit(e, s, p));
    } else if a.Publish? {
      assert HeldBy(s, p.k, t);
      EventsPublish(s, s', t, p.k);
    } else {
      EventsElsewhere(s, s');
    }
  }

  /** What a pass action does to the publications held by the passes. */
  lemma PassHolds(e: Detector, s: State, t: Tid, a: PassAct)
    requires PassEnabled(s, t, a)
    ensures var s' := PassApply(e, s, t, a); var p := s.passes[t];
      forall u, k: nat :: HeldBy(s', k, u) <==>
        (HeldBy(s, k, u) && (u != t || !a.Publish?))
        || (u == t && k == |s.commits| && a.TryCommit? && Accepts(s.last, p.q)
            && EventDue(NewCommit(e, s, p).before, NewCommit(e, s, p).report))
  {
    var s' := PassApply(e, s, t, a);
    PassFrame(e, s, t, a);
    PassIssues(e, s, t, a);
    assert forall u :: u != t ==> SamePass(s, s', u);
  }

  lemma PassIssues(e: Detector, s: State, t: Tid, a: PassAct)
    requires PassEnabled(s, t, a)
    ensures var s' := PassApply(e, s, t, a); var p := s.passes[t];
      && s'.issued == (if a.Publish? then s.issued + [p.k] else s.issued)
      && (a.TryCommit? && Accepts(s.last, p.q) ==>
            if EventDue(NewCommit(e, s, p).before, NewCommit(e, s, p).report)
            then t in s'.passes && s'.passes[t] == Publishing(|s.commits|)
            else t !in s'.passes)
      && (a.TryCommit? ==> Accepts(s.last, p.q) || (t !in s'.passes && s'.commits == s.commits))
      && (a.Publish? ==> t !in s'.passes && s'.commits == s.commits)
      && (!a.TryCommit? && !a.Publish? ==>
            !p.Publishing? && t in s'.passes && !s'.passes[t].Publishing? && s'.commits == s.commits)
  {
    if a.TryCommit? { CommitIssues(e, s, t); }
    else if a.Publish? { PublishIssues(e, s, t); }
    else { ReadingIssues(e, s, t, a); }
  }

  lemma CommitIssues(e: Detector, s: State, t: Tid)
    requires PassEnabled(s, t, TryCommit)
    ensures var s' := PassApply(e, s, t, TryCommit); var p := s.passes[t]; var c := NewCommit(e, s, p);
      && s'.issued == s.issued
      && (if !Accepts(s.last, p.q) then t !in s'.passes && s'.commits == s.commits
          else if EventDue(c.before, c.report) then t in s'.passes && s'.passes[t] == Publishing(|s.commits|)
          else t !in s'.passes)
  {
  }

  lemma PublishIssues(e: Detector, s: State, t: Tid)
    requires PassEnabled(s, t, Publish)
    ensures var s' := PassApply(e, s, t, Publish);
      s'.issued == s.issued + [s.passes[t].k] && t !in s'.passes && s'.commits == s.commits
  {
  }

  lemma ReadingIssues(e: Detector, s: State, t: Tid, a: PassAct)
    requires PassEnabled(s, t, a) && !a.TryCommit? && !a.Publish?
    ensures var s' := PassApply(e, s, t, a);
      && s'.issued == s.issued && s'.commits == s.commits
      && !s.passes[t].Publishing? && t in s'.passes && !s'.passes[t].Publishing?
  {
  }

  lemma ReaderHolds(s: State, r: ReaderAct)
    requires Shape(s) && ReaderEnabled(s, r)
    ensures var s' := ReaderApply(s, r);
      && s'.commits == s.commits && s'.issued == s.issued
      && forall t, k: nat :: HeldBy(s', k, t) <==> HeldBy(s, k, t)
  {
  }

  lemma SweeperHoldsNone(s: State, w: SweeperAct)
    requires Shape(s) && SweeperEnabled(s, w)
    ensures var s' := SweeperApply(s, w);
      && s'.commits == s.commits && s'.issued == s.issued
      && forall t, k: nat :: HeldBy(s', k, t) <==> HeldBy(s, k, t)
  {
  }

  lemma PromptHolds(s: State, id: nat, p: PromptAct)
    requires Shape(s) && PromptEnabled(s, id, p)
    ensures var s' := PromptApply(s, id, p);
      && s'.commits == s.commits && s'.issued == s.issued
      && forall t, k: nat :: HeldBy(s', k, t) <==> HeldBy(s, k, t)
  {
    PromptFrame(s, id, p);
    var s' := PromptApply(s, id, p);
    assert forall u :: u != Prompt(id) ==> SamePass(s, s', u);
    assert p.CheckCache? ==> Prompt(id) !in s.passes;
  }

  lemma EventsKept(e: Detector, s: State, a: Action)
    requires Shape(s) && EventsOk(s) && Enabled(s, a)
    ensures EventsOk(Apply(e, s, a))
  {
    match a
    case Time(_) => EventsElsewhere(s, Apply(e, s, a));
    case ByReader(r) => ReaderHolds(s, r); EventsElsewhere(s, Apply(e, s, a));
    case BySweeper(w) => SweeperHoldsNone(s, w); EventsElsewhere(s, Apply(e, s, a));
    case ByPrompt(id, p) => PromptHolds(s, id, p); EventsElsewhere(s, Apply(e, s, a));
    case ByPass(t, p) => EventsPass(e, s, t, p);
  }

  lemma {:induction false} EventsAlong(e: Detector, s: State, acts: seq<Action>)
    requires Safe(e, s) && EventsOk(s) && Possible(e, s, acts)
    ensures EventsOk(After(e, s, acts))
    decreases |acts|
  {
    if acts != [] {
      SafeKept(e, s, acts[0]);
      EventsKept(e, s, acts[0]);
      EventsAlong(e, Apply(e, s, acts[0]), acts[1..]);
    }
  }

  /** With no publication in flight, the issued events are exactly the due commits, once each.  A commit is due
      when its report is not the one before it and one of the two names an agent; until the exit path clears
      the cache, the one before it is that of the previous commit. */
  lemma EventsMatchCommits(e: Detector, history: seq<Action>)
    requires Possible(e, Init, history)
    requires forall t :: t in After(e, Init, history).passes ==> !After(e, Init, history).passes[t].Publishing?
    ensures var s := After(e, Init, history);
      && NoDup(s.issued)
      && (forall k: nat :: k in s.issued <==>
            (&& k < |s.commits|
             && (s.commits[k].before == None || s.commits[k].before.value != s.commits[k].report)
             && (s.commits[k].report.agent != None
                 || (s.commits[k].before != None && s.commits[k].before.value.agent != None))))
      && (!Cleared(s) ==> forall k: nat :: k < |s.commits| ==>
            s.commits[k].before == if k == 0 then None else Some(s.commits[k - 1].report))
  {
    InitSafe(e);
    InitPrompts(e);
    SafeAlong(e, Init, history);
    EventsAlong(e, Init, history);
    var s := After(e, Init, history);
    assert forall k: nat, t :: !HeldBy(s, k, t);
    assert forall k: nat :: k in s.issued <==> k < |s.commits| && Due(s, k);
  }
}
