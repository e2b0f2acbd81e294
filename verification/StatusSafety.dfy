/** What every interleaving of the status-detection protocol keeps. */
module StatusSafety {
  import opened Prelude
  import opened StatusProtocol

  ghost predicate Base(e: Detector, s: State) {
    Shape(s) && Marks(s) && PassesOk(s) && CommitsOk(e, s) && Chain(s)
  }

  // ------------------------------------------------------------ Shape

  lemma ShapeReader(s: State, r: ReaderAct)
    requires Shape(s) && ReaderEnabled(s, r)
    ensures Shape(ReaderApply(s, r))
  {
  }

  lemma ShapeSweeper(s: State, w: SweeperAct)
    requires Shape(s) && SweeperEnabled(s, w)
    ensures Shape(SweeperApply(s, w))
  {
  }

  lemma ShapePrompt(s: State, id: nat, p: PromptAct)
    requires Shape(s) && PromptEnabled(s, id, p)
    ensures Shape(PromptApply(s, id, p))
  {
    if p.CheckCache? { ShapeCheckCache(s, id); } else { ShapePromptMoves(s, id, p); }
  }

  lemma ShapeCheckCache(s: State, id: nat)
    requires Shape(s) && PromptEnabled(s, id, CheckCache)
    ensures Shape(PromptApply(s, id, CheckCache))
  {
  }

  lemma ShapePromptMoves(s: State, id: nat, p: PromptAct)
    requires Shape(s) && PromptEnabled(s, id, p) && !p.CheckCache?
    ensures Shape(PromptApply(s, id, p))
  {
    var s' := PromptApply(s, id, p);
    assert s' == s.(prompts := s'.prompts, pty := s'.pty);
    assert id in s'.prompts && !s'.prompts[id].Detecting?;
    assert id in s.prompts ==> !s.prompts[id].Detecting?;
    assert forall u :: u != id ==> (u in s'.prompts <==> u in s.prompts);
  }

  lemma ShapeEndPass(s: State, t: Tid)
    requires Shape(s) && t in s.passes
    ensures Shape(EndPass(s, t))
  {
  }

  lemma ShapeSetPass(s: State, t: Tid, p: Pass)
    requires Shape(s) && t in s.passes
    ensures Shape(s.(passes := s.passes[t := p]))
  {
  }

  lemma ShapeData(s: State, last: Option<Commit>, commits: seq<Commit>, issued: seq<nat>, reserved: seq<Mark>,
                  ticks: nat)
    requires Shape(s)
    ensures Shape(s.(last := last, commits := commits, issued := issued, reserved := reserved, ticks := ticks))
  {
  }

  lemma ShapeKept(e: Detector, s: State, a: Action)
    requires Shape(s) && Enabled(s, a)
    ensures Shape(Apply(e, s, a))
  {
    match a
    case Time(_) =>
    case ByReader(r) => ShapeReader(s, r);
    case BySweeper(w) => ShapeSweeper(s, w);
    case ByPrompt(id, p) => ShapePrompt(s, id, p);
    case ByPass(t, p) => ShapePass(e, s, t, p);
  }

  /** A pass has moved on in place or has returned to its caller, and otherwise only data has changed. */
  ghost predicate PassChange(s: State, s': State, t: Tid)
    requires t.Prompt? ==> t.id in s.prompts && s.prompts[t.id].Detecting?
  {
    var m := s.(last := s'.last, commits := s'.commits, issued := s'.issued, reserved := s'.reserved,
                ticks := s'.ticks);
    if t in s'.passes then s' == m.(passes := m.passes[t := s'.passes[t]]) else s' == EndPass(m, t)
  }

  lemma ReadingChange(e: Detector, s: State, t: Tid, a: PassAct)
    requires PassEnabled(s, t, a) && !a.TryCommit? && !a.Publish?
    ensures PassChange(s, PassApply(e, s, t, a), t)
  {
  }

  lemma CommitChange(e: Detector, s: State, t: Tid)
    requires PassEnabled(s, t, TryCommit)
    ensures PassChange(s, PassApply(e, s, t, TryCommit), t)
  {
  }

  lemma PublishChange(e: Detector, s: State, t: Tid)
    requires PassEnabled(s, t, Publish)
    ensures PassChange(s, PassApply(e, s, t, Publish), t)
  {
  }

  lemma PassChanges(e: Detector, s: State, t: Tid, a: PassAct)
    requires PassEnabled(s, t, a)
    ensures PassChange(s, PassApply(e, s, t, a), t)
  {
    if a.TryCommit? { CommitChange(e, s, t); } else if a.Publish? { PublishChange(e, s, t); }
    else { ReadingChange(e, s, t, a); }
  }

  lemma ShapePass(e: Detector, s: State, t: Tid, a: PassAct)
    requires Shape(s) && PassEnabled(s, t, a)
    ensures Shape(PassApply(e, s, t, a))
  {
    PassChanges(e, s, t, a);
    ShapeChange(s, PassApply(e, s, t, a), t);
  }

  lemma ShapeChange(s: State, s': State, t: Tid)
    requires Shape(s) && t in s.passes
    requires t.Prompt? ==> t.id in s.prompts && s.prompts[t.id].Detecting?
    requires PassChange(s, s', t)
    ensures Shape(s')
  {
    var m := s.(last := s'.last, commits := s'.commits, issued := s'.issued, reserved := s'.reserved,
                ticks := s'.ticks);
    ShapeData(s, s'.last, s'.commits, s'.issued, s'.reserved, s'.ticks);
    if t in s'.passes { ShapeSetPass(m, t, s'.passes[t]); } else { ShapeEndPass(m, t); }
  }

  // ------------------------------------------------------------ versions

  /** The version counters only grow, and so does the list of reservations. */
  predicate Grows(s: State, s': State) {
    AtMost(s.mark, s'.mark) && s.reserved <= s'.reserved && |s.commits| <= |s'.commits|
  }

  lemma MarksKept(e: Detector, s: State, a: Action)
    requires Marks(s) && Enabled(s, a)
    ensures Marks(Apply(e, s, a)) && Grows(s, Apply(e, s, a))
  {
    match a
    case ByPass(t, p) => MarksPass(e, s, t, p);
    case _ => NoReservation(e, s, a); MarksFrom(s, Apply(e, s, a));
  }

  lemma NoReservation(e: Detector, s: State, a: Action)
    requires Enabled(s, a) && !a.ByPass?
    ensures var s' := Apply(e, s, a); s'.reserved == s.reserved && s'.commits == s.commits && AtMost(s.mark, s'.mark)
  {
    match a
    case Time(_) =>
    case ByReader(r) =>
    case BySweeper(w) =>
    case ByPrompt(id, p) => PromptFrame(s, id, p);
  }

  lemma MarksFrom(s: State, s': State)
    requires Marks(s) && s'.reserved == s.reserved && AtMost(s.mark, s'.mark)
    ensures Marks(s')
  {
  }

  lemma MarksPass(e: Detector, s: State, t: Tid, a: PassAct)
    requires Marks(s) && PassEnabled(s, t, a)
    ensures Marks(PassApply(e, s, t, a)) && s.mark == PassApply(e, s, t, a).mark
    ensures Grows(s, PassApply(e, s, t, a))
  {
  }

  // ------------------------------------------------------------ passes

  lemma PassStays(s: State, s': State, p: Pass)
    requires PassOk(s, p) && Grows(s, s')
    ensures PassOk(s', p)
  {
  }

  /** Passes other than t are as they were; t's own has to be looked at. */
  lemma PassesFrom(s: State, s': State, t: Tid)
    requires PassesOk(s) && Grows(s, s') && forall u :: u != t ==> SamePass(s, s', u)
    requires t in s'.passes ==> PassOk(s', s'.passes[t])
    ensures PassesOk(s')
  {
    forall u | u in s'.passes && u != t ensures PassOk(s', s'.passes[u]) {
      assert SamePass(s, s', u);
      PassStays(s, s', s.passes[u]);
    }
  }

  /** The passes a thread's own action enters or leaves alone. */
  lemma OtherPasses(e: Detector, s: State, a: Action) returns (t: Tid)
    requires Enabled(s, a) && !a.ByPass?
    ensures var s' := Apply(e, s, a);
      && (forall u :: u != t ==> SamePass(s, s', u))
      && (t in s'.passes ==> s'.passes[t].Entered? || (t in s.passes && s'.passes[t] == s.passes[t]))
  {
    match a
    case ByPrompt(id, p) => t := Prompt(id); OwnPasses(s, id, p);
    case ByReader(r) => t := Reader; ReaderPasses(s, r);
    case BySweeper(w) => t := Sweeper; SweeperPasses(s, w);
    case _ => t := Reader;
  }

  lemma ReaderPasses(s: State, r: ReaderAct)
    requires ReaderEnabled(s, r)
    ensures var s' := ReaderApply(s, r);
      && (forall u :: u != Reader ==> SamePass(s, s', u))
      && (Reader in s'.passes ==>
            s'.passes[Reader].Entered? || (Reader in s.passes && s'.passes[Reader] == s.passes[Reader]))
  {
  }

  lemma SweeperPasses(s: State, w: SweeperAct)
    requires SweeperEnabled(s, w)
    ensures var s' := SweeperApply(s, w);
      && (forall u :: u != Sweeper ==> SamePass(s, s', u))
      && (Sweeper in s'.passes ==>
            s'.passes[Sweeper].Entered? || (Sweeper in s.passes && s'.passes[Sweeper] == s.passes[Sweeper]))
  {
  }

  lemma OwnPasses(s: State, id: nat, p: PromptAct)
    requires PromptEnabled(s, id, p)
    ensures var s' := PromptApply(s, id, p); var t := Prompt(id);
      && (forall u :: u != t ==> SamePass(s, s', u))
      && (t in s'.passes ==> s'.passes[t].Entered? || (t in s.passes && s'.passes[t] == s.passes[t]))
  {
  }

  lemma PassesOther(e: Detector, s: State, a: Action)
    requires Marks(s) && PassesOk(s) && Enabled(s, a) && !a.ByPass?
    ensures PassesOk(Apply(e, s, a))
  {
    MarksKept(e, s, a);
    var t := OtherPasses(e, s, a);
    OwnPassOk(s, Apply(e, s, a), t);
    PassesFrom(s, Apply(e, s, a), t);
  }

  lemma OwnPassOk(s: State, s': State, t: Tid)
    requires PassesOk(s) && Grows(s, s')
    requires t in s'.passes ==> s'.passes[t].Entered? || (t in s.passes && s'.passes[t] == s.passes[t])
    ensures t in s'.passes ==> PassOk(s', s'.passes[t])
  {
    if t in s'.passes && t in s.passes && s'.passes[t] == s.passes[t] { PassStays(s, s', s.passes[t]); }
  }

  lemma PassesPass(e: Detector, s: State, t: Tid, a: PassAct)
    requires Marks(s) && PassesOk(s) && PassEnabled(s, t, a)
    ensures PassesOk(PassApply(e, s, t, a))
  {
    MarksPass(e, s, t, a);
    PassFrame(e, s, t, a);
    if t in PassApply(e, s, t, a).passes { PassMoves(e, s, t, a); }
    PassesFrom(s, PassApply(e, s, t, a), t);
  }

  lemma PassMoves(e: Detector, s: State, t: Tid, a: PassAct)
    requires Marks(s) && PassEnabled(s, t, a) && PassOk(s, s.passes[t])
    requires t in PassApply(e, s, t, a).passes
    ensures PassOk(PassApply(e, s, t, a), PassApply(e, s, t, a).passes[t])
  {
    if a.TryCommit? { CommitMoves(e, s, t); }
  }

  lemma CommitMoves(e: Detector, s: State, t: Tid)
    requires PassEnabled(s, t, TryCommit)
    ensures var s' := PassApply(e, s, t, TryCommit);
      t in s'.passes ==> s'.passes[t] == Publishing(|s.commits|) && |s'.commits| == |s.commits| + 1
  {
  }

  lemma PassesKept(e: Detector, s: State, a: Action)
    requires Marks(s) && PassesOk(s) && Enabled(s, a)
    ensures PassesOk(Apply(e, s, a))
  {
    if a.ByPass? { PassesPass(e, s, a.t, a.a); } else { PassesOther(e, s, a); }
  }

  // ------------------------------------------------------------ commits

  /** An action either leaves the history alone or appends the commit its pass carries. */
  ghost predicate GrowsBy(e: Detector, s: State, a: Action, s': State) {
    || (s'.commits == s.commits && (s'.last == s.last || (a == ByReader(ClearState) && s'.last == None)))
    || (&& a.ByPass? && a.a.TryCommit? && a.t in s.passes && s.passes[a.t].Sampled?
        && Accepts(s.last, s.passes[a.t].q)
        && s'.last == Some(NewCommit(e, s, s.passes[a.t]))
        && s'.commits == s.commits + [NewCommit(e, s, s.passes[a.t])])
  }

  lemma CommitsGrowPass(e: Detector, s: State, t: Tid, a: PassAct)
    requires PassEnabled(s, t, a)
    ensures GrowsBy(e, s, ByPass(t, a), PassApply(e, s, t, a))
  {
  }

  lemma CommitsGrow(e: Detector, s: State, a: Action)
    requires Enabled(s, a)
    ensures GrowsBy(e, s, a, Apply(e, s, a))
  {
    match a
    case Time(_) =>
    case ByReader(r) =>
    case BySweeper(w) =>
    case ByPrompt(id, p) =>
    case ByPass(t, p) => CommitsGrowPass(e, s, t, p);
  }

  function NewCommit(e: Detector, s: State, p: Pass): Commit
    requires p.Sampled?
  {
    Commit(p.q, p.reading, e(p.reading), if s.last.None? then None else Some(s.last.value.report))
  }

  lemma CommitsKept(e: Detector, s: State, a: Action)
    requires Marks(s) && PassesOk(s) && CommitsOk(e, s) && Enabled(s, a)
    ensures CommitsOk(e, Apply(e, s, a))
  {
    var s' := Apply(e, s, a);
    MarksKept(e, s, a);
    CommitsGrow(e, s, a);
    forall k | 0 <= k < |s'.commits| ensures CommitOk(e, s', s'.commits[k]) {
      if k < |s.commits| { assert CommitOk(e, s, s.commits[k]); }
      else { assert PassOk(s, s.passes[a.t]); }
    }
  }

  lemma ChainKept(e: Detector, s: State, a: Action)
    requires CommitsOk(e, s) && Chain(s) && Enabled(s, a)
    ensures Chain(Apply(e, s, a))
  {
    CommitsGrow(e, s, a);
    ClearedStays(e, s, a);
  }

  lemma ClearedStays(e: Detector, s: State, a: Action)
    requires Enabled(s, a)
    ensures Cleared(Apply(e, s, a)) <==> Cleared(s) || a == ByReader(ClearState)
  {
    match a
    case Time(_) =>
    case ByReader(r) =>
    case BySweeper(w) =>
    case ByPrompt(id, p) =>
    case ByPass(t, p) => ClearedPass(e, s, t, p);
  }

  lemma ClearedPass(e: Detector, s: State, t: Tid, a: PassAct)
    requires PassEnabled(s, t, a)
    ensures Cleared(PassApply(e, s, t, a)) <==> Cleared(s)
    ensures PassApply(e, s, t, a).exited == s.exited && PassApply(e, s, t, a).pending == s.pending
    ensures PassApply(e, s, t, a).lastCheck == s.lastCheck && PassApply(e, s, t, a).now == s.now
  {
  }

  lemma BaseKept(e: Detector, s: State, a: Action)
    requires Base(e, s) && Enabled(s, a)
    ensures Base(e, Apply(e, s, a))
  {
    ShapeKept(e, s, a);
    MarksKept(e, s, a);
    PassesKept(e, s, a);
    CommitsKept(e, s, a);
    ChainKept(e, s, a);
  }

  // ------------------------------------------------------------ no lost flip

  lemma FreshStays(e: Detector, s: State, a: Action)
    requires Base(e, s) && Enabled(s, a) && Fresh(s) && !Cleared(Apply(e, s, a))
    requires Apply(e, s, a).mark == s.mark
    ensures Fresh(Apply(e, s, a))
  {
    ClearedStays(e, s, a);
    CommitsGrow(e, s, a);
    MarksKept(e, s, a);
    if a.ByPass? && a.a.TryCommit? {
      assert PassOk(s, s.passes[a.t]);
    }
  }

  /** A pass that would cover the newest output and is refused was overtaken by one that does. */
  lemma OvertakenIsFresh(e: Detector, s: State, q: nat)
    requires Marks(s) && CommitsOk(e, s) && 1 <= q <= |s.reserved| && s.reserved[q - 1] == s.mark
    requires !Accepts(s.last, q)
    ensures Fresh(s)
  {
    assert CommitOk(e, s, s.commits[|s.commits| - 1]);
    assert AtMost(s.reserved[q - 1], s.reserved[s.last.value.seqno - 1]);
  }

  lemma CommitCovers(e: Detector, s: State, t: Tid)
    requires Marks(s) && CommitsOk(e, s) && PassEnabled(s, t, TryCommit) && WillCover(s, t)
    ensures Fresh(PassApply(e, s, t, TryCommit))
  {
    var q := s.passes[t].q;
    if !Accepts(s.last, q) { OvertakenIsFresh(e, s, q); }
  }

  lemma WillCoverMoves(e: Detector, s: State, t: Tid, a: PassAct)
    requires Base(e, s) && PassEnabled(s, t, a) && WillCover(s, t) && !Cleared(s)
    ensures Fresh(PassApply(e, s, t, a)) || WillCover(PassApply(e, s, t, a), t)
  {
    if a.TryCommit? { CommitCovers(e, s, t); }
  }

  predicate SamePass(s: State, s': State, u: Tid) {
    (u in s'.passes <==> u in s.passes) && (u in s.passes ==> s'.passes[u] == s.passes[u])
  }

  lemma PromptFrame(s: State, id: nat, p: PromptAct)
    requires PromptEnabled(s, id, p)
    ensures var s' := PromptApply(s, id, p); s' == s.(prompts := s'.prompts, passes := s'.passes, pty := s'.pty)
    ensures forall u :: u != Prompt(id) ==> SamePass(s, PromptApply(s, id, p), u)
  {
  }

  lemma PassFrame(e: Detector, s: State, t: Tid, a: PassAct)
    requires PassEnabled(s, t, a)
    ensures forall u :: u != t ==> SamePass(s, PassApply(e, s, t, a), u)
  {
  }

  lemma WillCoverStays(s: State, s': State, u: Tid)
    requires WillCover(s, u) && SamePass(s, s', u) && s.mark == s'.mark && s.reserved <= s'.reserved
    ensures WillCover(s', u)
  {
  }

  lemma CoveredReader(s: State, r: ReaderAct)
    requires Shape(s) && Covered(s) && ReaderEnabled(s, r)
    ensures Covered(ReaderApply(s, r))
  {
  }

  lemma CoveredSweeper(e: Detector, s: State, w: SweeperAct)
    requires Base(e, s) && Covered(s) && SweeperEnabled(s, w)
    ensures Covered(SweeperApply(s, w))
  {
  }

  lemma CoveredPrompt(e: Detector, s: State, id: nat, p: PromptAct)
    requires Base(e, s) && Covered(s) && PromptEnabled(s, id, p)
    ensures Covered(PromptApply(s, id, p))
  {
    PromptFrame(s, id, p);
    assert SamePass(s, PromptApply(s, id, p), Reader) && SamePass(s, PromptApply(s, id, p), Sweeper);
  }

  /** A pass changes only its own thread's counter, and that only when it returns. */
  predicate ThreadsAfter(s: State, s': State, t: Tid) {
    && s'.exited == s.exited && s'.pending == s.pending && s'.mark == s.mark
    && (s'.reader == s.reader || (t.Reader? && t !in s'.passes && s'.reader.Waiting?))
    && (s'.sweeper == s.sweeper || (t.Sweeper? && t !in s'.passes && s'.sweeper.Sleeping?))
  }

  lemma ThreadsChange(s: State, s': State, t: Tid)
    requires t.Prompt? ==> t.id in s.prompts && s.prompts[t.id].Detecting?
    requires PassChange(s, s', t)
    ensures ThreadsAfter(s, s', t)
  {
  }

  /** Coverage survives when t's pass keeps its share of it. */
  lemma CoveredFrom(s: State, s': State, t: Tid)
    requires Shape(s) && Shape(s') && Covered(s) && t in s.passes && ThreadsAfter(s, s', t) && s.reserved <= s'.reserved
    requires forall u :: u != t ==> SamePass(s, s', u)
    requires Live(s) && Fresh(s) ==> Fresh(s')
    requires Live(s) && WillCover(s, t) ==> Fresh(s') || WillCover(s', t)
    ensures Covered(s')
  {
    if t != Sweeper && WillCover(s, Sweeper) { WillCoverStays(s, s', Sweeper); }
    if t != Reader && WillCover(s, Reader) { WillCoverStays(s, s', Reader); }
  }

  lemma CoveredPass(e: Detector, s: State, t: Tid, a: PassAct)
    requires Base(e, s) && Covered(s) && PassEnabled(s, t, a)
    ensures Covered(PassApply(e, s, t, a))
  {
    var s' := PassApply(e, s, t, a);
    ShapePass(e, s, t, a);
    PassShare(e, s, t, a);
    CoveredFrom(s, s', t);
  }

  lemma PassShare(e: Detector, s: State, t: Tid, a: PassAct)
    requires Base(e, s) && PassEnabled(s, t, a)
    ensures var s' := PassApply(e, s, t, a);
      && ThreadsAfter(s, s', t) && s.reserved <= s'.reserved
      && (forall u :: u != t ==> SamePass(s, s', u))
      && (Live(s) && Fresh(s) ==> Fresh(s'))
      && (Live(s) && WillCover(s, t) ==> Fresh(s') || WillCover(s', t))
  {
    PassChanges(e, s, t, a);
    ThreadsChange(s, PassApply(e, s, t, a), t);
    MarksPass(e, s, t, a);
    PassFrame(e, s, t, a);
    if Live(s) {
      if Fresh(s) { ClearedPass(e, s, t, a); FreshStays(e, s, ByPass(t, a)); }
      if WillCover(s, t) { WillCoverMoves(e, s, t, a); }
    }
  }
}
