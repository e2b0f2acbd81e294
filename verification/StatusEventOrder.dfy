/**
 The event of a commit is published after the cache lock is released, so two publications can
 overtake each other: the last event a client receives need not be the last committed report.
 Order is lost by exactly one kind of step: publishing while an older commit is still in flight.
 */
module StatusEventOrder {
  import opened Prelude
  import opened StatusProtocol
  import opened StatusSafety
  import opened StatusLiveness
  import opened StatusOutcomes

  predicate Increasing(ks: seq<nat>) { forall i, j :: 0 <= i < j < |ks| ==> ks[i] < ks[j] }

  /** The events so far are in commit order, and none in flight is older than an issued one. */
  ghost predicate Ordered(s: State) {
    && Increasing(s.issued)
    && (forall t, k: nat, j :: HeldBy(s, k, t) && j in s.issued ==> j < k)
  }

  /** The action publishes one commit's event while an older commit's is still in flight. */
  ghost predicate Overtakes(s: State, a: Action) {
    a.ByPass? && a.a.Publish? && exists u, k: nat, l: nat :: HeldBy(s, k, a.t) && HeldBy(s, l, u) && l < k
  }

  /** Outside the passes nothing in flight or issued changes. */
  lemma OtherHolds(e: Detector, s: State, a: Action)
    requires Shape(s) && Enabled(s, a) && !a.ByPass?
    ensures var s' := Apply(e, s, a);
      && s'.commits == s.commits && s'.issued == s.issued
      && forall t, k: nat :: HeldBy(s', k, t) <==> HeldBy(s, k, t)
  {
    match a
    case Time(_) =>
    case ByReader(r) => ReaderHolds(s, r);
    case BySweeper(w) => SweeperHoldsNone(s, w);
    case ByPrompt(id, p) => PromptHolds(s, id, p);
  }

  lemma PublishDisorders(e: Detector, s: State, t: Tid)
    requires EventsOk(s) && Ordered(s) && PassEnabled(s, t, Publish)
    ensures !Ordered(PassApply(e, s, t, Publish)) <==> Overtakes(s, ByPass(t, Publish))
  {
    var s' := PassApply(e, s, t, Publish);
    var j := s.passes[t].k;
    PassHolds(e, s, t, Publish);
    PassIssues(e, s, t, Publish);
    assert HeldBy(s, j, t);
    assert forall i :: 0 <= i < |s.issued| ==> s.issued[i] in s.issued;
    assert s'.issued[|s.issued|] == j;
    if u, k: nat, l: nat :| HeldBy(s, k, t) && HeldBy(s, l, u) && l < k {
      assert k == j && HeldBy(s', l, u) && j in s'.issued;
    }
    forall u, l: nat | HeldBy(s', l, u) && !Overtakes(s, ByPass(t, Publish)) ensures j < l {
      assert HeldBy(s, l, u) && u != t;
    }
  }

  lemma PassOrdered(e: Detector, s: State, t: Tid, a: PassAct)
    requires EventsOk(s) && Ordered(s) && PassEnabled(s, t, a) && !a.Publish?
    ensures Ordered(PassApply(e, s, t, a))
  {
    PassHolds(e, s, t, a);
    PassIssues(e, s, t, a);
  }

  /** The one step that loses the order. */
  lemma DisorderIff(e: Detector, s: State, a: Action)
    requires Shape(s) && EventsOk(s) && Ordered(s) && Enabled(s, a)
    ensures !Ordered(Apply(e, s, a)) <==> Overtakes(s, a)
  {
    if !a.ByPass? { OtherHolds(e, s, a); }
    else if a.a.Publish? { PublishDisorders(e, s, a.t); }
    else { PassOrdered(e, s, a.t, a.a); }
  }

  lemma DisorderPass(e: Detector, s: State, t: Tid, a: PassAct)
    requires EventsOk(s) && !Ordered(s) && PassEnabled(s, t, a)
    ensures !Ordered(PassApply(e, s, t, a))
  {
    PassHolds(e, s, t, a);
    PassIssues(e, s, t, a);
    DisorderLasts(s, PassApply(e, s, t, a));
  }

  lemma DisorderLasts(s: State, s': State)
    requires !Ordered(s) && s.issued <= s'.issued
    requires forall u, k: nat :: HeldBy(s, k, u) ==> k !in s.issued && (HeldBy(s', k, u) || s'.issued == s.issued + [k])
    ensures !Ordered(s')
  {
    if Increasing(s.issued) {
      var u, k: nat, j :| HeldBy(s, k, u) && j in s.issued && j >= k;
      assert k !in s.issued && j > k;
      var i :| 0 <= i < |s.issued| && s.issued[i] == j;
      if HeldBy(s', k, u) {
        assert s'.issued[i] == j && j in s'.issued;
      } else {
        assert s'.issued[i] == j && s'.issued[|s.issued|] == k;
      }
    } else {
      var i, j :| 0 <= i < j < |s.issued| && s.issued[i] >= s.issued[j];
      assert s'.issued[i] == s.issued[i] && s'.issued[j] == s.issued[j];
    }
  }

  /** Order once lost stays lost. */
  lemma DisorderStays(e: Detector, s: State, a: Action)
    requires Shape(s) && EventsOk(s) && !Ordered(s) && Enabled(s, a)
    ensures !Ordered(Apply(e, s, a))
  {
    if a.ByPass? { DisorderPass(e, s, a.t, a.a); } else { OtherHolds(e, s, a); }
  }

  ghost predicate NoneOvertakes(e: Detector, s: State, acts: seq<Action>)
    requires Possible(e, s, acts)
    decreases |acts|
  {
    acts == [] || (!Overtakes(s, acts[0]) && NoneOvertakes(e, Apply(e, s, acts[0]), acts[1..]))
  }

  lemma {:induction false} OrderedAlong(e: Detector, s: State, acts: seq<Action>)
    requires Safe(e, s) && EventsOk(s) && Possible(e, s, acts)
    ensures Ordered(After(e, s, acts)) <==> Ordered(s) && NoneOvertakes(e, s, acts)
    decreases |acts|
  {
    if acts != [] {
      SafeKept(e, s, acts[0]);
      EventsKept(e, s, acts[0]);
      OrderedAlong(e, Apply(e, s, acts[0]), acts[1..]);
      if Ordered(s) { DisorderIff(e, s, acts[0]); } else { DisorderStays(e, s, acts[0]); }
    }
  }

  /** Over any run, events are in commit order, with nothing older in flight, iff no step published past
      an older commit; with nothing in flight at the end, that is exactly when the log is increasing. */
  lemma EventsInOrderIff(e: Detector, history: seq<Action>)
    requires Possible(e, Init, history)
    ensures var s := After(e, Init, history);
      && (Ordered(s) <==> NoneOvertakes(e, Init, history))
      && ((forall t, k: nat :: !HeldBy(s, k, t)) ==> (Increasing(s.issued) <==> NoneOvertakes(e, Init, history)))
  {
    InitSafe(e);
    InitPrompts(e);
    OrderedAlong(e, Init, history);
  }

  // ------------------------------------------------------------ one publication at a time

  /** Every commit attempt is made while no publication is in flight. */
  ghost predicate Serial(e: Detector, s: State, acts: seq<Action>)
    requires Possible(e, s, acts)
    decreases |acts|
  {
    acts == [] ||
    ((acts[0].ByPass? && acts[0].a.TryCommit? ==> forall t, k: nat :: !HeldBy(s, k, t))
     && Serial(e, Apply(e, s, acts[0]), acts[1..]))
  }

  ghost predicate OneHeld(s: State) {
    forall t, u, k: nat, l: nat :: HeldBy(s, k, t) && HeldBy(s, l, u) ==> t == u
  }

  lemma OneHeldKept(e: Detector, s: State, a: Action)
    requires Shape(s) && OneHeld(s) && Enabled(s, a)
    requires a.ByPass? && a.a.TryCommit? ==> forall t, k: nat :: !HeldBy(s, k, t)
    ensures OneHeld(Apply(e, s, a)) && !Overtakes(s, a)
  {
    if a.ByPass? { PassHolds(e, s, a.t, a.a); } else { OtherHolds(e, s, a); }
  }

  lemma {:induction false} SerialNeverOvertakes(e: Detector, s: State, acts: seq<Action>)
    requires Shape(s) && OneHeld(s) && Possible(e, s, acts) && Serial(e, s, acts)
    ensures NoneOvertakes(e, s, acts)
    decreases |acts|
  {
    if acts != [] {
      OneHeldKept(e, s, acts[0]);
      ShapeKept(e, s, acts[0]);
      SerialNeverOvertakes(e, Apply(e, s, acts[0]), acts[1..]);
    }
  }

  /** So events are issued in commit order whenever publications do not overlap with commits. */
  lemma SerialKeepsOrder(e: Detector, history: seq<Action>)
    requires Possible(e, Init, history) && Serial(e, Init, history)
    ensures Increasing(After(e, Init, history).issued)
  {
    InitSafe(e);
    SerialNeverOvertakes(e, Init, history);
    EventsInOrderIff(e, history);
  }

  // ------------------------------------------------------------ a run that loses the order

  lemma {:induction false} Extend(e: Detector, s: State, acts: seq<Action>, a: Action)
    requires Possible(e, s, acts) && Enabled(After(e, s, acts), a)
    ensures Possible(e, s, acts + [a]) && After(e, s, acts + [a]) == Apply(e, After(e, s, acts), a)
    decreases |acts|
  {
    if acts == [] {
      assert acts + [a] == [a];
      assert [a][1..] == [];
      assert Possible(e, Apply(e, s, a), [a][1..]);
    } else {
      assert (acts + [a])[1..] == acts[1..] + [a];
      Extend(e, Apply(e, s, acts[0]), acts[1..], a);
    }
  }

  /** Two reports for the same output, told apart by the process-table sample alone. */
  const Sampler: Detector := (r: Reading) => Report(Some("jcode"), if r.probe == 0 then Working else Idle)

  /** The state once thread t has run its pass up to an accepted, publishable commit. */
  function Committed(s: State, t: Tid, sample: nat): State {
    var r := Reading(s.mark, sample);
    var c := Commit(|s.reserved| + 1, r, Sampler(r), if s.last.None? then None else Some(s.last.value.report));
    s.(reserved := s.reserved + [s.mark], last := Some(c), commits := s.commits + [c],
       ticks := if t.Reader? then 0 else s.ticks, passes := s.passes[t := Publishing(|s.commits|)])
  }

  lemma RunPass(s: State, acts: seq<Action>, t: Tid, sample: nat) returns (acts': seq<Action>)
    requires Possible(Sampler, Init, acts) && s == After(Sampler, Init, acts)
    requires PassEnabled(s, t, Reserve) && Accepts(s.last, |s.reserved| + 1)
    requires s.last.Some? ==> s.last.value.report != Sampler(Reading(s.mark, sample))
    ensures Possible(Sampler, Init, acts')
    ensures After(Sampler, Init, acts') == Committed(s, t, sample)
  {
    acts' := RunReads(s, acts, t, sample);
    acts' := Go(acts', Sampling(s, t, sample), ByPass(t, TryCommit), Committed(s, t, sample));
  }

  /** The state once thread t has reserved, read and sampled without interference. */
  function Sampling(s: State, t: Tid, sample: nat): State {
    s.(reserved := s.reserved + [s.mark], ticks := if t.Reader? then 0 else s.ticks,
       passes := s.passes[t := Sampled(|s.reserved| + 1, Reading(s.mark, sample))])
  }

  lemma RunReads(s: State, acts: seq<Action>, t: Tid, sample: nat) returns (acts': seq<Action>)
    requires Possible(Sampler, Init, acts) && s == After(Sampler, Init, acts)
    requires PassEnabled(s, t, Reserve)
    ensures Possible(Sampler, Init, acts')
    ensures After(Sampler, Init, acts') == Sampling(s, t, sample)
  {
    var m := s.mark;
    var q := |s.reserved| + 1;
    var s1 := s.(reserved := s.reserved + [m], ticks := if t.Reader? then 0 else s.ticks,
                 passes := s.passes[t := Reserved(q)]);
    acts' := Go(acts, s, ByPass(t, Reserve), s1);
    acts' := RunTail(s1, acts', t, q, sample);
    assert s1.passes[t := Sampled(q, Reading(m, sample))] == s.passes[t := Sampled(q, Reading(m, sample))];
  }

  lemma RunTail(s: State, acts: seq<Action>, t: Tid, q: nat, sample: nat) returns (acts': seq<Action>)
    requires Possible(Sampler, Init, acts) && s == After(Sampler, Init, acts)
    requires PassEnabled(s, t, ReadTail) && s.passes[t] == Reserved(q) && (t.Reader? ==> s.ticks == 0)
    ensures Possible(Sampler, Init, acts')
    ensures After(Sampler, Init, acts') == s.(passes := s.passes[t := Sampled(q, Reading(s.mark, sample))])
  {
    var s2 := s.(passes := s.passes[t := TailRead(q, s.mark.tail)]);
    acts' := Go(acts, s, ByPass(t, ReadTail), s2);
    var s3 := s2.(passes := s2.passes[t := OscRead(q, s.mark)]);
    acts' := Go(acts', s2, ByPass(t, ReadOsc), s3);
    var s4 := s3.(passes := s3.passes[t := Sampled(q, Reading(s.mark, sample))]);
    acts' := Go(acts', s3, ByPass(t, Probe(sample)), s4);
    assert s4.passes == s.passes[t := Sampled(q, Reading(s.mark, sample))];
  }

  lemma Go(acts: seq<Action>, s: State, a: Action, s': State) returns (acts': seq<Action>)
    requires Possible(Sampler, Init, acts) && s == After(Sampler, Init, acts)
    requires Enabled(s, a) && Apply(Sampler, s, a) == s'
    ensures Possible(Sampler, Init, acts') && After(Sampler, Init, acts') == s'
  {
    Extend(Sampler, Init, acts, a);
    acts' := acts + [a];
  }

  /** One chunk printed, and the reader is about to run its pass. */
  const Printed: State :=
    Init.(mark := Mark(1, 1), lastCheck := Some(0), reader := ReaderPass, passes := map[Reader := Entered])

  lemma PrintOne() returns (history: seq<Action>)
    ensures Possible(Sampler, Init, history) && After(Sampler, Init, history) == Printed
  {
    history := [];
    var s1 := Init.(mark := Mark(1, 0), reader := Appended);
    history := Go(history, Init, ByReader(Append), s1);
    var s2 := s1.(mark := Mark(1, 1), reader := Observed);
    history := Go(history, s1, ByReader(Observe), s2);
    var s3 := s2.(lastCheck := Some(0), reader := Clearing);
    history := Go(history, s2, ByReader(Gate), s3);
    history := Go(history, s3, ByReader(ClearPending), Printed);
  }

  /** A submit arrives and starts its own pass. */
  lemma Submit(history: seq<Action>, s: State) returns (history': seq<Action>)
    requires Possible(Sampler, Init, history) && s == After(Sampler, Init, history)
    requires s.prompts == map[] && !s.exited && !ReadsBlocked(s.last)
    ensures Possible(Sampler, Init, history')
    ensures After(Sampler, Init, history') ==
            s.(prompts := map[0 := Detecting(s.mark)], passes := s.passes[Prompt(0) := Entered])
  {
    var s1 := s.(prompts := map[0 := Cached(s.mark)]);
    history' := Go(history, s, ByPrompt(0, Call), s1);
    var s2 := s1.(prompts := map[0 := Detecting(s.mark)], passes := s.passes[Prompt(0) := Entered]);
    assert s1.prompts[0 := Detecting(s.mark)] == map[0 := Detecting(s.mark)];
    history' := Go(history', s1, ByPrompt(0, CheckCache), s2);
  }

  /** The reader's pass commits first and publishes last: the client ends on the older report. */
  lemma EventsOvertake() returns (history: seq<Action>)
    ensures Possible(Sampler, Init, history)
    ensures var s := After(Sampler, Init, history);
      && s.issued == [1, 0] && s.passes == map[] && !s.exited && |s.commits| == 2
      && s.commits[0].report.status == Working && s.last == Some(s.commits[1]) && s.commits[1].report.status == Idle
  {
    history := PrintOne();
    history := RunPass(Printed, history, Reader, 0);
    var s1 := Committed(Printed, Reader, 0);
    history := Submit(history, s1);
    var s2 := s1.(prompts := map[0 := Detecting(Mark(1, 1))], passes := s1.passes[Prompt(0) := Entered]);
    history := RunPass(s2, history, Prompt(0), 1);
    history := Finish(history, Committed(s2, Prompt(0), 1));
  }

  /** Both publications land, the submit's first. */
  lemma Finish(history: seq<Action>, s: State) returns (history': seq<Action>)
    requires Possible(Sampler, Init, history) && s == After(Sampler, Init, history)
    requires s.passes == map[Reader := Publishing(0), Prompt(0) := Publishing(1)] && s.issued == []
    requires s.reader.ReaderPass? && s.prompts == map[0 := Detecting(Mark(1, 1))]
    ensures Possible(Sampler, Init, history')
    ensures var s' := After(Sampler, Init, history');
      s'.issued == [1, 0] && s'.passes == map[] && s'.commits == s.commits && s'.last == s.last && s'.exited == s.exited
  {
    Extend(Sampler, Init, history, ByPass(Prompt(0), Publish));
    history' := history + [ByPass(Prompt(0), Publish)];
    var s1 := Apply(Sampler, s, ByPass(Prompt(0), Publish));
    assert s1.passes == map[Reader := Publishing(0)];
    Extend(Sampler, Init, history', ByPass(Reader, Publish));
    history' := history' + [ByPass(Reader, Publish)];
    assert s1.passes - {Reader} == map[];
  }
}
