/**
 Requests in flight to one language server: callers insert into the pending map, send, and wait with a
 timeout; the stdout reader removes an entry and then sends the answer into the caller's channel.
 Message values are uninterpreted strings.
 */
module LspPending {
  import opened Prelude
  import Scrollback

  type Json = string

  datatype Pc = Numbered | Listed | Waiting | TimedOut | Answered(answer: Json) | SendFailed | GaveUp
              | Cancelled(listed: bool)

  /** One call: where it is, and what its one-place channel holds. */
  datatype Call = Call(pc: Pc, mail: seq<Json>)

  /** `taken` remembers the answers for which the reader found an entry. */
  datatype State = State(next: nat, calls: map<nat, Call>, pending: set<nat>, hand: Option<(nat, Json)>,
                         taken: map<nat, Json>)

  const Init: State := State(1, map[], {}, None, map[])

  datatype Step =
    | Number | OtherServer                       // the id counter is shared by all servers
    | Insert(id: nat) | Send(id: nat, ok: bool) | Receive(id: nat) | TimeOut(id: nat) | Remove(id: nat)
    | Cancel(id: nat)                           // the caller is dropped where it waits
    | Take(id: nat, answer: Json) | Put

  predicate At(s: State, id: nat, pc: Pc) { id in s.calls && s.calls[id].pc == pc }

  predicate Enabled(s: State, step: Step) {
    match step
    case Number => true
    case OtherServer => true
    case Insert(id) => At(s, id, Numbered)
    case Send(id, _) => At(s, id, Listed)
    case Receive(id) => At(s, id, Waiting) && s.calls[id].mail != []
    case TimeOut(id) => At(s, id, Waiting)
    case Remove(id) => At(s, id, TimedOut)
    case Cancel(id) => id in s.calls && Listening(s.calls[id].pc)
    case Take(_, _) => s.hand.None?
    case Put => s.hand.Some?
  }

  function Move(s: State, id: nat, pc: Pc): State
    requires id in s.calls
  {
    s.(calls := s.calls[id := s.calls[id].(pc := pc)])
  }

  /** The caller still owns its receiver. */
  predicate Listening(pc: Pc) { pc.Numbered? || pc.Listed? || pc.Waiting? || pc.TimedOut? }

  function Apply(s: State, step: Step): State
    requires Enabled(s, step)
  {
    match step
    case Number => s.(next := s.next + 1, calls := s.calls[s.next := Call(Numbered, [])])
    case OtherServer => s.(next := s.next + 1)
    case Insert(id) => Move(s, id, Listed).(pending := s.pending + {id})
    case Send(id, ok) => Move(s, id, if ok then Waiting else SendFailed)
    case Receive(id) => s.(calls := s.calls[id := Call(Answered(s.calls[id].mail[0]), [])])
    case TimeOut(id) => Move(s, id, TimedOut)
    case Remove(id) => Move(s, id, GaveUp).(pending := s.pending - {id})
    case Cancel(id) => Move(s, id, Cancelled(!s.calls[id].pc.Numbered?))
    case Take(id, answer) =>
      if id in s.pending
      then s.(pending := s.pending - {id}, hand := Some((id, answer)), taken := s.taken[id := answer])
      else s
    case Put =>
      var (id, answer) := s.hand.value;
      if id in s.calls && Listening(s.calls[id].pc) && s.calls[id].mail == [] then
        s.(hand := None, calls := s.calls[id := s.calls[id].(mail := [answer])])
      else s.(hand := None)
  }

  predicate Possible(s: State, steps: seq<Step>)
    decreases |steps|
  {
    steps == [] || (Enabled(s, steps[0]) && Possible(Apply(s, steps[0]), steps[1..]))
  }

  function Run(s: State, steps: seq<Step>): State
    requires Possible(s, steps)
    decreases |steps|
  {
    if steps == [] then s else Run(Apply(s, steps[0]), steps[1..])
  }

  // ---------------------------------------------------------------- invariant

  /** The entry is there from insertion until the reader or the caller removes it; a call whose send
      failed, or that was cancelled after its insertion, never removes its own. */
  predicate Entered(pc: Pc) {
    pc.Listed? || pc.Waiting? || pc.TimedOut? || pc.SendFailed? || (pc.Cancelled? && pc.listed)
  }

  predicate CallOk(s: State, id: nat) {
    if id !in s.calls then id !in s.pending && id !in s.taken && (s.hand.Some? ==> s.hand.value.0 != id)
    else
      var c := s.calls[id];
      && id < s.next
      && (id in s.pending <==> Entered(c.pc) && id !in s.taken)
      && (c.pc.Numbered? || (c.pc.Cancelled? && !c.pc.listed) ==> id !in s.taken)
      && (c.mail != [] ==> id in s.taken && c.mail == [s.taken[id]])
      && (id in s.taken && Listening(c.pc) && (s.hand.None? || s.hand.value.0 != id) ==> c.mail == [s.taken[id]])
      && (s.hand.Some? && s.hand.value.0 == id ==> id in s.taken && s.taken[id] == s.hand.value.1 && c.mail == [])
      && (c.pc.Answered? ==> id in s.taken && s.taken[id] == c.pc.answer)
  }

  ghost predicate Ok(s: State) { forall id: nat :: CallOk(s, id) && (id in s.calls ==> id < s.next) }

  lemma StepKeeps(s: State, step: Step)
    requires Ok(s) && Enabled(s, step)
    ensures Ok(Apply(s, step))
  {
    var s' := Apply(s, step);
    forall id: nat ensures CallOk(s', id) && (id in s'.calls ==> id < s'.next) { assert CallOk(s, id); }
  }

  lemma {:induction false} RunKeeps(s: State, steps: seq<Step>)
    requires Ok(s) && Possible(s, steps)
    ensures Ok(Run(s, steps))
    decreases |steps|
  {
    if steps != [] {
      StepKeeps(s, steps[0]);
      RunKeeps(Apply(s, steps[0]), steps[1..]);
    }
  }

  // ---------------------------------------------------------------- results

  /** At any moment of any run the map holds exactly the requests that were inserted, were neither
      answered nor removed by their caller, and are still in flight, failed to send or were cancelled. */
  lemma PendingExact(steps: seq<Step>, id: nat)
    requires Possible(Init, steps)
    ensures var s := Run(Init, steps); id in s.pending <==> id in s.calls && Entered(s.calls[id].pc) && id !in s.taken
  {
    RunKeeps(Init, steps);
    assert CallOk(Run(Init, steps), id);
  }

  predicate Ended(pc: Pc) { pc.Answered? || pc.SendFailed? || pc.GaveUp? || pc.Cancelled? }

  /** A call that has ended leaves its entry behind iff its frame could not be sent, or it was cancelled once
      inserted, and the server never answered its number; an answered or timed-out call leaves none. */
  lemma LeftBehindIff(steps: seq<Step>, id: nat)
    requires Possible(Init, steps)
    requires id in Run(Init, steps).calls && Ended(Run(Init, steps).calls[id].pc)
    ensures var s := Run(Init, steps); var pc := s.calls[id].pc;
      id in s.pending <==> (pc.SendFailed? || (pc.Cancelled? && pc.listed)) && id !in s.taken
  {
    PendingExact(steps, id);
  }

  /** An answered call got the one answer that the reader took its entry for. */
  lemma AnswersMatch(steps: seq<Step>, id: nat)
    requires Possible(Init, steps)
    requires id in Run(Init, steps).calls && Run(Init, steps).calls[id].pc.Answered?
    ensures var s := Run(Init, steps); id in s.taken && s.taken[id] == s.calls[id].pc.answer && id !in s.pending
  {
    RunKeeps(Init, steps);
    assert CallOk(Run(Init, steps), id);
  }

  /** Nothing taken is lost: once the reader has let go of an answer, a call that still listens has exactly it
      in its channel, and a waiting one can receive it. */
  lemma AnswersDelivered(steps: seq<Step>, id: nat)
    requires Possible(Init, steps)
    requires var s := Run(Init, steps);
      && id in s.taken && id in s.calls && (s.hand.None? || s.hand.value.0 != id)
      && (var pc := s.calls[id].pc; pc == Numbered || pc == Listed || pc == Waiting || pc == TimedOut)
    ensures var s := Run(Init, steps);
      && s.calls[id].mail == [s.taken[id]]
      && (s.calls[id].pc == Waiting ==>
            Enabled(s, Receive(id)) && Apply(s, Receive(id)).calls[id].pc == Answered(s.taken[id]))
  {
    RunKeeps(Init, steps);
    assert CallOk(Run(Init, steps), id);
  }

  /** What else may run without ending the call. */
  predicate LeavesWaiting(step: Step, id: nat) {
    step != Receive(id) && step != TimeOut(id) && step != Cancel(id)
  }

  lemma {:induction false} WaitingStays(s: State, steps: seq<Step>, id: nat)
    requires Ok(s) && Possible(s, steps) && At(s, id, Waiting) && id in s.taken
    requires forall i :: 0 <= i < |steps| ==> LeavesWaiting(steps[i], id)
    ensures var s' := Run(s, steps); Ok(s') && At(s', id, Waiting) && id in s'.taken && s'.taken[id] == s.taken[id]
    decreases |steps|
  {
    if steps != [] {
      assert LeavesWaiting(steps[0], id);
      assert CallOk(s, id);
      StepKeeps(s, steps[0]);
      WaitingStays(Apply(s, steps[0]), steps[1..], id);
    }
  }

  /** An answer taken for a waiting call arrives: whatever runs meanwhile, short of the call giving up, once
      the reader has sent it the call receives it and ends with exactly that answer. */
  lemma AnswerArrives(s: State, id: nat, answer: Json, steps: seq<Step>)
    requires Ok(s) && At(s, id, Waiting) && id in s.pending && s.hand.None?
    requires Possible(Apply(s, Take(id, answer)), steps)
    requires forall i :: 0 <= i < |steps| ==> LeavesWaiting(steps[i], id)
    requires var s' := Run(Apply(s, Take(id, answer)), steps); s'.hand.None? || s'.hand.value.0 != id
    ensures var s' := Run(Apply(s, Take(id, answer)), steps);
      Enabled(s', Receive(id)) && Apply(s', Receive(id)).calls[id].pc == Answered(answer)
  {
    StepKeeps(s, Take(id, answer));
    WaitingStays(Apply(s, Take(id, answer)), steps, id);
    assert CallOk(Run(Apply(s, Take(id, answer)), steps), id);
  }

  /** With nothing in between: take, send, receive. */
  lemma TakePutReceive(s: State, id: nat, answer: Json)
    requires Ok(s) && At(s, id, Waiting) && id in s.pending && s.hand.None?
    ensures Possible(s, [Take(id, answer), Put, Receive(id)])
    ensures At(Run(s, [Take(id, answer), Put, Receive(id)]), id, Answered(answer))
  {
    var s1 := Apply(s, Take(id, answer));
    StepKeeps(s, Take(id, answer));
    assert CallOk(s, id) && CallOk(s1, id);
    RunThree(s, Take(id, answer), Put, Receive(id));
  }

  lemma RunThree(s: State, a: Step, b: Step, c: Step)
    requires Enabled(s, a) && Enabled(Apply(s, a), b) && Enabled(Apply(Apply(s, a), b), c)
    ensures Possible(s, [a, b, c]) && Run(s, [a, b, c]) == Apply(Apply(Apply(s, a), b), c)
  {
    var s2 := Apply(Apply(s, a), b);
    assert [a, b, c][1..] == [b, c] && [b, c][1..] == [c] && [c][1..] == [];
    assert Possible(Apply(s2, c), []) && Run(Apply(s2, c), []) == Apply(s2, c);
    assert Possible(s2, [c]) && Run(s2, [c]) == Apply(s2, c);
    assert Possible(Apply(s, a), [b, c]) && Run(Apply(s, a), [b, c]) == Apply(s2, c);
  }

  /** The life of a call: each place has its way on. */
  lemma CallsMove(s: State, id: nat)
    requires Ok(s) && id in s.calls
    ensures s.calls[id].pc == Numbered ==>
      Enabled(s, Insert(id)) && At(Apply(s, Insert(id)), id, Listed) && id in Apply(s, Insert(id)).pending
    ensures s.calls[id].pc == Listed ==>
      && Enabled(s, Send(id, true)) && At(Apply(s, Send(id, true)), id, Waiting)
      && Enabled(s, Send(id, false)) && At(Apply(s, Send(id, false)), id, SendFailed)
    ensures s.calls[id].pc == Waiting ==> Enabled(s, TimeOut(id)) && At(Apply(s, TimeOut(id)), id, TimedOut)
    ensures s.calls[id].pc == TimedOut ==>
      Enabled(s, Remove(id)) && At(Apply(s, Remove(id)), id, GaveUp) && id !in Apply(s, Remove(id)).pending
    ensures s.hand.Some? ==> Enabled(s, Put) && Apply(s, Put).hand.None?
  {
  }

  /** The first answer taken for a number stands: later ones find no entry. */
  lemma {:induction false} FirstAnswerStands(s: State, steps: seq<Step>, id: nat)
    requires Ok(s) && Possible(s, steps) && id in s.taken
    ensures id in Run(s, steps).taken && Run(s, steps).taken[id] == s.taken[id]
    decreases |steps|
  {
    if steps != [] {
      assert CallOk(s, id);
      StepKeeps(s, steps[0]);
      FirstAnswerStands(Apply(s, steps[0]), steps[1..], id);
    }
  }

  /** The reader's send never waits: whenever it holds an answer the channel has room for it. */
  lemma PutNeverBlocks(steps: seq<Step>)
    requires Possible(Init, steps) && Run(Init, steps).hand.Some?
    ensures var s := Run(Init, steps); s.hand.value.0 in s.calls && s.calls[s.hand.value.0].mail == []
  {
    RunKeeps(Init, steps);
    assert CallOk(Run(Init, steps), Run(Init, steps).hand.value.0);
  }

  // ---------------------------------------------------------------- notifications

  const MAX_NOTIFICATIONS := 200

  class Notifications {
    var queue: seq<Json>

    constructor ()
      ensures queue == []
    {
      queue := [];
    }

    /** Push, then drain the oldest overflow. */
    method Push(message: Json)
      modifies this
      ensures var all := old(queue) + [message];
        var n := if |all| < 200 then |all| else 200;
        queue == all[|all| - n..]
    {
      queue := queue + [message];
      var len := |queue|;
      if len > MAX_NOTIFICATIONS { queue := queue[len - MAX_NOTIFICATIONS..]; }
    }

    method Poll() returns (all: seq<Json>)
      modifies this
      ensures all == old(queue) && queue == []
    {
      all := queue;
      queue := [];
    }
  }

  function Pushed(queue: seq<Json>, messages: seq<Json>): seq<Json> {
    if messages == [] then queue
    else Scrollback.Last(Pushed(queue, messages[..|messages| - 1]) + [messages[|messages| - 1]], MAX_NOTIFICATIONS)
  }

  /** However many arrive between two polls, a poll gets the latest 200 in order. */
  lemma PollGetsLatest(messages: seq<Json>)
    ensures var n := if |messages| < 200 then |messages| else 200;
      Pushed([], messages) == messages[|messages| - n..]
  {
    PushedIsLast(messages);
  }

  lemma {:induction false} PushedIsLast(messages: seq<Json>)
    ensures Pushed([], messages) == Scrollback.Last(messages, MAX_NOTIFICATIONS)
    decreases |messages|
  {
    if messages != [] {
      var init := messages[..|messages| - 1];
      var m := messages[|messages| - 1];
      PushedIsLast(init);
      Scrollback.LastOfLast(init, [m], MAX_NOTIFICATIONS);
      assert messages == init + [m];
    }
  }
}
