/**
 The event hub: bounded per-subscriber channels.  Publishing and subscribing exclude each other, but a
 receiver may take events or hang up between any two sends of one publication, so each send is a step.
 A channel remembers what was taken from it and how much had been published when it was opened.
 */
module EventHub {
  import opened Prelude

  const CAPACITY := 256

  type Event = string

  datatype Channel = Channel(queue: seq<Event>, open: bool, got: seq<Event>, since: nat)

  /** A publication under way: the event, the next subscriber to offer it to, those kept so far. */
  datatype Sending = Sending(e: Event, i: nat, kept: seq<nat>)

  datatype Hub = Hub(subs: seq<nat>, chans: seq<Channel>, log: seq<Event>, sending: Option<Sending>)

  const Boot: Hub := Hub([], [], [], None)

  datatype Step = Subscribe | Begin(e: Event) | Offer | Finish | Receive(c: nat) | HangUp(c: nat)

  function TrySend(ch: Channel, e: Event): (Channel, bool) {
    if ch.open && |ch.queue| < CAPACITY then (ch.(queue := ch.queue + [e]), true) else (ch, false)
  }

  predicate Enabled(h: Hub, step: Step) {
    match step
    case Subscribe => h.sending.None?
    case Begin(_) => h.sending.None?
    case Offer => h.sending.Some? && h.sending.value.i < |h.subs| && h.subs[h.sending.value.i] < |h.chans|
    case Finish => h.sending.Some? && h.sending.value.i == |h.subs|
    case Receive(c) => c < |h.chans| && h.chans[c].open && h.chans[c].queue != []
    case HangUp(c) => c < |h.chans|
  }

  function Apply(h: Hub, step: Step): Hub
    requires Enabled(h, step)
  {
    match step
    case Subscribe => h.(chans := h.chans + [Channel([], true, [], |h.log|)], subs := h.subs + [|h.chans|])
    case Begin(e) => h.(log := h.log + [e], sending := Some(Sending(e, 0, [])))
    case Offer =>
      var s := h.sending.value;
      var c := h.subs[s.i];
      var (ch, sent) := TrySend(h.chans[c], s.e);
      h.(chans := h.chans[c := ch], sending := Some(Sending(s.e, s.i + 1, if sent then s.kept + [c] else s.kept)))
    case Finish => h.(subs := h.sending.value.kept, sending := None)
    case Receive(c) =>
      var ch := h.chans[c];
      h.(chans := h.chans[c := ch.(queue := ch.queue[1..], got := ch.got + [ch.queue[0]])])
    case HangUp(c) => h.(chans := h.chans[c := h.chans[c].(open := false, queue := [])])
  }

  predicate Possible(h: Hub, steps: seq<Step>)
    decreases |steps|
  {
    steps == [] || (Enabled(h, steps[0]) && Possible(Apply(h, steps[0]), steps[1..]))
  }

  function Run(h: Hub, steps: seq<Step>): Hub
    requires Possible(h, steps)
    decreases |steps|
  {
    if steps == [] then h else Run(Apply(h, steps[0]), steps[1..])
  }

  // ---------------------------------------------------------------- invariant

  /** Subscribers that have yet to be offered the event being published. */
  function Todo(h: Hub): seq<nat> {
    if h.sending.Some? && h.sending.value.i <= |h.subs| then h.subs[h.sending.value.i..] else []
  }

  /** The subscriber list as it will be if every send still due succeeds. */
  function Listed(h: Hub): seq<nat> {
    if h.sending.Some? then h.sending.value.kept + Todo(h) else h.subs
  }

  ghost predicate ListOk(h: Hub) {
    && NoDup(Listed(h)) && (forall c :: c in Listed(h) ==> c < |h.chans|)
    && (h.sending.Some? ==> h.sending.value.i <= |h.subs| && h.log != [] && h.log[|h.log| - 1] == h.sending.value.e)
  }

  function Held(ch: Channel): seq<Event> { ch.got + ch.queue }

  /** What a subscriber has had is a gap-free prefix of what was published since it subscribed; while it
      is listed and connected it is everything, save an event still on its way to it. */
  ghost predicate ChannelOk(h: Hub, c: nat)
    requires c < |h.chans|
  {
    var ch := h.chans[c];
    && |ch.queue| <= CAPACITY
    && ch.since <= |h.log|
    && Held(ch) <= h.log[ch.since..]
    && (c in Listed(h) && ch.open ==> ch.since + |Held(ch)| == |h.log| - if c in Todo(h) then 1 else 0)
  }

  ghost predicate Ok(h: Hub) { ListOk(h) && forall c: nat :: c < |h.chans| ==> ChannelOk(h, c) }

  lemma SubscribeKeeps(h: Hub)
    requires Ok(h) && Enabled(h, Subscribe)
    ensures Ok(Apply(h, Subscribe))
  {
    var h' := Apply(h, Subscribe);
    assert h'.log[|h.log|..] == [];
    assert forall i :: 0 <= i < |h.subs| ==> h.subs[i] in Listed(h);
    forall c: nat | c < |h'.chans| ensures ChannelOk(h', c) {
      if c < |h.chans| { assert ChannelOk(h, c); }
    }
  }

  lemma BeginKeeps(h: Hub, e: Event)
    requires Ok(h) && Enabled(h, Begin(e))
    ensures Ok(Apply(h, Begin(e)))
  {
    var h' := Apply(h, Begin(e));
    assert Listed(h') == h.subs && Todo(h') == h.subs;
    forall c: nat | c < |h'.chans| ensures ChannelOk(h', c) {
      assert ChannelOk(h, c);
      assert h'.log[h.chans[c].since..] == h.log[h.chans[c].since..] + [e];
    }
  }

  lemma OfferLists(h: Hub)
    requires ListOk(h) && Enabled(h, Offer)
    ensures var h' := Apply(h, Offer); var c := h.subs[h.sending.value.i];
      && ListOk(h')
      && c in Todo(h) && c !in Todo(h') && c in Listed(h)
      && (c in Listed(h') <==> TrySend(h.chans[c], h.sending.value.e).1)
      && (forall d :: d != c ==> (d in Todo(h') <==> d in Todo(h)) && (d in Listed(h') <==> d in Listed(h)))
  {
    var h' := Apply(h, Offer);
    var s := h.sending.value;
    var c := h.subs[s.i];
    OfferMoves(h);
    SplitList(s.kept, c, Todo(h'));
    SplitTodo(c, Todo(h'));
    if TrySend(h.chans[c], s.e).1 { assert Listed(h') == Listed(h); }
  }

  lemma SplitTodo(c: nat, todo: seq<nat>)
    ensures forall d :: d in [c] + todo <==> d in todo || d == c
  {
  }

  lemma OfferMoves(h: Hub)
    requires ListOk(h) && Enabled(h, Offer)
    ensures var h' := Apply(h, Offer); var s := h.sending.value; var c := h.subs[s.i];
      && Todo(h) == [c] + Todo(h')
      && Listed(h) == s.kept + [c] + Todo(h')
      && Listed(h') == if TrySend(h.chans[c], s.e).1 then s.kept + [c] + Todo(h') else s.kept + Todo(h')
  {
    TakeNext(h.sending.value.kept, h.subs, h.sending.value.i);
  }

  lemma TakeNext(kept: seq<nat>, subs: seq<nat>, i: nat)
    requires i < |subs|
    ensures subs[i..] == [subs[i]] + subs[i + 1..]
    ensures kept + subs[i..] == kept + [subs[i]] + subs[i + 1..]
  {
  }

  lemma SplitList(kept: seq<nat>, c: nat, todo: seq<nat>)
    requires NoDup(kept + [c] + todo)
    ensures c !in kept && c !in todo && NoDup(kept + todo)
    ensures forall d :: d in kept + [c] + todo <==> d in kept + todo || d == c
  {
    var all := kept + [c] + todo;
    assert all[|kept|] == c;
    assert forall k :: 0 <= k < |todo| ==> all[|kept| + 1 + k] == todo[k];
    assert forall k :: 0 <= k < |kept| ==> all[k] == kept[k];
    var rest := kept + todo;
    forall i, j | 0 <= i < j < |rest| ensures rest[i] != rest[j] {
      assert rest[i] == all[if i < |kept| then i else i + 1] && rest[j] == all[if j < |kept| then j else j + 1];
    }
  }

  lemma OfferKeeps(h: Hub)
    requires Ok(h) && Enabled(h, Offer)
    ensures Ok(Apply(h, Offer))
  {
    var h' := Apply(h, Offer);
    var c := h.subs[h.sending.value.i];
    OfferLists(h);
    OfferedOk(h, c);
    forall d: nat | d < |h'.chans| && d != c ensures ChannelOk(h', d) { assert ChannelOk(h, d); }
  }

  lemma OfferedOk(h: Hub, c: nat)
    requires Ok(h) && Enabled(h, Offer) && c == h.subs[h.sending.value.i]
    ensures ChannelOk(Apply(h, Offer), c)
  {
    OfferLists(h);
    assert ChannelOk(h, c);
    if TrySend(h.chans[c], h.sending.value.e).1 { SendFits(h.chans[c], h.log, h.sending.value.e); }
  }

  lemma SendFits(ch: Channel, log: seq<Event>, e: Event)
    requires ch.since + |Held(ch)| == |log| - 1 && log[|log| - 1] == e && Held(ch) <= log[ch.since..]
    ensures Held(ch.(queue := ch.queue + [e])) == log[ch.since..]
  {
    assert Held(ch.(queue := ch.queue + [e])) == Held(ch) + [e];
    assert log[ch.since..] == log[ch.since..|log| - 1] + [e];
  }

  lemma FinishKeeps(h: Hub)
    requires Ok(h) && Enabled(h, Finish)
    ensures Ok(Apply(h, Finish))
  {
    var h' := Apply(h, Finish);
    assert Todo(h) == [] && Listed(h) == Listed(h');
    forall c: nat | c < |h'.chans| ensures ChannelOk(h', c) { assert ChannelOk(h, c); }
  }

  lemma ReceiverKeeps(h: Hub, step: Step)
    requires Ok(h) && Enabled(h, step) && (step.Receive? || step.HangUp?)
    ensures Ok(Apply(h, step))
  {
    var h' := Apply(h, step);
    assert Listed(h') == Listed(h) && Todo(h') == Todo(h);
    forall c: nat | c < |h'.chans| ensures ChannelOk(h', c) {
      assert ChannelOk(h, c);
      if c == step.c {
        if step.Receive? { assert Held(h'.chans[c]) == Held(h.chans[c]); }
        else { assert Held(h'.chans[c]) == h.chans[c].got <= Held(h.chans[c]); }
      }
    }
  }

  lemma StepKeeps(h: Hub, step: Step)
    requires Ok(h) && Enabled(h, step)
    ensures Ok(Apply(h, step))
  {
    match step
    case Subscribe => SubscribeKeeps(h);
    case Begin(e) => BeginKeeps(h, e);
    case Offer => OfferKeeps(h);
    case Finish => FinishKeeps(h);
    case Receive(_) => ReceiverKeeps(h, step);
    case HangUp(_) => ReceiverKeeps(h, step);
  }

  lemma {:induction false} RunKeeps(h: Hub, steps: seq<Step>)
    requires Ok(h) && Possible(h, steps)
    ensures Ok(Run(h, steps))
    decreases |steps|
  {
    if steps != [] {
      StepKeeps(h, steps[0]);
      RunKeeps(Apply(h, steps[0]), steps[1..]);
    }
  }

  /** In every interleaving each subscriber has a gap-free prefix of what was published since it
      subscribed, at most 256 events wait for it, and between publications a connected subscriber that
      is still listed has missed nothing. */
  lemma HubDeliversPrefixes(steps: seq<Step>, c: nat)
    requires Possible(Boot, steps) && c < |Run(Boot, steps).chans|
    ensures var h := Run(Boot, steps); var ch := h.chans[c];
      && ch.since <= |h.log|
      && Held(ch) <= h.log[ch.since..]
      && |ch.queue| <= 256
      && (h.sending.None? && c in h.subs && ch.open ==> Held(ch) == h.log[ch.since..])
  {
    RunKeeps(Boot, steps);
    assert ChannelOk(Run(Boot, steps), c);
  }

  // ---------------------------------------------------------------- dropped subscribers

  predicate Dropped(h: Hub, c: nat) { c < |h.chans| && c !in Listed(h) }

  lemma DroppedStep(h: Hub, step: Step, c: nat)
    requires Ok(h) && Enabled(h, step) && Dropped(h, c)
    ensures Dropped(Apply(h, step), c) && Held(Apply(h, step).chans[c]) <= Held(h.chans[c])
  {
    var h' := Apply(h, step);
    match step
    case Offer => OfferLists(h);
    case Finish => assert Listed(h) == Listed(h');
    case Receive(d) => if d == c { assert Held(h'.chans[c]) == Held(h.chans[c]); }
    case _ =>
  }

  /** Once dropped, a subscriber is sent nothing, whatever is published afterwards. */
  lemma {:induction false} DroppedGetsNothing(h: Hub, steps: seq<Step>, c: nat)
    requires Ok(h) && Possible(h, steps) && Dropped(h, c)
    ensures Dropped(Run(h, steps), c) && Held(Run(h, steps).chans[c]) <= Held(h.chans[c])
    decreases |steps|
  {
    if steps != [] {
      StepKeeps(h, steps[0]);
      DroppedStep(h, steps[0], c);
      DroppedGetsNothing(Apply(h, steps[0]), steps[1..], c);
    }
  }

  /** A subscriber is dropped exactly by an offer that finds it hung up or its channel full. */
  lemma DroppedIff(h: Hub, step: Step, c: nat)
    requires Ok(h) && Enabled(h, step) && c < |h.chans| && c in Listed(h)
    ensures Dropped(Apply(h, step), c) <==>
            step.Offer? && h.subs[h.sending.value.i] == c && (!h.chans[c].open || |h.chans[c].queue| == 256)
  {
    var h' := Apply(h, step);
    assert ChannelOk(h, c);
    match step
    case Subscribe => assert Listed(h)[..] == h.subs; assert Listed(h') == h.subs + [|h.chans|];
    case Begin(_) => assert Listed(h') == h.subs;
    case Offer => OfferLists(h);
    case Finish => assert Listed(h) == Listed(h');
    case _ => assert Listed(h) == Listed(h');
  }

  /** A new subscriber is listed with an empty open channel, and has everything published from then on to come. */
  lemma SubscribedIsListed(h: Hub)
    requires Ok(h) && Enabled(h, Subscribe)
    ensures var h' := Apply(h, Subscribe); var c := |h.chans|;
      && |h'.chans| == c + 1 && c in Listed(h') && h'.chans[c] == Channel([], true, [], |h.log|)
      && h'.chans[..c] == h.chans && Listed(h') == Listed(h) + [c]
  {
  }

  /** A publication under way always has a next step, and comes nearer its end with each. */
  lemma PublicationMoves(h: Hub) returns (step: Step)
    requires Ok(h) && h.sending.Some?
    ensures (step == Offer || step == Finish) && Enabled(h, step)
    ensures step == Offer ==> |Todo(Apply(h, step))| == |Todo(h)| - 1
    ensures step == Finish ==> Apply(h, step).sending == None && Todo(h) == []
  {
    step := if h.sending.value.i < |h.subs| then Offer else Finish;
    if step == Offer {
      assert Todo(h)[0] in Listed(h);
      OfferMoves(h);
    }
  }

  /** What a receiver takes is the oldest event waiting, and one that hung up takes none and is sent none. */
  lemma ReceiverTakes(h: Hub, c: nat)
    requires Ok(h) && c < |h.chans|
    ensures Enabled(h, Receive(c)) <==> h.chans[c].open && h.chans[c].queue != []
    ensures Enabled(h, Receive(c)) ==>
      var ch := h.chans[c]; var r := Apply(h, Receive(c)).chans[c];
      ch.queue == [r.got[|r.got| - 1]] + r.queue && r.got[..|r.got| - 1] == ch.got && r.open
    ensures !Apply(h, HangUp(c)).chans[c].open && Apply(h, HangUp(c)).chans[c].got == h.chans[c].got
  {
  }

  // ---------------------------------------------------------------- the hub itself

  /** The sends to the first n subscribers. */
  function Offers(h: Hub, e: Event, n: nat): Hub
    requires h.sending.None? && n <= |h.subs| && forall c :: c in h.subs ==> c < |h.chans|
    ensures var r := Offers(h, e, n);
      && r.subs == h.subs && |r.chans| == |h.chans|
      && r.sending.Some? && r.sending.value.i == n && r.sending.value.e == e
  {
    if n == 0 then Apply(h, Begin(e)) else assert h.subs[n - 1] in h.subs; Apply(Offers(h, e, n - 1), Offer)
  }

  /** The hub; `published` is a history that nothing reads. */
  class BuiltinEventHub {
    var subscribers: seq<nat>
    var channels: seq<Channel>
    var published: seq<Event>

    function View(): Hub
      reads this
    {
      Hub(subscribers, channels, published, None)
    }

    constructor ()
      ensures View() == Boot
    {
      subscribers, channels, published := [], [], [];
    }

    method Subscribe() returns (rx: nat)
      modifies this
      ensures View() == Apply(old(View()), Step.Subscribe)
      ensures rx == |old(channels)|
    {
      rx := |channels|;
      channels := channels + [Channel([], true, [], |published|)];
      subscribers := subscribers + [rx];
    }

    /** With nobody interleaving, one publication is one Begin, every Offer in order, and one Finish. */
    method Publish(e: Event)
      requires forall c :: c in subscribers ==> c < |channels|
      modifies this
      ensures View() == Apply(Offers(old(View()), e, |old(subscribers)|), Finish)
    {
      ghost var start := View();
      published := published + [e];
      var kept: seq<nat> := [];
      for i := 0 to |subscribers|
        invariant subscribers == start.subs && published == start.log + [e]
        invariant forall c :: c in subscribers ==> c < |channels|
        invariant Offers(start, e, i) == Hub(subscribers, channels, published, Some(Sending(e, i, kept)))
      {
        var c := subscribers[i];
        assert c in subscribers;
        var (ch, sent) := TrySend(channels[c], e);
        channels := channels[c := ch];
        if sent { kept := kept + [c]; }
      }
      subscribers := kept;
    }
  }
}
