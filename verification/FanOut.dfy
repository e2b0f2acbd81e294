/**
 The fan-out over all subscribers of a terminal, as the retain loop under the subscriber lock does it.
 Left alone, the loop does to every listed channel exactly what the protocol's reader steps do to the one
 channel they follow, and touches no other channel.
 */
module FanOut {
  import opened Prelude
  import opened Scrollback
  import opened AttachProtocol

  /** The channel after one turn of the loop, and whether its subscriber is retained. */
  function Offer(ch: Chan, k: nat, chunk: Bytes): (Chan, bool) {
    if !ch.rxAlive then (ch, false)
    else
      var sent := Push(ch, Output(k, chunk)).(pending := ch.pending + |chunk|, enqueued := ch.enqueued + 1);
      if sent.pending > MAX_PENDING then (Push(sent, OverflowNote).(shed := true), false) else (sent, true)
  }

  /** The reader's steps for one listed client, from taking the lock to letting go of it. */
  function Uninterrupted(s: State): seq<Action>
    requires s.t.pc.Locked?
  {
    [ByReader(AddCharge), ByReader(SendChunk)]
    + if !s.ch.rxAlive then [ByReader(UndoCharge)]
      else if s.ch.pending + |Chunk(s.t)| > MAX_PENDING then [ByReader(CheckCap), ByReader(SendOverflow)]
      else [ByReader(CheckCap)]
  }

  lemma AfterTwo(s: State, acts: seq<Action>)
    requires |acts| >= 2 && Enabled(s, acts[0]) && Enabled(Apply(s, acts[0]), acts[1])
    requires Possible(Apply(Apply(s, acts[0]), acts[1]), acts[2..])
    ensures Possible(s, acts) && After(s, acts) == After(Apply(Apply(s, acts[0]), acts[1]), acts[2..])
  {
    assert acts[1..][1..] == acts[2..] && acts[1..][0] == acts[1];
  }

  lemma AfterOne(s: State, a: Action)
    requires Enabled(s, a)
    ensures Possible(s, [a]) && After(s, [a]) == Apply(s, a)
  {
    assert [a][1..] == [];
  }

  /** One turn of the loop is the protocol's steps with nothing in between. */
  lemma OfferIsProtocol(s: State)
    requires s.t.pc.Locked?
    ensures Possible(s, Uninterrupted(s))
    ensures var s' := After(s, Uninterrupted(s)); var (ch, retained) := Offer(s.ch, s.t.fanned, Chunk(s.t));
      && s'.ch == ch && s'.t == Unlock(s.t, retained) && s'.c == s.c && s'.w == s.w
  {
    var acts := Uninterrupted(s);
    var s2 := Apply(Apply(s, ByReader(AddCharge)), ByReader(SendChunk));
    if !s.ch.rxAlive {
      AfterOne(s2, ByReader(UndoCharge));
      assert acts[2..] == [ByReader(UndoCharge)];
    } else if s.ch.pending + |Chunk(s.t)| > MAX_PENDING {
      var last := [ByReader(CheckCap), ByReader(SendOverflow)];
      assert acts[2..] == last;
      assert last[2..] == [];
      AfterTwo(s2, last);
    } else {
      AfterOne(s2, ByReader(CheckCap));
      assert acts[2..] == [ByReader(CheckCap)];
    }
    AfterTwo(s, acts);
  }

  /** Whom the loop retains, in order. */
  function Retained(subs: seq<nat>, chans: map<nat, Chan>, k: nat, chunk: Bytes): seq<nat>
    requires forall c :: c in subs ==> c in chans
  {
    if subs == [] then []
    else
      var c := subs[|subs| - 1];
      Retained(subs[..|subs| - 1], chans, k, chunk) + if Offer(chans[c], k, chunk).1 then [c] else []
  }

  lemma {:induction false} RetainedIsListed(subs: seq<nat>, chans: map<nat, Chan>, k: nat, chunk: Bytes)
    requires NoDup(subs) && forall c :: c in subs ==> c in chans
    ensures NoDup(Retained(subs, chans, k, chunk))
    ensures forall c :: c in Retained(subs, chans, k, chunk) <==> c in subs && Offer(chans[c], k, chunk).1
    decreases |subs|
  {
    if subs != [] {
      var init := subs[..|subs| - 1];
      assert subs == init + [subs[|subs| - 1]];
      RetainedIsListed(init, chans, k, chunk);
    }
  }

  /** The channels after the loop has served the subscribers in `done`. */
  ghost predicate Served(before: map<nat, Chan>, after: map<nat, Chan>, done: seq<nat>, k: nat, chunk: Bytes) {
    && after.Keys == before.Keys
    && forall c :: c in before ==> after[c] == if c in done then Offer(before[c], k, chunk).0 else before[c]
  }

  class Subscribers {
    var exited: bool
    var listed: seq<nat>
    var channels: map<nat, Chan>

    ghost predicate Valid()
      reads this
    {
      NoDup(listed) && forall c :: c in listed ==> c in channels
    }

    constructor ()
      ensures Valid() && !exited && listed == [] && channels == map[]
    {
      exited, listed, channels := false, [], map[];
    }

    /** `subscribe`: a dead terminal answers with the notice, a live one lists the client. */
    method Subscribe(c: nat, ch: Chan)
      requires Valid() && c !in channels
      modifies this
      ensures Valid() && exited == old(exited)
      ensures listed == if exited then old(listed) else old(listed) + [c]
      ensures channels == old(channels)[c := if exited && ch.rxAlive then Push(ch, ExitedNote) else ch]
    {
      assert c !in listed;
      if exited {
        channels := channels[c := if ch.rxAlive then Push(ch, ExitedNote) else ch];
        return;
      }
      listed := listed + [c];
      channels := channels[c := ch];
    }

    /** `notify_exited`, once: a notice for everyone listed whose writer is still there. */
    method NotifyExited()
      requires Valid()
      modifies this
      ensures Valid() && exited && channels.Keys == old(channels).Keys
      ensures old(exited) ==> listed == old(listed) && channels == old(channels)
      ensures !old(exited) ==>
        && (forall c :: c in listed <==> c in old(listed) && old(channels)[c].rxAlive)
        && (forall c :: c in channels ==>
              channels[c] == if c in listed then Push(old(channels)[c], ExitedNote) else old(channels)[c])
    {
      if exited { return; }
      exited := true;
      ghost var before := channels;
      var subs := listed;
      var kept: seq<nat> := [];
      for i := 0 to |subs|
        invariant exited && listed == subs && channels.Keys == before.Keys
        invariant NoDup(kept) && forall c :: c in kept <==> c in subs[..i] && before[c].rxAlive
        invariant forall c :: c in channels ==>
          channels[c] == if c in kept then Push(before[c], ExitedNote) else before[c]
      {
        var c := subs[i];
        assert subs[..i + 1] == subs[..i] + [c] && c !in subs[..i];
        if channels[c].rxAlive {
          channels := channels[c := Push(channels[c], ExitedNote)];
          kept := kept + [c];
        }
      }
      assert subs[..|subs|] == subs;
      listed := kept;
    }

    /** The loop of `append_output`, once for every listed subscriber. */
    method FanOut(k: nat, chunk: Bytes)
      requires Valid()
      modifies this
      ensures Valid()
      ensures listed == Retained(old(listed), old(channels), k, chunk)
      ensures Served(old(channels), channels, old(listed), k, chunk) && exited == old(exited)
    {
      ghost var before := channels;
      var subs := listed;
      var kept: seq<nat> := [];
      for i := 0 to |subs|
        invariant exited == old(exited) && listed == subs && Served(before, channels, subs[..i], k, chunk)
        invariant kept == Retained(subs[..i], before, k, chunk)
      {
        var c := subs[i];
        assert subs[..i + 1] == subs[..i] + [c] && subs[..i + 1][..i] == subs[..i];
        var ch, retained := OfferTo(channels[c], k, chunk);
        channels := channels[c := ch];
        if retained { kept := kept + [c]; }
      }
      assert subs[..|subs|] == subs;
      RetainedIsListed(subs, before, k, chunk);
      listed := kept;
    }

    /** One turn: charge before queueing, then shed or undo. */
    static method OfferTo(was: Chan, k: nat, chunk: Bytes) returns (ch: Chan, retained: bool)
      ensures (ch, retained) == Offer(was, k, chunk)
    {
      ch := was.(pending := was.pending + |chunk|);
      if ch.rxAlive {
        ch := Push(ch, Output(k, chunk)).(enqueued := ch.enqueued + 1);
        retained := ch.pending <= MAX_PENDING;
        if !retained { ch := Push(ch, OverflowNote).(shed := true); }
      } else {
        ch := ch.(pending := ch.pending - |chunk|);
        retained := false;
      }
    }
  }

  /** A subscriber is dropped from the list exactly when its writer is gone or the chunk takes its
      backlog over the cap, and in the second case an overflow notice is the last thing it is sent. */
  lemma ShedExactly(ch: Chan, k: nat, chunk: Bytes)
    ensures var (r, retained) := Offer(ch, k, chunk);
      && (!retained <==> !ch.rxAlive || ch.pending + |chunk| > MAX_PENDING)
      && (ch.rxAlive && !retained <==> r.queue == ch.queue + [Output(k, chunk), OverflowNote])
      && (retained <==> r.queue == ch.queue + [Output(k, chunk)])
      && r.pending == ch.pending + if ch.rxAlive then |chunk| else 0
  {
    assert ch.queue + [Output(k, chunk)] + [OverflowNote] == ch.queue + [Output(k, chunk), OverflowNote];
    assert |ch.queue + [Output(k, chunk)]| != |ch.queue + [Output(k, chunk), OverflowNote]|;
  }
}
