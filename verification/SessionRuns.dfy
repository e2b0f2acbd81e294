/** The session set over whole runs: eviction is least-recently-used, and revisions identify the records. */
module SessionRuns {
  import opened Prelude
  import opened Sessions

  datatype Op =
    | DoIssue(token: Token, at: Time)
    | DoPurge(at: Time)
    | DoRevoke(token: Token)
    | DoReset(token: Token, at: Time)
    | DoReanchor(at: Time)
    | DoRestore(records: seq<Session>)
    | DoFind(token: Token, at: Time)

  /** The set, how often its revision was bumped, and every issue, restore and successful use in order. */
  datatype State = State(a: Auth, bumps: nat, touches: seq<Token>)

  function Boot(minutes: nat): State { State(Auth([], 0, minutes), 0, []) }

  function Do(a: Auth, op: Op): Auth {
    match op
    case DoIssue(token, at) => Issue(a, token, at)
    case DoPurge(at) => Purge(a, at)
    case DoRevoke(token) => Revoke(a, token)
    case DoReset(token, at) => Reset(a, token, at)
    case DoReanchor(at) => Reanchor(a, at)
    case DoRestore(records) => Restore(a, records)
    case DoFind(token, at) => Find(a, token, at)
  }

  function Tokens(s: seq<Session>): seq<Token> { seq(|s|, i requires 0 <= i < |s| => s[i].token) }

  function Touched(a: Auth, op: Op): seq<Token> {
    match op
    case DoIssue(token, _) => [token]
    case DoReset(token, _) => [token]
    case DoRestore(_) => Tokens(Do(a, op).sessions)
    case DoFind(token, at) => if Hits(a.sessions, token, at) then [token] else []
    case _ => []
  }

  function PurgeBumps(a: Auth, at: Time): nat { if |LiveOf(a.sessions, at)| != |a.sessions| then 1 else 0 }

  function Bumps(a: Auth, op: Op): nat {
    match op
    case DoIssue(_, at) => PurgeBumps(a, at) + 1
    case DoPurge(at) => PurgeBumps(a, at)
    case DoRevoke(token) => if |Others(a.sessions, token)| != |a.sessions| then 1 else 0
    case DoReset(_, _) => 2
    case DoReanchor(_) => if a.sessions == [] then 0 else 1
    case DoRestore(_) => 1
    case DoFind(_, _) => 0
  }

  function Apply(s: State, op: Op): State {
    State(Do(s.a, op), s.bumps + Bumps(s.a, op), s.touches + Touched(s.a, op))
  }

  function Run(s: State, ops: seq<Op>): State
    decreases |ops|
  {
    if ops == [] then s else Run(Apply(s, ops[0]), ops[1..])
  }

  // ---------------------------------------------------------------- revisions

  /** Same records, in any order. */
  predicate SameRecords(a: Auth, b: Auth) { multiset(a.sessions) == multiset(b.sessions) }

  lemma {:induction false} LiveShrinks(s: seq<Session>, now: Time)
    ensures |LiveOf(s, now)| <= |s|
    ensures |LiveOf(s, now)| == |s| ==> LiveOf(s, now) == s
    decreases |s|
  {
    if s != [] {
      LiveShrinks(s[..|s| - 1], now);
      assert s[..|s| - 1] + [s[|s| - 1]] == s;
    }
  }

  lemma {:induction false} OthersShrink(s: seq<Session>, token: Token)
    ensures |Others(s, token)| <= |s|
    ensures |Others(s, token)| == |s| ==> Others(s, token) == s
    decreases |s|
  {
    if s != [] {
      OthersShrink(s[..|s| - 1], token);
      assert s[..|s| - 1] + [s[|s| - 1]] == s;
    }
  }

  lemma MoveLastSame(s: seq<Session>, i: nat)
    requires i < |s|
    ensures multiset(MoveLast(s, i)) == multiset(s)
  {
    assert s == s[..i] + [s[i]] + s[i + 1..];
  }

  /** The revision counts the bumps, modulo the word, and no bump means no change of records. */
  lemma BumpCounts(s: State, op: Op)
    requires s.a.rev == s.bumps % U64
    ensures Apply(s, op).a.rev == Apply(s, op).bumps % U64
  {
    BumpWraps(s.bumps);
    BumpWraps(s.bumps + 1);
  }

  lemma BumpWraps(n: nat)
    ensures Bump(n % U64) == (n + 1) % U64
  {
  }

  lemma NoBumpSameRecords(a: Auth, op: Op)
    requires Bumps(a, op) == 0
    ensures SameRecords(a, Do(a, op))
  {
    match op
    case DoPurge(at) => LiveShrinks(a.sessions, at);
    case DoRevoke(token) => OthersShrink(a.sessions, token);
    case DoFind(token, at) =>
      if Hits(a.sessions, token, at) { MoveLastSame(a.sessions, Position(a.sessions, token)); }
    case _ =>
  }

  lemma {:induction false} BumpsAlong(s: State, ops: seq<Op>)
    requires s.a.rev == s.bumps % U64
    ensures var s' := Run(s, ops);
      && s'.a.rev == s'.bumps % U64 && s'.bumps >= s.bumps
      && (s'.bumps == s.bumps ==> SameRecords(s.a, s'.a))
    decreases |ops|
  {
    if ops != [] {
      BumpCounts(s, ops[0]);
      if Bumps(s.a, ops[0]) == 0 { NoBumpSameRecords(s.a, ops[0]); }
      BumpsAlong(Apply(s, ops[0]), ops[1..]);
    }
  }

  lemma {:induction false} RunAppend(s: State, ops: seq<Op>, more: seq<Op>)
    ensures Run(s, ops + more) == Run(Run(s, ops), more)
    decreases |ops|
  {
    if ops == [] { assert ops + more == more; }
    else {
      assert (ops + more)[1..] == ops[1..] + more;
      RunAppend(Apply(s, ops[0]), ops[1..], more);
    }
  }

  lemma SameModulo(x: nat, y: nat)
    requires x <= y < x + U64 && x % U64 == y % U64
    ensures x == y
  {
  }

  /** Two moments of one run with equal revisions hold the same records up to order, as long as fewer than
      2^64 changes lie between them. */
  lemma EqualRevisionsEqualRecords(minutes: nat, ops: seq<Op>, more: seq<Op>)
    requires Run(Run(Boot(minutes), ops), more).bumps < Run(Boot(minutes), ops).bumps + U64
    requires Run(Boot(minutes), ops).a.rev == Run(Run(Boot(minutes), ops), more).a.rev
    ensures SameRecords(Run(Boot(minutes), ops).a, Run(Run(Boot(minutes), ops), more).a)
  {
    BumpsAlong(Boot(minutes), ops);
    var s := Run(Boot(minutes), ops);
    BumpsAlong(s, more);
    SameModulo(s.bumps, Run(s, more).bumps);
  }

  // ---------------------------------------------------------------- recency

  /** Index of the latest touch, or -1. */
  function LastTouch(touches: seq<Token>, t: Token): (k: int)
    ensures -1 <= k < |touches|
    ensures k >= 0 ==> touches[k] == t
    ensures forall j :: k < j < |touches| ==> touches[j] != t
  {
    if touches == [] then -1
    else if touches[|touches| - 1] == t then |touches| - 1
    else LastTouch(touches[..|touches| - 1], t)
  }

  /** Records stand in the order of their tokens' latest touches; so their tokens are distinct. */
  ghost predicate InRecency(s: seq<Session>, touches: seq<Token>) {
    && (forall i :: 0 <= i < |s| ==> LastTouch(touches, s[i].token) >= 0)
    && (forall i, j :: 0 <= i < j < |s| ==> LastTouch(touches, s[i].token) < LastTouch(touches, s[j].token))
  }

  ghost predicate Stack(s: seq<Session>, touches: seq<Token>) { |s| <= MAX_SESSIONS && InRecency(s, touches) }

  /** Newly minted tokens are new; a persisted file holds distinct tokens not handed out by this process. */
  ghost predicate FreshOp(touches: seq<Token>, op: Op) {
    match op
    case DoIssue(token, _) => token !in touches
    case DoReset(token, _) => token !in touches
    case DoRestore(records) => NoDup(Tokens(records)) && forall t :: t in Tokens(records) ==> t !in touches
    case _ => true
  }

  ghost predicate FreshOps(s: State, ops: seq<Op>)
    decreases |ops|
  {
    ops == [] || (FreshOp(s.touches, ops[0]) && FreshOps(Apply(s, ops[0]), ops[1..]))
  }

  lemma TouchLast(touches: seq<Token>, t: Token, u: Token)
    ensures LastTouch(touches + [t], u) == if u == t then |touches| else LastTouch(touches, u)
  {
    assert (touches + [t])[..|touches|] == touches;
  }

  lemma AppendRecency(s: seq<Session>, x: Session, touches: seq<Token>)
    requires InRecency(s, touches) && LastTouch(touches, x.token) >= 0
    requires forall y :: y in s ==> LastTouch(touches, y.token) < LastTouch(touches, x.token)
    ensures InRecency(s + [x], touches)
  {
  }

  lemma {:induction false} LiveKeeps(s: seq<Session>, now: Time, touches: seq<Token>)
    requires InRecency(s, touches)
    ensures InRecency(LiveOf(s, now), touches)
    ensures forall x :: x in LiveOf(s, now) <==> x in s && IsValid(x, now)
    decreases |s|
  {
    if s != [] {
      var init := s[..|s| - 1];
      var x := s[|s| - 1];
      assert s == init + [x];
      LiveKeeps(init, now, touches);
      if IsValid(x, now) { AppendRecency(LiveOf(init, now), x, touches); }
    }
  }

  lemma {:induction false} OthersKeep(s: seq<Session>, token: Token, touches: seq<Token>)
    requires InRecency(s, touches)
    ensures InRecency(Others(s, token), touches)
    ensures forall x :: x in Others(s, token) <==> x in s && x.token != token
    decreases |s|
  {
    if s != [] {
      var init := s[..|s| - 1];
      var x := s[|s| - 1];
      assert s == init + [x];
      OthersKeep(init, token, touches);
      if x.token != token { AppendRecency(Others(init, token), x, touches); }
    }
  }

  /** A use or an issue: everything else keeps its order below the touched record. */
  lemma TouchTop(s: seq<Session>, x: Session, touches: seq<Token>)
    requires InRecency(s, touches) && forall y :: y in s ==> y.token != x.token
    ensures InRecency(s + [x], touches + [x.token])
  {
    forall i | 0 <= i < |s| ensures LastTouch(touches + [x.token], s[i].token) == LastTouch(touches, s[i].token) {
      assert s[i] in s;
      TouchLast(touches, x.token, s[i].token);
    }
    TouchLast(touches, x.token, x.token);
    AppendTop(s, x, touches + [x.token], |touches|);
  }

  lemma AppendTop(s: seq<Session>, x: Session, touches: seq<Token>, top: nat)
    requires InRecency(s, touches) && LastTouch(touches, x.token) == top
    requires forall i :: 0 <= i < |s| ==> LastTouch(touches, s[i].token) < top
    ensures InRecency(s + [x], touches)
  {
  }

  lemma WithoutOne(s: seq<Session>, i: nat, touches: seq<Token>)
    requires InRecency(s, touches) && i < |s|
    ensures InRecency(s[..i] + s[i + 1..], touches)
    ensures forall y :: y in s[..i] + s[i + 1..] ==> y in s && y.token != s[i].token
  {
    var r := s[..i] + s[i + 1..];
    assert forall k :: 0 <= k < |r| ==> r[k] == s[if k < i then k else k + 1];
  }

  lemma {:induction false} LastTouchOf(touches: seq<Token>, more: seq<Token>, i: nat)
    requires NoDup(more) && i < |more|
    ensures LastTouch(touches + more, more[i]) == |touches| + i
  {
    var all := touches + more;
    var k := LastTouch(all, more[i]);
    assert all[|touches| + i] == more[i];
    assert k >= |touches| + i;
    assert k >= |touches| ==> all[k] == more[k - |touches|];
  }

  lemma RestoreKeeps(records: seq<Session>, touches: seq<Token>)
    requires NoDup(Tokens(records))
    ensures InRecency(records, touches + Tokens(records))
  {
    forall i | 0 <= i < |records| ensures LastTouch(touches + Tokens(records), records[i].token) == |touches| + i {
      LastTouchOf(touches, Tokens(records), i);
    }
  }

  function Minted(a: Auth, token: Token, at: Time): Session { Session(token, Expiry(a.minutes, at)) }

  lemma IssueIs(a: Auth, token: Token, at: Time)
    ensures Issue(a, token, at).sessions == Pushed(LiveOf(a.sessions, at), Minted(a, token, at))
  {
  }

  lemma ResetIs(a: Auth, token: Token, at: Time)
    ensures Reset(a, token, at).sessions == [Minted(a, token, at)]
  {
  }

  lemma LiveStack(s: seq<Session>, at: Time, touches: seq<Token>)
    requires Stack(s, touches)
    ensures Stack(LiveOf(s, at), touches)
  {
    LiveKeeps(s, at, touches);
    LiveShrinks(s, at);
  }

  /** A new token is nobody's. */
  lemma NewToken(s: seq<Session>, touches: seq<Token>, token: Token)
    requires InRecency(s, touches) && token !in touches
    ensures forall y :: y in s ==> y.token != token
  {
    forall y | y in s ensures y.token != token { assert LastTouch(touches, y.token) >= 0; }
  }

  lemma PushKeeps(live: seq<Session>, x: Session, touches: seq<Token>)
    requires Stack(live, touches) && x.token !in touches
    ensures Stack(Pushed(live, x), touches + [x.token])
  {
    NewToken(live, touches, x.token);
    TouchTop(live, x, touches);
  }

  lemma IssueKeeps(a: Auth, touches: seq<Token>, token: Token, at: Time)
    requires Stack(a.sessions, touches) && token !in touches
    ensures Stack(Issue(a, token, at).sessions, touches + [token])
  {
    IssueIs(a, token, at);
    LiveStack(a.sessions, at, touches);
    PushKeeps(LiveOf(a.sessions, at), Minted(a, token, at), touches);
  }

  lemma ResetKeeps(a: Auth, touches: seq<Token>, token: Token, at: Time)
    requires token !in touches
    ensures Stack(Reset(a, token, at).sessions, touches + [token])
  {
    ResetIs(a, token, at);
    PushKeeps([], Minted(a, token, at), touches);
    assert [] + [Minted(a, token, at)] == [Minted(a, token, at)];
  }

  lemma RevokeKeeps(a: Auth, touches: seq<Token>, token: Token)
    requires Stack(a.sessions, touches)
    ensures Stack(Revoke(a, token).sessions, touches)
  {
    OthersKeep(a.sessions, token, touches);
    OthersShrink(a.sessions, token);
  }

  lemma RestoreStack(a: Auth, records: seq<Session>, touches: seq<Token>)
    requires NoDup(Tokens(records))
    ensures var kept := Restore(a, records).sessions; Stack(kept, touches + Tokens(kept))
  {
    var kept := Restore(a, records).sessions;
    assert forall i :: 0 <= i < |kept| ==> Tokens(kept)[i] == Tokens(records)[i];
    RestoreKeeps(kept, touches);
  }

  lemma FindKeeps(a: Auth, touches: seq<Token>, token: Token, at: Time)
    requires Stack(a.sessions, touches) && Hits(a.sessions, token, at)
    ensures Stack(Find(a, token, at).sessions, touches + [token])
  {
    var i := Position(a.sessions, token);
    WithoutOne(a.sessions, i, touches);
    TouchTop(a.sessions[..i] + a.sessions[i + 1..], a.sessions[i], touches);
  }

  lemma ReanchorKeeps(a: Auth, touches: seq<Token>, at: Time)
    requires Stack(a.sessions, touches)
    ensures Stack(Reanchor(a, at).sessions, touches)
  {
  }

  lemma StepKeeps(a: Auth, touches: seq<Token>, op: Op)
    requires Stack(a.sessions, touches) && FreshOp(touches, op)
    ensures Stack(Do(a, op).sessions, touches + Touched(a, op))
  {
    match op
    case DoIssue(token, at) => IssueKeeps(a, touches, token, at);
    case DoReset(token, at) => ResetKeeps(a, touches, token, at);
    case DoRestore(records) => RestoreStack(a, records, touches);
    case DoFind(token, at) =>
      if Hits(a.sessions, token, at) { FindKeeps(a, touches, token, at); } else { assert touches + [] == touches; }
    case _ => RemovalKeeps(a, touches, op);
  }

  lemma RemovalKeeps(a: Auth, touches: seq<Token>, op: Op)
    requires Stack(a.sessions, touches) && (op.DoPurge? || op.DoRevoke? || op.DoReanchor?)
    ensures Stack(Do(a, op).sessions, touches + Touched(a, op))
  {
    assert touches + [] == touches;
    match op
    case DoPurge(at) => LiveStack(a.sessions, at, touches);
    case DoRevoke(token) => RevokeKeeps(a, touches, token);
    case DoReanchor(at) => ReanchorKeeps(a, touches, at);
  }

  lemma {:induction false} StackAlong(s: State, ops: seq<Op>)
    requires Stack(s.a.sessions, s.touches) && FreshOps(s, ops)
    ensures Stack(Run(s, ops).a.sessions, Run(s, ops).touches)
    decreases |ops|
  {
    if ops != [] {
      StepKeeps(s.a, s.touches, ops[0]);
      StackAlong(Apply(s, ops[0]), ops[1..]);
    }
  }

  // ---------------------------------------------------------------- eviction

  /** Eight other sessions were each issued, restored or used since the last touch of t. */
  ghost predicate Overtaken(touches: seq<Token>, t: Token, others: set<Token>) {
    && |others| == 8 && t !in others
    && forall u :: u in others ==> LastTouch(touches, u) > LastTouch(touches, t)
  }

  function TokenSet(s: seq<Session>): set<Token> { set x | x in s :: x.token }

  lemma {:induction false} DistinctTokens(s: seq<Session>, touches: seq<Token>)
    requires InRecency(s, touches)
    ensures |TokenSet(s)| == |s|
    decreases |s|
  {
    if s != [] {
      var init := s[..|s| - 1];
      var x := s[|s| - 1];
      assert s == init + [x];
      DistinctTokens(init, touches);
      assert TokenSet(s) == TokenSet(init) + {x.token};
      assert x.token !in TokenSet(init);
    }
  }

  /** Over any run the set holds at most eight sessions with distinct tokens, and an issue removes a
      session only if it has lapsed or eight others were each touched since its own last touch. */
  lemma EvictionIsLru(minutes: nat, ops: seq<Op>, token: Token, now: Time, x: Session)
    requires FreshOps(Boot(minutes), ops) && token !in Run(Boot(minutes), ops).touches
    requires x in Run(Boot(minutes), ops).a.sessions
    requires x !in Apply(Run(Boot(minutes), ops), DoIssue(token, now)).a.sessions
    ensures var s' := Apply(Run(Boot(minutes), ops), DoIssue(token, now));
      && |s'.a.sessions| <= 8
      && (!IsValid(x, now) || Overtaken(s'.touches, x.token, TokenSet(s'.a.sessions)))
  {
    StackAlong(Boot(minutes), ops);
    var s := Run(Boot(minutes), ops);
    IssueKeeps(s.a, s.touches, token, now);
    if IsValid(x, now) { OldestIsOvertaken(s.a, s.touches, token, now, x); }
  }

  lemma OldestIsOvertaken(a: Auth, touches: seq<Token>, token: Token, now: Time, x: Session)
    requires Stack(a.sessions, touches) && token !in touches && x in a.sessions && IsValid(x, now)
    requires x !in Issue(a, token, now).sessions
    ensures var s' := Issue(a, token, now).sessions; Overtaken(touches + [token], x.token, TokenSet(s'))
  {
    IssueIs(a, token, now);
    LiveKeeps(a.sessions, now, touches);
    LiveStack(a.sessions, now, touches);
    PushedOut(LiveOf(a.sessions, now), Minted(a, token, now), touches, x);
  }

  /** The record pushed out is the first of eight, and everything left was touched after it. */
  lemma PushedOut(live: seq<Session>, y: Session, touches: seq<Token>, x: Session)
    requires Stack(live, touches) && y.token !in touches && x in live && x !in Pushed(live, y)
    ensures |live| == MAX_SESSIONS && x == live[0]
    ensures Overtaken(touches + [y.token], x.token, TokenSet(Pushed(live, y)))
  {
    var all := live + [y];
    FirstOut(live, y, x);
    PushKeeps(live, y, touches);
    DistinctTokens(Pushed(live, y), touches + [y.token]);
    NewToken(live, touches, y.token);
    TouchTop(live, y, touches);
    AboveFirst(all, touches + [y.token]);
  }

  lemma FirstOut(live: seq<Session>, y: Session, x: Session)
    requires |live| <= MAX_SESSIONS && x in live && x !in Pushed(live, y)
    ensures |live| == MAX_SESSIONS && x == live[0] && Pushed(live, y) == (live + [y])[1..]
  {
    var all := live + [y];
    assert forall k :: 0 <= k < |live| ==> all[k] == live[k];
    assert Pushed(live, y) == all || Pushed(live, y) == all[1..];
    assert forall k :: 0 < k < |all| ==> all[k] == all[1..][k - 1] && all[k] in all[1..];
  }

  lemma AboveFirst(all: seq<Session>, touches: seq<Token>)
    requires all != [] && InRecency(all, touches)
    ensures forall u :: u in TokenSet(all[1..]) ==> LastTouch(touches, u) > LastTouch(touches, all[0].token)
  {
    forall u | u in TokenSet(all[1..]) ensures LastTouch(touches, u) > LastTouch(touches, all[0].token) {
      var z :| z in all[1..] && z.token == u;
      var k :| 0 <= k < |all[1..]| && all[1..][k] == z;
      assert all[k + 1] == z;
    }
  }

  /** Exactly who goes: the lapsed, and the least recently used of eight live sessions. */
  lemma IssueRemoves(a: Auth, touches: seq<Token>, token: Token, now: Time, x: Session)
    requires Stack(a.sessions, touches) && token !in touches && x in a.sessions
    ensures var live := LiveOf(a.sessions, now);
      x !in Issue(a, token, now).sessions <==> !IsValid(x, now) || (|live| == 8 && x == live[0])
  {
    IssueIs(a, token, now);
    LiveKeeps(a.sessions, now, touches);
    LiveStack(a.sessions, now, touches);
    NewToken(a.sessions, touches, token);
    PushRemoves(LiveOf(a.sessions, now), Minted(a, token, now), touches, x);
  }

  lemma PushRemoves(live: seq<Session>, y: Session, touches: seq<Token>, x: Session)
    requires Stack(live, touches) && y.token !in touches && x.token != y.token
    ensures x !in Pushed(live, y) <==> x !in live || (|live| == MAX_SESSIONS && x == live[0])
  {
    var left := Pushed(live, y);
    if x in left { assert x in live; }
    if x in live && x !in left { PushedOut(live, y, touches, x); }
  }

  /** A failed lookup changes nothing; a hit moves one record to the tail and keeps the rest in order. */
  lemma LookupOnlyReorders(a: Auth, token: Token, now: Time)
    ensures !Hits(a.sessions, token, now) ==> Do(a, DoFind(token, now)) == a
    ensures Hits(a.sessions, token, now) ==>
      var r := Do(a, DoFind(token, now)); var i := Position(a.sessions, token);
      && SameRecords(a, r) && r.rev == a.rev
      && r.sessions[..|a.sessions| - 1] == a.sessions[..i] + a.sessions[i + 1..]
      && r.sessions[|a.sessions| - 1] == a.sessions[i] && a.sessions[i].token == token
  {
    if Hits(a.sessions, token, now) { MoveLastSame(a.sessions, Position(a.sessions, token)); }
  }
}
