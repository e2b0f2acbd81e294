/** Login sessions: at most eight, in least-recently-used order, with a revision for the persisted copy. */
module Sessions {
  import opened Prelude

  type Token = seq<bv8>

  const SECOND := 1_000_000_000

  /** Clock readings, in nanoseconds. */
  type Time = int

  const MAX_SESSIONS := 8
  const NEVER := 0
  const NEVER_EXPIRES_AT: Time := 253_402_300_799 * SECOND
  const U64: nat := 0x1_0000_0000_0000_0000

  datatype Session = Session(token: Token, expiresAt: Time)

  datatype Auth = Auth(sessions: seq<Session>, rev: nat, minutes: nat)

  // ---------------------------------------------------------------- comparison

  function Differences(a: Token, b: Token): bv8
    requires |a| == |b|
  {
    if a == [] then 0 else Differences(a[..|a| - 1], b[..|b| - 1]) | (a[|a| - 1] ^ b[|b| - 1])
  }

  /** Every byte is looked at, whatever the earlier ones said. */
  predicate ConstantTimeEq(a: Token, b: Token) { |a| == |b| && Differences(a, b) == 0 }

  lemma {:induction false} NoDifferences(a: Token, b: Token)
    requires |a| == |b|
    ensures Differences(a, b) == 0 <==> a == b
    decreases |a|
  {
    if a != [] {
      var x, y := a[|a| - 1], b[|b| - 1];
      NoDifferences(a[..|a| - 1], b[..|b| - 1]);
      Bits(Differences(a[..|a| - 1], b[..|b| - 1]), x, y);
      assert a == a[..|a| - 1] + [x] && b == b[..|b| - 1] + [y];
    }
  }

  lemma Bits(acc: bv8, x: bv8, y: bv8)
    ensures acc | (x ^ y) == 0 <==> acc == 0 && x == y
  {
  }

  lemma ConstantTimeEqIsEquality(a: Token, b: Token)
    ensures ConstantTimeEq(a, b) <==> a == b
  {
    if |a| == |b| { NoDifferences(a, b); }
  }

  // ---------------------------------------------------------------- operations

  predicate IsValid(s: Session, now: Time) { now < s.expiresAt }

  function Saturating(n: nat): nat { if n < U64 then n else U64 - 1 }

  function Expiry(minutes: nat, now: Time): Time {
    if minutes == NEVER then NEVER_EXPIRES_AT else now + Saturating(minutes * 60) * SECOND
  }

  /** How long a record made at `now` under a policy of so many minutes lasts: exactly that many minutes, at most
      the longest span the clock's unit can count, and without a limit up to the end of the year 9999. */
  ghost predicate Lasts(x: Session, minutes: nat, now: Time) {
    && (minutes == 0 ==> forall at: Time :: IsValid(x, at) <==> at < 253_402_300_799_000_000_000)
    && (minutes > 0 && minutes * 60 < 18_446_744_073_709_551_616 ==>
          forall at: Time :: IsValid(x, at) <==> at < now + minutes * 60_000_000_000)
    && (minutes * 60 >= 18_446_744_073_709_551_616 ==>
          forall at: Time :: IsValid(x, at) <==> at < now + 18_446_744_073_709_551_615_000_000_000)
  }

  lemma MadeToLast(token: Token, minutes: nat, now: Time)
    ensures Lasts(Session(token, Expiry(minutes, now)), minutes, now)
  {
  }

  function Bump(rev: nat): nat { (rev + 1) % U64 }

  function LiveOf(s: seq<Session>, now: Time): seq<Session> {
    if s == [] then [] else LiveOf(s[..|s| - 1], now) + if IsValid(s[|s| - 1], now) then [s[|s| - 1]] else []
  }

  function Others(s: seq<Session>, token: Token): seq<Session> {
    if s == [] then []
    else Others(s[..|s| - 1], token) + if s[|s| - 1].token == token then [] else [s[|s| - 1]]
  }

  /** Membership replaced, revision bumped iff the length changed. */
  function Retained(a: Auth, kept: seq<Session>): Auth {
    if |kept| != |a.sessions| then a.(sessions := kept, rev := Bump(a.rev)) else a.(sessions := kept)
  }

  function Purge(a: Auth, now: Time): Auth { Retained(a, LiveOf(a.sessions, now)) }

  function Revoke(a: Auth, token: Token): Auth { Retained(a, Others(a.sessions, token)) }

  /** Append, and drop the least recently used of nine. */
  function Pushed(s: seq<Session>, x: Session): seq<Session> {
    if |s| + 1 > MAX_SESSIONS then (s + [x])[1..] else s + [x]
  }

  function Issue(a: Auth, token: Token, now: Time): Auth {
    var b := Purge(a, now);
    b.(sessions := Pushed(b.sessions, Session(token, Expiry(a.minutes, now))), rev := Bump(b.rev))
  }

  function Reset(a: Auth, token: Token, now: Time): Auth { Issue(a.(sessions := [], rev := Bump(a.rev)), token, now) }

  function Reanchored(s: seq<Session>, expiry: Time): seq<Session> {
    seq(|s|, i requires 0 <= i < |s| => s[i].(expiresAt := expiry))
  }

  function Reanchor(a: Auth, now: Time): Auth {
    if a.sessions == [] then a
    else a.(sessions := Reanchored(a.sessions, Expiry(a.minutes, now)), rev := Bump(a.rev))
  }

  function Restore(a: Auth, records: seq<Session>): Auth {
    a.(sessions := if |records| > MAX_SESSIONS then records[..MAX_SESSIONS] else records, rev := Bump(a.rev))
  }

  /** A new session is the last on the list, and lasts as the policy in force says. */
  lemma IssuedLasts(a: Auth, token: Token, now: Time)
    ensures var s := Issue(a, token, now).sessions;
      s != [] && s[|s| - 1].token == token && Lasts(s[|s| - 1], a.minutes, now)
  {
    MadeToLast(token, a.minutes, now);
  }

  /** After a change of policy every session lasts as if it had just been issued under the new one. */
  lemma ReanchoredLast(a: Auth, now: Time)
    ensures var s := Reanchor(a, now).sessions;
      && |s| == |a.sessions|
      && forall i :: 0 <= i < |s| ==> s[i].token == a.sessions[i].token && Lasts(s[i], a.minutes, now)
  {
    if a.sessions != [] {
      var s := Reanchor(a, now).sessions;
      forall i | 0 <= i < |s| ensures s[i].token == a.sessions[i].token && Lasts(s[i], a.minutes, now) {
        MadeToLast(a.sessions[i].token, a.minutes, now);
      }
    }
  }

  /** What a purge keeps, record by record and in order. */
  lemma {:induction false} LiveOfJoins(s: seq<Session>, t: seq<Session>, now: Time)
    ensures LiveOf(s + t, now) == LiveOf(s, now) + LiveOf(t, now)
    ensures |s| == 1 ==> LiveOf(s, now) == if now < s[0].expiresAt then s else []
    decreases |t|
  {
    if t == [] {
      assert s + t == s;
    } else {
      assert (s + t)[..|s + t| - 1] == s + t[..|t| - 1];
      LiveOfJoins(s, t[..|t| - 1], now);
    }
    if |s| == 1 { assert s[..0] == []; }
  }

  /** What a logout keeps, record by record and in order. */
  lemma {:induction false} OthersJoin(s: seq<Session>, t: seq<Session>, token: Token)
    ensures Others(s + t, token) == Others(s, token) + Others(t, token)
    ensures |s| == 1 ==> Others(s, token) == if s[0].token == token then [] else s
    decreases |t|
  {
    if t == [] {
      assert s + t == s;
    } else {
      assert (s + t)[..|s + t| - 1] == s + t[..|t| - 1];
      OthersJoin(s, t[..|t| - 1], token);
    }
    if |s| == 1 { assert s[..0] == []; }
  }

  /** Index i holds the first record with this token. */
  predicate FirstWith(s: seq<Session>, token: Token, i: int) {
    0 <= i < |s| && s[i].token == token && forall k :: 0 <= k < i ==> s[k].token != token
  }

  /** Index of the first record with this token, or the length. */
  function Position(s: seq<Session>, token: Token): (i: nat)
    ensures i <= |s|
    ensures i < |s| ==> s[i].token == token
    ensures forall k :: 0 <= k < i ==> s[k].token != token
  {
    if s == [] then 0 else if s[0].token == token then 0 else 1 + Position(s[1..], token)
  }

  predicate Hits(s: seq<Session>, token: Token, now: Time) {
    Position(s, token) < |s| && IsValid(s[Position(s, token)], now)
  }

  function MoveLast(s: seq<Session>, i: nat): seq<Session>
    requires i < |s|
  {
    s[..i] + s[i + 1..] + [s[i]]
  }

  function Find(a: Auth, token: Token, now: Time): Auth {
    if Hits(a.sessions, token, now) then a.(sessions := MoveLast(a.sessions, Position(a.sessions, token))) else a
  }

  /** The first of the cookie's values that names a valid session, or the number of values. */
  function FirstHit(s: seq<Session>, values: seq<Token>, now: Time): (k: nat)
    ensures k <= |values|
    ensures k < |values| ==> Hits(s, values[k], now)
    ensures forall j :: 0 <= j < k ==> !Hits(s, values[j], now)
  {
    if values == [] then 0 else if Hits(s, values[0], now) then 0 else 1 + FirstHit(s, values[1..], now)
  }

  predicate AnyValid(s: seq<Session>, now: Time) { exists i :: 0 <= i < |s| && IsValid(s[i], now) }

  /** The answer of the per-request check without a bypass: a value matched at the first clock reading, and
      some session, not necessarily the matched one, is valid at the closing one. */
  predicate Admits(s: seq<Session>, values: seq<Token>, now: Time, later: Time) {
    FirstHit(s, values, now) < |values| && AnyValid(s, later)
  }

  /** A request is admitted exactly when the first record of one of its values has not expired at the first
      reading, and some record has not at the second. */
  lemma AdmitsIff(s: seq<Session>, values: seq<Token>, now: Time, later: Time)
    ensures Admits(s, values, now, later) <==>
      && (exists j, i :: 0 <= j < |values| && FirstWith(s, values[j], i) && now < s[i].expiresAt)
      && (exists i :: 0 <= i < |s| && later < s[i].expiresAt)
  {
    var k := FirstHit(s, values, now);
    if k < |values| { assert FirstWith(s, values[k], Position(s, values[k])); }
    if j, i :| 0 <= j < |values| && FirstWith(s, values[j], i) && now < s[i].expiresAt {
      assert Position(s, values[j]) == i && Hits(s, values[j], now);
    }
    if AnyValid(s, later) { var i :| 0 <= i < |s| && IsValid(s[i], later); }
    if i :| 0 <= i < |s| && later < s[i].expiresAt { assert IsValid(s[i], later); }
  }

  /** Where the matched record is. */
  function Matched(s: seq<Session>, values: seq<Token>, now: Time): (i: nat)
    requires FirstHit(s, values, now) < |values|
    ensures i < |s| && IsValid(s[i], now)
  {
    Position(s, values[FirstHit(s, values, now)])
  }

  /** A request passes although its own record has lapsed by the closing reading exactly when the record
      was valid at the first one, expires by the second, and another record is still valid then. */
  lemma PassesLapsedIff(s: seq<Session>, values: seq<Token>, now: Time, later: Time)
    requires FirstHit(s, values, now) < |values|
    ensures var i := Matched(s, values, now);
      Admits(s, values, now, later) && !IsValid(s[i], later) <==>
        s[i].expiresAt <= later && exists j :: 0 <= j < |s| && j != i && IsValid(s[j], later)
  {
  }

  const Lapsing: seq<Session> := [Session([1], 10), Session([2], 100)]

  /** The first browser's record expires between the two readings; the second browser's lets it in. */
  lemma PassesLapsed()
    ensures FirstHit(Lapsing, [[1]], 5) == 0 && !IsValid(Lapsing[Matched(Lapsing, [[1]], 5)], 20)
    ensures Admits(Lapsing, [[1]], 5, 20)
  {
    assert IsValid(Lapsing[1], 20);
    assert [1 as bv8] == Lapsing[0].token && Position(Lapsing, [1]) == 0;
  }

  predicate LastValid(s: seq<Session>, now: Time, i: int) {
    0 <= i < |s| && IsValid(s[i], now) && forall k :: i < k < |s| ==> !IsValid(s[k], now)
  }

  // ---------------------------------------------------------------- in place

  class AuthConfig {
    var sessions: seq<Session>
    var sessionsRev: nat
    var sessionExpirationMinutes: nat
    const localhostNoAuth: bool

    function View(): Auth
      reads this
    {
      Auth(sessions, sessionsRev, sessionExpirationMinutes)
    }

    constructor (minutes: nat, localhostNoAuth: bool)
      ensures View() == Auth([], 0, minutes) && this.localhostNoAuth == localhostNoAuth
    {
      sessions, sessionsRev, sessionExpirationMinutes := [], 0, minutes;
      this.localhostNoAuth := localhostNoAuth;
    }

    /** The new revision, when membership changed. */
    method PurgeLapsed(now: Time) returns (changed: Option<nat>)
      modifies this
      ensures View() == Purge(old(View()), now)
      ensures changed == if sessions == old(sessions) then None else Some(sessionsRev)
    {
      var before := sessions;
      var kept: seq<Session> := [];
      for i := 0 to |before|
        invariant kept == LiveOf(before[..i], now) && |kept| <= i
        invariant |kept| == i ==> kept == before[..i]
      {
        if IsValid(before[i], now) { kept := kept + [before[i]]; }
        assert before[..i + 1][..i] == before[..i];
      }
      assert before[..|before|] == before;
      sessions := kept;
      if |sessions| != |before| {
        sessionsRev := Bump(sessionsRev);
        return Some(sessionsRev);
      }
      return None;
    }

    method IssueSession(token: Token, now: Time) returns (record: Session)
      modifies this
      ensures View() == Issue(old(View()), token, now)
      ensures record.token == token && Lasts(record, old(sessionExpirationMinutes), now)
      ensures sessions != [] && sessions[|sessions| - 1] == record
    {
      var _ := PurgeLapsed(now);
      record := Session(token, Expiry(sessionExpirationMinutes, now));
      sessions := sessions + [record];
      if |sessions| > MAX_SESSIONS { sessions := sessions[1..]; }
      sessionsRev := Bump(sessionsRev);
      MadeToLast(token, sessionExpirationMinutes, now);
    }

    method RevokeSession(token: Token) returns (revoked: bool)
      modifies this
      ensures View() == Revoke(old(View()), token)
      ensures revoked <==> exists i :: 0 <= i < |old(sessions)| && old(sessions)[i].token == token
    {
      var before := sessions;
      var kept: seq<Session> := [];
      for i := 0 to |before|
        invariant View() == old(View()) && kept == Others(before[..i], token) && |kept| <= i
        invariant |kept| == i <==> forall k :: 0 <= k < i ==> before[k].token != token
      {
        ConstantTimeEqIsEquality(before[i].token, token);
        if !ConstantTimeEq(before[i].token, token) { kept := kept + [before[i]]; }
        assert before[..i + 1][..i] == before[..i];
      }
      assert before[..|before|] == before;
      sessions := kept;
      revoked := |sessions| != |before|;
      if revoked { sessionsRev := Bump(sessionsRev); }
    }

    method ResetSessions(token: Token, now: Time) returns (record: Session)
      modifies this
      ensures View() == Reset(old(View()), token, now)
      ensures sessions == [record] && record.token == token && Lasts(record, old(sessionExpirationMinutes), now)
    {
      sessions := [];
      sessionsRev := Bump(sessionsRev);
      record := IssueSession(token, now);
    }

    method ReanchorExpiries(now: Time) returns (expiry: Option<Time>)
      modifies this
      ensures View() == Reanchor(old(View()), now)
      ensures expiry == if old(sessions) == [] then None else Some(Expiry(old(sessionExpirationMinutes), now))
      ensures |sessions| == |old(sessions)|
      ensures forall i :: 0 <= i < |sessions| ==>
        sessions[i].token == old(sessions)[i].token && Lasts(sessions[i], old(sessionExpirationMinutes), now)
    {
      var newExpiry := Expiry(sessionExpirationMinutes, now);
      if sessions == [] { return None; }
      ghost var before := sessions;
      for i := 0 to |sessions|
        invariant |sessions| == |before| && sessionsRev == old(sessionsRev)
        invariant sessionExpirationMinutes == old(sessionExpirationMinutes)
        invariant forall k :: 0 <= k < i ==> sessions[k] == before[k].(expiresAt := newExpiry)
        invariant forall k :: i <= k < |before| ==> sessions[k] == before[k]
      {
        sessions := sessions[i := sessions[i].(expiresAt := newExpiry)];
      }
      sessionsRev := Bump(sessionsRev);
      ReanchoredLast(old(View()), now);
      return Some(newExpiry);
    }

    method RestoreSessions(records: seq<Session>)
      modifies this
      ensures View() == Restore(old(View()), records)
      ensures sessions == records[..if |records| < 8 then |records| else 8]
    {
      sessions := records;
      if |sessions| > MAX_SESSIONS { sessions := sessions[..MAX_SESSIONS]; }
      sessionsRev := Bump(sessionsRev);
    }

    method PositionOf(token: Token) returns (index: nat)
      ensures index == Position(sessions, token)
    {
      index := 0;
      while index < |sessions| && !ConstantTimeEq(sessions[index].token, token)
        invariant index <= |sessions|
        invariant forall k :: 0 <= k < index ==> sessions[k].token != token
      {
        ConstantTimeEqIsEquality(sessions[index].token, token);
        index := index + 1;
      }
      if index < |sessions| { ConstantTimeEqIsEquality(sessions[index].token, token); }
    }

    /** A miss changes nothing; a hit moves the record to the tail. */
    method FindValidSession(token: Token, now: Time) returns (found: Option<Session>)
      modifies this
      ensures View() == Find(old(View()), token, now)
      ensures found.Some? <==> Hits(old(sessions), token, now)
      ensures found != None ==> exists i :: FirstWith(old(sessions), token, i) && now < old(sessions)[i].expiresAt
      ensures forall i :: FirstWith(old(sessions), token, i) ==>
        var s := old(sessions);
        if now < s[i].expiresAt then found == Some(s[i]) && sessions == s[..i] + s[i + 1..] + [s[i]]
        else found == None && sessions == s
    {
      var index := PositionOf(token);
      assert index < |sessions| ==> FirstWith(sessions, token, index);
      if index == |sessions| || !IsValid(sessions[index], now) { return None; }
      var session := sessions[index];
      sessions := sessions[..index] + sessions[index + 1..];
      sessions := sessions + [session];
      return Some(session);
    }

    method TokenIsValid(now: Time) returns (any: bool)
      ensures any <==> AnyValid(sessions, now)
    {
      for i := 0 to |sessions|
        invariant forall k :: 0 <= k < i ==> !IsValid(sessions[k], now)
      {
        if IsValid(sessions[i], now) { return true; }
      }
      return false;
    }

    /** Most recently used valid session. */
    method CurrentSession(now: Time) returns (current: Option<Session>)
      ensures current.None? <==> !AnyValid(sessions, now)
      ensures current.Some? ==> exists i :: LastValid(sessions, now, i) && sessions[i] == current.value
    {
      var i := |sessions|;
      while i > 0
        invariant 0 <= i <= |sessions| && forall k :: i <= k < |sessions| ==> !IsValid(sessions[k], now)
      {
        i := i - 1;
        if IsValid(sessions[i], now) { assert LastValid(sessions, now, i); return Some(sessions[i]); }
      }
      return None;
    }

    /** The per-request check over the values of the session cookie, in header order; the wall clock is read
        again for the closing test and may have stepped either way. */
    method Authorized(loopback: bool, cookie: Option<seq<Token>>, now: Time, later: Time) returns (ok: bool)
      modifies this
      ensures var bypass := loopback && localhostNoAuth;
        var s := old(sessions);
        var k := if cookie.Some? then FirstHit(s, cookie.value, now) else 0;
        && (ok <==> bypass || (cookie.Some? && Admits(s, cookie.value, now, later)))
        && View() == if !bypass && cookie.Some? && k < |cookie.value| then Find(old(View()), cookie.value[k], now)
                     else old(View())
    {
      if loopback && localhostNoAuth { return true; }
      if cookie.None? { return false; }
      var matched := MatchCookie(cookie.value, now);
      var any := TokenIsValid(later);
      if matched {
        MoveLastValid(old(sessions), Matched(old(sessions), cookie.value, now), later);
      }
      ok := matched && any;
    }

    method MatchCookie(values: seq<Token>, now: Time) returns (matched: bool)
      modifies this
      ensures var k := FirstHit(old(sessions), values, now);
        && (matched <==> k < |values|)
        && View() == if matched then Find(old(View()), values[k], now) else old(View())
    {
      for i := 0 to |values|
        invariant View() == old(View())
        invariant forall j :: 0 <= j < i ==> !Hits(sessions, values[j], now)
      {
        var found := FindValidSession(values[i], now);
        if found.Some? { return true; }
      }
      return false;
    }
  }

  lemma MoveLastValid(s: seq<Session>, i: nat, now: Time)
    requires i < |s|
    ensures AnyValid(MoveLast(s, i), now) <==> AnyValid(s, now)
  {
    var r := MoveLast(s, i);
    if AnyValid(s, now) {
      var k :| 0 <= k < |s| && IsValid(s[k], now);
      assert r[if k < i then k else if k == i then |s| - 1 else k - 1] == s[k];
    }
    if AnyValid(r, now) {
      var k :| 0 <= k < |r| && IsValid(r[k], now);
      assert s[if k < i then k else if k == |s| - 1 then i else k + 1] == r[k];
    }
  }
}
