/** The per-address login throttle: at most five failures in any window of five minutes. */
module RateLimiter {
  import opened Prelude

  datatype Ip = V4(address: nat) | V6(address: nat)

  const SECOND := 1_000_000_000

  /** Clock readings in nanoseconds, bounded below as the platform's clock type is. */
  const MIN_TIME: int := -0x8000_0000_0000_0000 * SECOND
  type Time = t: int | MIN_TIME <= t witness 0

  const MAX_ATTEMPTS := 5
  const WINDOW := 300 * SECOND

  type Failures = map<Ip, seq<Time>>

  datatype Op = Failed(ip: Ip, at: Time) | Checked(ip: Ip, at: Time) | Cleared(ip: Ip, at: Time)

  // ---------------------------------------------------------------- what is stored

  function CheckedSub(now: Time): Option<Time> {
    if now - WINDOW < MIN_TIME then None else Some(now - WINDOW)
  }

  function Retain(ts: seq<Time>, cutoff: Time): seq<Time> {
    if ts == [] then []
    else Retain(ts[..|ts| - 1], cutoff) + if ts[|ts| - 1] > cutoff then [ts[|ts| - 1]] else []
  }

  /** With no representable cutoff nothing is dropped. */
  function Pruned(ts: seq<Time>, now: Time): seq<Time> {
    match CheckedSub(now)
    case None => ts
    case Some(cutoff) => Retain(ts, cutoff)
  }

  function Entries(m: Failures, ip: Ip): seq<Time> { if ip in m then m[ip] else [] }

  function Record(m: Failures, ip: Ip, now: Time): Failures { m[ip := Entries(m, ip) + [now]] }

  function Prune(m: Failures, ip: Ip, now: Time): Failures {
    var left := Pruned(Entries(m, ip), now);
    if left == [] then m - {ip} else m[ip := left]
  }

  class LoginRateLimiter {
    var failures: Failures

    constructor ()
      ensures failures == map[]
    {
      failures := map[];
    }

    method IsBlocked(ip: Ip, now: Time) returns (blocked: bool)
      modifies this
      ensures failures == Prune(old(failures), ip, now)
      ensures blocked <==> Blocked(old(failures), ip, now)
    {
      var cutoff := CheckedSub(now);
      if ip !in failures { failures := failures[ip := []]; }
      if cutoff.Some? {
        var kept: seq<Time> := [];
        var entries := failures[ip];
        for i := 0 to |entries|
          invariant kept == Retain(entries[..i], cutoff.value)
        {
          if entries[i] > cutoff.value { kept := kept + [entries[i]]; }
          assert entries[..i + 1][..i] == entries[..i];
        }
        assert entries[..|entries|] == entries;
        failures := failures[ip := kept];
      }
      var expired := failures[ip] == [];
      if expired { failures := failures - {ip}; }
      assert failures == Prune(old(failures), ip, now);
      blocked := ip in failures && |failures[ip]| >= MAX_ATTEMPTS;
    }

    method RecordFailure(ip: Ip, now: Time)
      modifies this
      ensures failures == Record(old(failures), ip, now)
    {
      if ip !in failures { failures := failures[ip := []]; }
      failures := failures[ip := failures[ip] + [now]];
    }

    method Reset(ip: Ip)
      modifies this
      ensures failures == old(failures) - {ip}
    {
      failures := failures - {ip};
    }
  }

  // ---------------------------------------------------------------- runs

  function Do(m: Failures, op: Op): Failures {
    match op
    case Failed(ip, now) => Record(m, ip, now)
    case Checked(ip, now) => Prune(m, ip, now)
    case Cleared(ip, _) => m - {ip}
  }

  function After(ops: seq<Op>): Failures {
    if ops == [] then map[] else Do(After(ops[..|ops| - 1]), ops[|ops| - 1])
  }

  predicate Blocked(m: Failures, ip: Ip, now: Time) { |Pruned(Entries(m, ip), now)| >= MAX_ATTEMPTS }

  /** The clock does not run backwards over the run, nor before the question. */
  predicate Monotone(ops: seq<Op>, now: Time) {
    && (forall i, j :: 0 <= i <= j < |ops| ==> ops[i].at <= ops[j].at)
    && (forall i :: 0 <= i < |ops| ==> ops[i].at <= now)
  }

  // ---------------------------------------------------------------- the full log

  /** The failure recorded by the k-th operation still counts: same address, no reset since, and young. */
  ghost predicate Counts(ops: seq<Op>, ip: Ip, now: Time, k: int) {
    && 0 <= k < |ops|
    && ops[k].Failed? && ops[k].ip == ip && ops[k].at > now - 300_000_000_000
    && forall j :: k < j < |ops| ==> !(ops[j].Cleared? && ops[j].ip == ip)
  }

  ghost function Counting(ops: seq<Op>, ip: Ip, now: Time): set<int> {
    set k | 0 <= k < |ops| && Counts(ops, ip, now, k)
  }

  lemma {:induction false} PrunedStep(ts: seq<Time>, t: Time, now: Time)
    ensures Pruned(ts + [t], now) == Pruned(ts, now) + if t > now - WINDOW then [t] else []
  {
    assert (ts + [t])[..|ts|] == ts;
  }

  /** Pruning now and again later is pruning later. */
  lemma {:induction false} PrunedTwice(ts: seq<Time>, now: Time, later: Time)
    requires now <= later
    ensures Pruned(Pruned(ts, now), later) == Pruned(ts, later)
    decreases |ts|
  {
    if ts != [] {
      var init := ts[..|ts| - 1];
      var t := ts[|ts| - 1];
      PrunedTwice(init, now, later);
      assert ts == init + [t];
      PrunedStep(init, t, now);
      PrunedStep(init, t, later);
      PrunedStep(Pruned(init, now), t, later);
      assert Pruned(init, now) + [] == Pruned(init, now) && Pruned(init, later) + [] == Pruned(init, later);
    }
  }

  lemma CountingStep(ops: seq<Op>, op: Op, ip: Ip, now: Time)
    ensures Counting(ops + [op], ip, now) ==
            (if op.Cleared? && op.ip == ip then {} else Counting(ops, ip, now))
            + if op.Failed? && op.ip == ip && op.at > now - WINDOW then {|ops|} else {}
  {
    var all := ops + [op];
    assert all[|ops|] == op;
    forall k ensures k in Counting(all, ip, now) <==>
        (k in Counting(ops, ip, now) && !(op.Cleared? && op.ip == ip))
        || (k == |ops| && op.Failed? && op.ip == ip && op.at > now - WINDOW)
    {
      if Counts(all, ip, now, k) && k < |ops| {
        assert forall j :: k < j < |ops| ==> all[j] == ops[j];
        assert Counts(ops, ip, now, k);
      }
      if Counts(ops, ip, now, k) && !(op.Cleared? && op.ip == ip) { assert Counts(all, ip, now, k); }
    }
  }

  /** What one operation does to a count: a reset of the address zeroes it, a young failure adds one. */
  function Change(n: nat, op: Op, ip: Ip, now: Time): nat {
    if op.ip != ip then n
    else match op
      case Failed(_, at) => if at > now - WINDOW then n + 1 else n
      case Checked(_, _) => n
      case Cleared(_, _) => 0
  }

  lemma CountedChanges(ops: seq<Op>, op: Op, ip: Ip, now: Time)
    ensures |Counting(ops + [op], ip, now)| == Change(|Counting(ops, ip, now)|, op, ip, now)
  {
    CountingStep(ops, op, ip, now);
    assert |ops| !in Counting(ops, ip, now);
    assert Counting(ops, ip, now) + {} == Counting(ops, ip, now);
  }

  lemma StoredChanges(m: Failures, op: Op, ip: Ip, now: Time)
    requires op.at <= now
    ensures |Pruned(Entries(Do(m, op), ip), now)| == Change(|Pruned(Entries(m, ip), now)|, op, ip, now)
  {
    if op.ip == ip {
      match op
      case Failed(_, at) => PrunedStep(Entries(m, ip), at, now);
      case Checked(_, _) => CheckInvisible(m, op, ip, now);
      case Cleared(_, _) => assert Entries(Do(m, op), ip) == [];
    }
  }

  lemma {:induction false} StoredIsCounted(ops: seq<Op>, ip: Ip, now: Time)
    requires Monotone(ops, now)
    ensures |Pruned(Entries(After(ops), ip), now)| == |Counting(ops, ip, now)|
    decreases |ops|
  {
    if ops != [] {
      var init := ops[..|ops| - 1];
      var op := ops[|ops| - 1];
      StoredIsCounted(init, ip, now);
      assert ops == init + [op];
      CountedChanges(init, op, ip, now);
      StoredChanges(After(init), op, ip, now);
    }
  }

  /** After any interleaving an address is blocked iff at least five failures since its last reset are
      younger than the window. */
  lemma BlockedIff(ops: seq<Op>, ip: Ip, now: Time)
    requires Monotone(ops, now)
    ensures Blocked(After(ops), ip, now) <==> |Counting(ops, ip, now)| >= 5
  {
    StoredIsCounted(ops, ip, now);
  }

  /** A reset address starts again from nothing, and no other address notices. */
  lemma ResetForgets(ops: seq<Op>, ip: Ip, at: Time, other: Ip, now: Time)
    requires Monotone(ops + [Cleared(ip, at)], now)
    ensures !Blocked(After(ops + [Cleared(ip, at)]), ip, now)
    ensures other != ip ==>
      (Blocked(After(ops + [Cleared(ip, at)]), other, now) <==> Blocked(After(ops), other, now))
  {
    var all := ops + [Cleared(ip, at)];
    assert all[..|ops|] == ops;
    assert Entries(After(all), ip) == [];
    assert other != ip ==> Entries(After(all), other) == Entries(After(ops), other);
  }

  function Unchecked(ops: seq<Op>): seq<Op> {
    if ops == [] then []
    else Unchecked(ops[..|ops| - 1]) + if ops[|ops| - 1].Checked? then [] else [ops[|ops| - 1]]
  }

  /** Asking prunes, and pruning never changes a later answer. */
  lemma {:induction false} PruningInvisible(ops: seq<Op>, ip: Ip, now: Time)
    requires Monotone(ops, now)
    ensures Pruned(Entries(After(ops), ip), now) == Pruned(Entries(After(Unchecked(ops)), ip), now)
    ensures Blocked(After(ops), ip, now) <==> Blocked(After(Unchecked(ops)), ip, now)
    decreases |ops|
  {
    if ops != [] {
      var init := ops[..|ops| - 1];
      var op := ops[|ops| - 1];
      var m := After(init);
      var u := After(Unchecked(init));
      PruningInvisible(init, ip, now);
      assert After(ops) == Do(m, op);
      if op.Checked? {
        CheckInvisible(m, op, ip, now);
        assert Unchecked(ops) == Unchecked(init);
      } else {
        assert (Unchecked(init) + [op])[..|Unchecked(init)|] == Unchecked(init);
        SameAfter(m, u, op, ip, now);
      }
    }
  }

  lemma CheckInvisible(m: Failures, op: Op, ip: Ip, now: Time)
    requires op.Checked? && op.at <= now
    ensures Pruned(Entries(Do(m, op), ip), now) == Pruned(Entries(m, ip), now)
  {
    if op.ip == ip {
      PrunedTwice(Entries(m, ip), op.at, now);
      assert Entries(Do(m, op), ip) == Pruned(Entries(m, ip), op.at);
    }
  }

  lemma SameAfter(m: Failures, u: Failures, op: Op, ip: Ip, now: Time)
    requires !op.Checked? && Pruned(Entries(m, ip), now) == Pruned(Entries(u, ip), now)
    ensures Pruned(Entries(Do(m, op), ip), now) == Pruned(Entries(Do(u, op), ip), now)
  {
    if op.Failed? && op.ip == ip {
      PrunedStep(Entries(m, ip), op.at, now);
      PrunedStep(Entries(u, ip), op.at, now);
    }
  }

  // ---------------------------------------------------------------- when a block ends

  lemma {:induction false} YoungSuffix(ts: seq<Time>, now: Time, n: nat)
    requires forall i, j :: 0 <= i <= j < |ts| ==> ts[i] <= ts[j]
    ensures |Pruned(ts, now)| >= n <==> n == 0 || (n <= |ts| && ts[|ts| - n] > now - WINDOW)
    decreases |ts|
  {
    if ts != [] {
      var init := ts[..|ts| - 1];
      assert ts == init + [ts[|ts| - 1]];
      PrunedStep(init, ts[|ts| - 1], now);
      if n > 0 { YoungSuffix(init, now, n - 1); }
      YoungSuffix(init, now, 0);
      YoungSuffix(init, now, 1);
    }
  }

  predicate InOrder(ts: seq<Time>, upto: Time) {
    && (forall i, j :: 0 <= i <= j < |ts| ==> ts[i] <= ts[j])
    && (forall i :: 0 <= i < |ts| ==> ts[i] <= upto)
  }

  lemma {:induction false} RetainInOrder(ts: seq<Time>, cutoff: Time, upto: Time)
    requires InOrder(ts, upto)
    ensures InOrder(Retain(ts, cutoff), upto)
    decreases |ts|
  {
    if ts != [] { RetainInOrder(ts[..|ts| - 1], cutoff, ts[|ts| - 1]); }
  }

  lemma {:induction false} StoredInOrder(ops: seq<Op>, ip: Ip, now: Time)
    requires Monotone(ops, now)
    ensures InOrder(Entries(After(ops), ip), now)
    decreases |ops|
  {
    if ops != [] {
      var init := ops[..|ops| - 1];
      var op := ops[|ops| - 1];
      var m := After(init);
      assert Monotone(init, op.at) by { assert forall i :: 0 <= i < |init| ==> init[i] == ops[i]; }
      StoredInOrder(init, ip, op.at);
      if op.ip != ip { assert Entries(Do(m, op), ip) == Entries(m, ip); }
      else if op.Checked? {
        if op.at - WINDOW >= MIN_TIME { RetainInOrder(Entries(m, ip), op.at - WINDOW, op.at); }
        assert Entries(Do(m, op), ip) == Pruned(Entries(m, ip), op.at);
      }
    }
  }

  /** A blocked address is let in again exactly when its fifth-newest stored failure leaves the window. */
  lemma BlockEnds(ops: seq<Op>, ip: Ip, now: Time)
    requires Monotone(ops, now)
    ensures var ts := Entries(After(ops), ip);
      Blocked(After(ops), ip, now) <==> |ts| >= 5 && ts[|ts| - 5] > now - 300_000_000_000
  {
    StoredInOrder(ops, ip, now);
    YoungSuffix(Entries(After(ops), ip), now, MAX_ATTEMPTS);
  }
}
