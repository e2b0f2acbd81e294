/** The bounded scrollback: a deque that keeps the last 8 MiB of everything the PTY printed. */
module Scrollback {
  import opened Prelude

  const MAX_SCROLLBACK := 8 * 1024 * 1024
  const MAX_PENDING := 2 * MAX_SCROLLBACK
  const READ_BUFFER := 8192

  /** The last n elements, or all of them. */
  function Last<T>(s: seq<T>, n: nat): (r: seq<T>)
    ensures |r| == if |s| < n then |s| else n
    ensures forall k :: 0 <= k < |r| ==> r[k] == s[|s| - |r| + k]
  {
    if |s| <= n then s else s[|s| - n..]
  }

  function Keep(s: Bytes): Bytes { Last(s, MAX_SCROLLBACK) }

  function Flatten(chunks: seq<Bytes>): Bytes {
    if chunks == [] then [] else Flatten(chunks[..|chunks| - 1]) + chunks[|chunks| - 1]
  }

  /** The chunks' bytes in the order in which they were printed. */
  lemma {:induction false} FlattenConcat(a: seq<Bytes>, b: seq<Bytes>)
    ensures Flatten(a + b) == Flatten(a) + Flatten(b)
    ensures forall c: Bytes :: Flatten([c]) == c
    decreases |b|
  {
    forall c: Bytes ensures Flatten([c]) == c { assert [c][..0] == []; }
    if b == [] {
      assert a + b == a;
    } else {
      assert (a + b)[..|a + b| - 1] == a + b[..|b| - 1];
      FlattenConcat(a, b[..|b| - 1]);
    }
  }

  /** Trimming after each append keeps the same bytes as trimming once at the end. */
  lemma LastOfLast<T>(s: seq<T>, t: seq<T>, n: nat)
    ensures Last(Last(s, n) + t, n) == Last(s + t, n)
  {
    var a, b := Last(Last(s, n) + t, n), Last(s + t, n);
    assert |a| == |b|;
    forall k | 0 <= k < |a| ensures a[k] == b[k] {
      assert |s| <= n ==> Last(s, n) + t == s + t;
    }
  }

  class Deque {
    var bytes: Bytes

    constructor ()
      ensures bytes == []
    {
      bytes := [];
    }

    method PopFront()
      requires bytes != []
      modifies this
      ensures bytes == old(bytes)[1..]
    {
      bytes := bytes[1..];
    }

    /** `append_output`'s scrollback section: extend, then drop the overflow from the front. */
    method Append(chunk: Bytes)
      modifies this
      ensures var all := old(bytes) + chunk;
        var n := if |all| < 8_388_608 then |all| else 8_388_608;
        bytes == all[|all| - n..]
      ensures bytes == Keep(old(bytes) + chunk)
    {
      bytes := bytes + chunk;
      ghost var all := bytes;
      var overflow := if |bytes| > MAX_SCROLLBACK then |bytes| - MAX_SCROLLBACK else 0;
      for i := 0 to overflow
        invariant bytes == all[i..]
      {
        PopFront();
      }
    }

    /** `history_tail_bytes`: collect from the back, then reverse. */
    method Tail(max: nat) returns (tail: Bytes)
      ensures var n := if |bytes| < max then |bytes| else max; tail == bytes[|bytes| - n..]
    {
      var back: Bytes := [];
      while |back| < max && |back| < |bytes|
        invariant |back| <= |bytes| && |back| <= max
        invariant forall i :: 0 <= i < |back| ==> back[i] == bytes[|bytes| - 1 - i]
      {
        back := back + [bytes[|bytes| - 1 - |back|]];
      }
      tail := [];
      for i := 0 to |back|
        invariant |tail| == i && forall k :: 0 <= k < i ==> tail[k] == back[i - 1 - k]
      {
        tail := [back[i]] + tail;
      }
    }
  }
}
