/** A bounded first-in-first-out log: the chat history and the room history
    are both kept this way. An insert copies the log, appends the new entry
    and, when the copy is then longer than the capacity, drops its first
    (oldest) entry once. */
module BoundedLog {

  /** The log after inserting `x`: append, then drop the head once if the
      result exceeds `cap`. */
  function Push<T>(log: seq<T>, x: T, cap: nat): (r: seq<T>)
    ensures |log| <= cap ==> |r| <= cap
    ensures |log| < cap ==> r == log + [x]
  {
    var grown := log + [x];
    if |grown| > cap then grown[1..] else grown
  }

  /** Reference definition: the last `n` elements of `s`, or all of `s` when
      it is shorter. */
  function LastN<T>(s: seq<T>, n: nat): (r: seq<T>)
    ensures |r| == if |s| < n then |s| else n
  {
    if |s| <= n then s else s[|s| - n..]
  }

  /** The log after inserting every element of `xs`, first to last. */
  function PushAll<T>(log: seq<T>, xs: seq<T>, cap: nat): (r: seq<T>)
    ensures |log| <= cap ==> |r| <= cap
    decreases |xs|
  {
    if xs == [] then log else PushAll(Push(log, xs[0], cap), xs[1..], cap)
  }

  /** One insert keeps the order of the surviving entries, puts `x` last,
      and drops exactly the oldest entry when, and only when, the log was
      already at capacity. */
  lemma PushEvictsOldest<T>(log: seq<T>, x: T, cap: nat)
    requires 0 < cap
    ensures var r := Push(log, x, cap);
      var dropped := if |log| + 1 > cap then 1 else 0;
      |r| == |log| + 1 - dropped && r[|r| - 1] == x &&
      forall i :: 0 <= i < |r| - 1 ==> r[i] == log[i + dropped]
  {
  }

  /** An insert into a log within capacity leaves the most recent `cap`
      entries of the log followed by `x`. */
  lemma PushIsLastN<T>(log: seq<T>, x: T, cap: nat)
    requires |log| <= cap
    ensures Push(log, x, cap) == LastN(log + [x], cap)
  {
  }

  /** A prefix in front of at least `n` elements does not reach the last
      `n` elements. */
  lemma LastNIgnoresPrefix<T>(p: seq<T>, q: seq<T>, n: nat)
    requires n <= |q|
    ensures LastN(p + q, n) == LastN(q, n)
  {
    var a := LastN(p + q, n);
    var b := LastN(q, n);
    assert a == (p + q)[|p| + |q| - n..];
    assert b == q[|q| - n..];
    forall i | 0 <= i < n
      ensures a[i] == b[i]
    {
      assert a[i] == (p + q)[|p| + |q| - n + i];
    }
  }

  /** Taking the last `n` elements before appending `t` does not change the
      last `n` elements of the whole. */
  lemma LastNAppend<T>(s: seq<T>, t: seq<T>, n: nat)
    ensures LastN(LastN(s, n) + t, n) == LastN(s + t, n)
  {
    if n < |s| {
      var keep := s[|s| - n..];
      assert s + t == s[..|s| - n] + (keep + t);
      LastNIgnoresPrefix(s[..|s| - n], keep + t, n);
    }
  }

  /** Any run of inserts into a log within capacity leaves exactly the most
      recent `cap` entries, in insertion order. */
  lemma {:induction false} PushAllIsLastN<T>(log: seq<T>, xs: seq<T>, cap: nat)
    requires |log| <= cap
    ensures PushAll(log, xs, cap) == LastN(log + xs, cap)
    decreases |xs|
  {
    if xs == [] {
      assert log + xs == log;
    } else {
      var x, rest := xs[0], xs[1..];
      var next := Push(log, x, cap);
      PushIsLastN(log, x, cap);
      PushAllIsLastN(next, rest, cap);
      LastNAppend(log + [x], rest, cap);
      assert (log + [x]) + rest == log + xs;
      calc {
        PushAll(log, xs, cap);
        PushAll(next, rest, cap);
        LastN(next + rest, cap);
        LastN(LastN(log + [x], cap) + rest, cap);
        LastN((log + [x]) + rest, cap);
      }
    }
  }

  /** Starting from an empty log, any run of inserts leaves the most recent
      `min(|xs|, cap)` entries in insertion order. */
  lemma HistoryKeepsMostRecent<T>(xs: seq<T>, cap: nat)
    ensures PushAll([], xs, cap) == LastN(xs, cap)
  {
    PushAllIsLastN([], xs, cap);
    assert [] + xs == xs;
  }
}
