/**
 Sliding windows: a queue of timestamped values that is drained lazily from the front. Times are
 nanoseconds of a monotone clock.
 */
module Windows {
  import opened Basics

  datatype Entry = Entry(at: int, value: nat)

  function Sum(window: seq<Entry>): nat {
    if window == [] then 0 else window[0].value + Sum(window[1..])
  }

  /** What is left when the stale front of a window has been popped. */
  function DropBefore(window: seq<Entry>, cutoff: int): seq<Entry> {
    if window == [] || window[0].at >= cutoff then window else DropBefore(window[1..], cutoff)
  }

  method DrainBefore(window: seq<Entry>, now: int, secs: nat) returns (w: seq<Entry>)
    ensures w == DropBefore(window, now - secs * SECOND)
  {
    var cutoff := now - secs * SECOND;
    w := window;
    while |w| > 0 && w[0].at < cutoff
      invariant DropBefore(w, cutoff) == DropBefore(window, cutoff)
      decreases |w|
    {
      w := w[1..];
    }
  }

  method WindowSum(window: seq<Entry>) returns (n: nat)
    ensures n == Sum(window)
  {
    n := 0;
    for i := 0 to |window|
      invariant n + Sum(window[i..]) == Sum(window)
    {
      n := n + window[i].value;
    }
  }

  // ---- the window against the log of every event ----

  /** The events no older than `cutoff`, in order: what the window is meant to hold. */
  function Since(log: seq<Entry>, cutoff: int): seq<Entry> {
    if log == [] then []
    else if log[0].at >= cutoff then [log[0]] + Since(log[1..], cutoff)
    else Since(log[1..], cutoff)
  }

  datatype Op = Push(e: Entry) | Drain(now: int)

  /** The window after a history of operations, the last of which is the last element. */
  function Replay(ops: seq<Op>, secs: nat): seq<Entry> {
    if ops == [] then []
    else
      var before := Replay(ops[..|ops| - 1], secs);
      match ops[|ops| - 1]
      case Push(e) => before + [e]
      case Drain(now) => DropBefore(before, now - secs * SECOND)
  }

  function Log(ops: seq<Op>): seq<Entry> {
    if ops == [] then []
    else
      var before := Log(ops[..|ops| - 1]);
      match ops[|ops| - 1]
      case Push(e) => before + [e]
      case Drain(_) => before
  }

  /** Every drain so far happened no later than `now`. */
  predicate DrainedBy(ops: seq<Op>, now: int) {
    forall i :: 0 <= i < |ops| && ops[i].Drain? ==> ops[i].now <= now
  }

  /** Time order of the recorded events. */
  predicate Ordered(log: seq<Entry>) {
    forall i, j :: 0 <= i < j < |log| ==> log[i].at <= log[j].at
  }

  /** No event is recorded more than `d` before an event recorded earlier. */
  predicate Skewed(log: seq<Entry>, d: int) {
    forall i, j :: 0 <= i < j < |log| ==> log[i].at - d <= log[j].at
  }

  /** No stale event hides behind a recent one. */
  predicate FrontLoaded(window: seq<Entry>, cutoff: int) {
    forall i, j :: 0 <= i < j < |window| ==> !(window[i].at >= cutoff > window[j].at)
  }

  lemma {:induction false} DropIsSuffix(window: seq<Entry>, cutoff: int) returns (k: nat)
    ensures k <= |window| && DropBefore(window, cutoff) == window[k..]
    ensures forall i :: 0 <= i < k ==> window[i].at < cutoff
    ensures k < |window| ==> window[k].at >= cutoff
  {
    k := 0;
    if window != [] && window[0].at < cutoff {
      var j := DropIsSuffix(window[1..], cutoff);
      k := j + 1;
      assert window[k..] == window[1..][j..];
      assert forall i :: 0 < i < k ==> window[i] == window[1..][i - 1];
    }
  }

  lemma {:induction false} SinceConcat(a: seq<Entry>, b: seq<Entry>, cutoff: int)
    ensures Since(a + b, cutoff) == Since(a, cutoff) + Since(b, cutoff)
  {
    if a == [] {
      assert a + b == b;
    } else {
      assert (a + b)[1..] == a[1..] + b;
      SinceConcat(a[1..], b, cutoff);
      assert [a[0]] + (Since(a[1..], cutoff) + Since(b, cutoff)) == ([a[0]] + Since(a[1..], cutoff)) + Since(b, cutoff);
    }
  }

  lemma {:induction false} SinceAll(log: seq<Entry>, cutoff: int, recent: bool)
    requires forall i :: 0 <= i < |log| ==> (log[i].at >= cutoff <==> recent)
    ensures Since(log, cutoff) == if recent then log else []
  {
    if log != [] {
      SinceAll(log[1..], cutoff, recent);
    }
  }

  lemma {:induction false} SumConcat(a: seq<Entry>, b: seq<Entry>)
    ensures Sum(a + b) == Sum(a) + Sum(b)
  {
    if a == [] {
      assert a + b == b;
    } else {
      assert (a + b)[1..] == a[1..] + b;
      SumConcat(a[1..], b);
    }
  }

  lemma {:induction false} SinceLeavesOut(log: seq<Entry>, cutoff: int)
    ensures Sum(Since(log, cutoff)) <= Sum(log)
  {
    if log != [] {
      SinceLeavesOut(log[1..], cutoff);
    }
  }

  /** The window is always a tail of the log, and what was dropped is older than the last drain's cutoff. */
  lemma {:induction false} ReplayIsSuffix(ops: seq<Op>, secs: nat, now: int) returns (k: nat)
    requires DrainedBy(ops, now)
    ensures k <= |Log(ops)| && Replay(ops, secs) == Log(ops)[k..]
    ensures forall i :: 0 <= i < k ==> Log(ops)[i].at < now - secs * SECOND
  {
    k := 0;
    if ops != [] {
      var front := ops[..|ops| - 1];
      k := ReplayIsSuffix(front, secs, now);
      match ops[|ops| - 1] {
        case Push(e) =>
          assert Log(ops)[k..] == Log(front)[k..] + [e];
        case Drain(t) =>
          var j := DropIsSuffix(Replay(front, secs), t - secs * SECOND);
          assert Log(ops)[k + j..] == Log(front)[k..][j..];
          assert forall i :: k <= i < k + j ==> Log(ops)[i] == Log(front)[k..][i - k];
          k := k + j;
      }
    }
  }

  /** Dropping the stale front loses no recent event. */
  lemma DropKeepsRecent(window: seq<Entry>, cutoff: int)
    ensures Since(DropBefore(window, cutoff), cutoff) == Since(window, cutoff)
  {
    var k := DropIsSuffix(window, cutoff);
    assert window == window[..k] + window[k..];
    SinceConcat(window[..k], window[k..], cutoff);
    SinceAll(window[..k], cutoff, false);
  }

  /** The window holds every event of the last `secs` seconds, in order, and its sum never undercounts them. */
  lemma NeverUndercounts(ops: seq<Op>, secs: nat, now: int)
    requires DrainedBy(ops, now)
    ensures var cutoff := now - secs * SECOND;
            var drained := DropBefore(Replay(ops, secs), cutoff);
            Since(drained, cutoff) == Since(Log(ops), cutoff) &&
            Sum(drained) >= Sum(Since(Log(ops), cutoff))
  {
    var cutoff := now - secs * SECOND;
    var k := ReplayIsSuffix(ops, secs, now);
    var log := Log(ops);
    assert log == log[..k] + log[k..];
    SinceConcat(log[..k], log[k..], cutoff);
    SinceAll(log[..k], cutoff, false);
    DropKeepsRecent(log[k..], cutoff);
    SinceLeavesOut(DropBefore(log[k..], cutoff), cutoff);
  }

  /** Draining leaves exactly the recent events if and only if no stale event hides behind a recent one. */
  lemma DrainIsExactIff(window: seq<Entry>, cutoff: int)
    ensures DropBefore(window, cutoff) == Since(window, cutoff) <==> FrontLoaded(window, cutoff)
  {
    var k := DropIsSuffix(window, cutoff);
    DropKeepsRecent(window, cutoff);
    if FrontLoaded(window, cutoff) {
      SinceAll(window[k..], cutoff, true);
    } else {
      var i, j :| 0 <= i < j < |window| && window[i].at >= cutoff > window[j].at;
      SinceMembers(window, cutoff);
      assert window[k..][j - k] == window[j];
    }
  }

  lemma {:induction false} SinceMembers(log: seq<Entry>, cutoff: int)
    ensures forall e :: e in Since(log, cutoff) ==> e.at >= cutoff
  {
    if log != [] {
      SinceMembers(log[1..], cutoff);
    }
  }

  /** With pushes in time order the drained window is exactly the last `secs` seconds of the log. */
  lemma ExactWhenOrdered(ops: seq<Op>, secs: nat, now: int)
    requires DrainedBy(ops, now) && Ordered(Log(ops))
    ensures DropBefore(Replay(ops, secs), now - secs * SECOND) == Since(Log(ops), now - secs * SECOND)
  {
    var cutoff := now - secs * SECOND;
    var k := ReplayIsSuffix(ops, secs, now);
    NeverUndercounts(ops, secs, now);
    DropKeepsRecent(Replay(ops, secs), cutoff);
    assert forall i :: 0 <= i < |Log(ops)| - k ==> Log(ops)[k..][i] == Log(ops)[k + i];
    DrainIsExactIff(Replay(ops, secs), cutoff);
  }

  /** With pushes out of order by at most `d`, nothing older than the window plus `d` is counted. */
  lemma SkewBoundsOvercount(ops: seq<Op>, secs: nat, now: int, d: nat)
    requires DrainedBy(ops, now) && Skewed(Log(ops), d)
    ensures forall e :: e in DropBefore(Replay(ops, secs), now - secs * SECOND) ==> e.at >= now - secs * SECOND - d
  {
    var cutoff := now - secs * SECOND;
    var k := ReplayIsSuffix(ops, secs, now);
    var w := Replay(ops, secs);
    var j := DropIsSuffix(w, cutoff);
    forall i | j <= i < |w|
      ensures w[i].at >= cutoff - d
    {
      assert w[i] == Log(ops)[k + i] && w[j] == Log(ops)[k + j];
    }
    assert forall e :: e in w[j..] ==> exists i :: j <= i < |w| && w[i] == e;
  }

  /** A later cutoff never leaves more in the window. */
  lemma LaterDrainsLess(window: seq<Entry>, early: int, late: int)
    requires early <= late
    ensures DropBefore(DropBefore(window, early), late) == DropBefore(window, late)
    ensures Sum(DropBefore(window, late)) <= Sum(DropBefore(window, early))
  {
    if window != [] && window[0].at < early {
      LaterDrainsLess(window[1..], early, late);
    } else {
      DropSums(window, late);
    }
  }

  lemma DropSums(window: seq<Entry>, cutoff: int)
    ensures Sum(DropBefore(window, cutoff)) <= Sum(window)
  {
  }
}
