/** Back-off and reconcile cadence of the push loop (push.go:97-118, 123-142, 355-364). */
module PushTiming {
  import opened Common
  import opened PushProtocol

  // ---- back-off -----------------------------------------------------------------------------------

  function Pow2(n: nat): (p: nat)
    ensures p > 0
  {
    if n == 0 then 1 else 2 * Pow2(n - 1)
  }

  function Iterated(n: nat): (backoff: nat) {
    if n == 0 then 0 else NextBackoff(Iterated(n - 1))
  }

  /** Iterated on its own, NextBackoff doubles from 30 seconds up to five minutes, in nanoseconds. */
  lemma {:induction false} BackoffDoubles(n: nat)
    requires n >= 1
    ensures Iterated(n) == Min(30_000_000_000 * Pow2(n - 1), 300_000_000_000)
  {
    if n == 1 {
      assert Iterated(0) == 0;
    } else {
      BackoffDoubles(n - 1);
      assert PUSH_INTERVAL * Pow2(n - 1) == 2 * (PUSH_INTERVAL * Pow2(n - 2));
    }
  }

  predicate BackoffInv(s: State) {
    && (s.backoff == 0 || s.backoff == PUSH_INTERVAL)
    && (s.backoff != 0 ==> s.phase.Waiting? || s.phase.Stopped? || (s.phase.Pushing? && s.phase.final))
  }

  lemma NextKeepsBackoff(s: State, e: Event)
    requires BackoffInv(s) && Enabled(s, e)
    ensures BackoffInv(Next(s, e))
  {
  }

  /** In the loop, though, the back-off is counted down to 0 before each retry. It is never anything but 0
      or 30 seconds, every failure announces the same 30 seconds, and every tick flushes: the doubling
      never happens and no tick is skipped. */
  lemma {:induction false} BackoffNeverGrows(canReconcile: bool, now: int, es: seq<Event>)
    requires IsRun(Init(canReconcile, now), es)
    ensures var s := After(Init(canReconcile, now), es);
      && BackoffInv(s)
      && (s.phase.Failed? ==> Rebuffered(s).backoff == 30_000_000_000)
      && (s.phase.Waiting? && s.buf != [] ==>
            Ticked(s).phase == Pushing(s.buf, s.buf, 0, false) && Ticked(s).buf == [])
  {
    if es != [] {
      BackoffNeverGrows(canReconcile, now, es[..|es| - 1]);
      NextKeepsBackoff(After(Init(canReconcile, now), es[..|es| - 1]), es[|es| - 1]);
    }
  }

  // ---- reconcile cadence --------------------------------------------------------------------------

  /** Starts and finishes alternate, and each start is at least `gap` after the previous finish. */
  predicate Spaced(starts: seq<int>, finishes: seq<int>, gap: nat)
    decreases |starts| + |finishes|
  {
    if starts == [] then finishes == []
    else if |starts| == |finishes| then
      var n := |starts| - 1;
      Spaced(starts, finishes[..n], gap) && starts[n] <= finishes[n]
    else
      var n := |starts| - 1;
      n == |finishes| && Spaced(starts[..n], finishes, gap) && (n > 0 ==> starts[n] >= finishes[n - 1] + gap)
  }

  predicate CadenceInv(s: State) {
    && Spaced(s.starts, s.finishes, SNAPSHOT_COOLDOWN)
    && |s.starts| == |s.finishes| + (if s.phase.Snapshotting? then 1 else 0)
    && s.lastSnapshotAt == (if s.finishes == [] then None else Some(s.finishes[|s.finishes| - 1]))
    && (s.phase.Snapshotting? ==> s.starts[|s.starts| - 1] <= s.now)
  }

  lemma StartKeepsSpacing(starts: seq<int>, finishes: seq<int>, gap: nat, at: int)
    requires Spaced(starts, finishes, gap) && |starts| == |finishes|
    requires finishes != [] ==> at >= finishes[|finishes| - 1] + gap
    ensures Spaced(starts + [at], finishes, gap)
  {
    assert (starts + [at])[..|starts|] == starts;
  }

  lemma FinishKeepsSpacing(starts: seq<int>, finishes: seq<int>, gap: nat, at: int)
    requires Spaced(starts, finishes, gap) && |starts| == |finishes| + 1 && starts[|finishes|] <= at
    ensures Spaced(starts, finishes + [at], gap)
  {
    assert (finishes + [at])[..|finishes|] == finishes;
  }

  lemma CompareKeepsCadence(s: State, at: int)
    requires CadenceInv(s) && s.phase.Succeeded? && at >= s.now
    ensures CadenceInv(Compared(s, at)) && Compared(s, at).now >= s.now
  {
    if Compared(s, at).phase.Snapshotting? {
      StartKeepsSpacing(s.starts, s.finishes, SNAPSHOT_COOLDOWN, at);
    }
  }

  lemma DoneKeepsCadence(s: State, at: int)
    requires CadenceInv(s) && s.phase.Snapshotting? && at >= s.now
    ensures CadenceInv(Next(s, SnapshotDone(at)))
  {
    FinishKeepsSpacing(s.starts, s.finishes, SNAPSHOT_COOLDOWN, at);
  }

  lemma QuietStepKeepsCadence(s: State, t: State)
    requires CadenceInv(s) && t.starts == s.starts && t.finishes == s.finishes && t.now == s.now
    requires t.lastSnapshotAt == s.lastSnapshotAt && (t.phase.Snapshotting? <==> s.phase.Snapshotting?)
    ensures CadenceInv(t)
  {
  }

  lemma NextKeepsCadence(s: State, e: Event)
    requires CadenceInv(s) && Enabled(s, e)
    ensures CadenceInv(Next(s, e)) && Next(s, e).now >= s.now
  {
    match e
    case Compare(at) => CompareKeepsCadence(s, at);
    case SnapshotDone(at) => DoneKeepsCadence(s, at);
    case Write(p) => QuietStepKeepsCadence(s, Captured(s, p));
    case Tick => QuietStepKeepsCadence(s, Ticked(s));
    case Acked(seen) => QuietStepKeepsCadence(s, BatchAcked(s, seen));
    case NotAcked => QuietStepKeepsCadence(s, BatchNotAcked(s));
    case PutBack => QuietStepKeepsCadence(s, Rebuffered(s));
    case Shutdown => QuietStepKeepsCadence(s, LastFlush(s));
  }

  lemma {:induction false} RunKeepsCadence(canReconcile: bool, now: int, es: seq<Event>)
    requires IsRun(Init(canReconcile, now), es)
    ensures CadenceInv(After(Init(canReconcile, now), es))
  {
    if es != [] {
      RunKeepsCadence(canReconcile, now, es[..|es| - 1]);
      NextKeepsCadence(After(Init(canReconcile, now), es[..|es| - 1]), es[|es| - 1]);
    }
  }

  lemma {:induction false} StartsAreSpaced(starts: seq<int>, finishes: seq<int>, gap: nat, i: nat, j: nat)
    requires Spaced(starts, finishes, gap) && i <= j < |starts|
    ensures starts[j] - starts[i] >= (j - i) * gap
    decreases |starts| + |finishes|
  {
    var n := |starts| - 1;
    if |starts| == |finishes| {
      StartsAreSpaced(starts, finishes[..n], gap, i, j);
    } else if j < n {
      StartsAreSpaced(starts[..n], finishes, gap, i, j);
    } else if i < n {
      StartsAreSpaced(starts[..n], finishes, gap, i, n - 1);
      assert starts[n] >= finishes[n - 1] + gap >= starts[n - 1] + gap;
      assert (n - i) * gap == (n - 1 - i) * gap + gap;
    }
  }

  lemma FloorBound(n: nat, gap: nat, window: nat)
    requires gap > 0 && n * gap <= window
    ensures n <= window / gap
  {
    if n > window / gap {
      MulKeepsOrder(window / gap + 1, n, gap);
    }
  }

  lemma MulKeepsOrder(a: nat, b: nat, c: nat)
    requires a <= b
    ensures a * c <= b * c
  {
    assert b * c == a * c + (b - a) * c;
  }

  /** Whatever the server acknowledges, the snapshots i..j started inside a window of length `window` number
      at most window / five minutes + 1. */
  lemma ReconcileRateBound(canReconcile: bool, now: int, es: seq<Event>, i: nat, j: nat, window: nat)
    requires IsRun(Init(canReconcile, now), es)
    requires i <= j < |After(Init(canReconcile, now), es).starts|
    requires var s := After(Init(canReconcile, now), es); s.starts[j] - s.starts[i] <= window
    ensures j - i + 1 <= window / 300_000_000_000 + 1
  {
    var s := After(Init(canReconcile, now), es);
    RunKeepsCadence(canReconcile, now, es);
    StartsAreSpaced(s.starts, s.finishes, SNAPSHOT_COOLDOWN, i, j);
    FloorBound(j - i, SNAPSHOT_COOLDOWN, window);
  }
}
