/** The heartbeat loop: its log and its waits (push.go:271-319, 344-353). */
module Heartbeats {
  import opened Common
  import opened PushTiming

  /** Durations and times are in nanoseconds. */
  const MINUTE := 60_000_000_000
  const MAX_HEARTBEAT_BACKOFF := 15 * MINUTE
  const REMINDER_AFTER := 60 * MINUTE

  // ---- waits --------------------------------------------------------------------------------------

  /** int64 arithmetic wraps around. */
  function Wrap64(n: int): (r: int)
    ensures -0x8000_0000_0000_0000 <= r < 0x8000_0000_0000_0000 && (r - n) % 0x1_0000_0000_0000_0000 == 0
  {
    (n + 0x8000_0000_0000_0000) % 0x1_0000_0000_0000_0000 - 0x8000_0000_0000_0000
  }

  /** d doubled up to n times, stopping at the cap. */
  function Doubled(d: int, n: nat): (r: int)
    decreases n
  {
    if n == 0 then d
    else if Wrap64(d * 2) >= MAX_HEARTBEAT_BACKOFF then MAX_HEARTBEAT_BACKOFF
    else Doubled(Wrap64(d * 2), n - 1)
  }

  function HeartbeatWait(base: int, failures: int): (wait: int) {
    Doubled(base, if failures > 1 then failures - 1 else 0)
  }

  method NextHeartbeatBackoff(base: int, consecutiveFailures: int) returns (d: int)
    ensures d == HeartbeatWait(base, consecutiveFailures)
  {
    d := base;
    var i := 1;
    while i < consecutiveFailures
      invariant i >= 1
      invariant Doubled(d, if consecutiveFailures > i then consecutiveFailures - i else 0)
             == HeartbeatWait(base, consecutiveFailures)
    {
      d := Wrap64(d * 2);
      if d >= MAX_HEARTBEAT_BACKOFF {
        return MAX_HEARTBEAT_BACKOFF;
      }
      i := i + 1;
    }
  }

  /** Nothing wraps around: the wait doubles up to the cap. */
  lemma {:induction false} DoublesWithoutWrapping(d: int, n: nat)
    requires 0 < d < 0x4000_0000_0000_0000 && n >= 1
    ensures Doubled(d, n) == Min(d * Pow2(n), MAX_HEARTBEAT_BACKOFF)
    decreases n
  {
    assert d * Pow2(n) == d * 2 * Pow2(n - 1);
    if d * 2 >= MAX_HEARTBEAT_BACKOFF {
      AtLeast(d * 2, Pow2(n - 1));
    } else if n > 1 {
      DoublesWithoutWrapping(d * 2, n - 1);
    } else {
      assert Pow2(n - 1) == 1;
      assert Doubled(d * 2, 0) == d * 2;
    }
  }

  lemma AtLeast(a: int, p: nat)
    requires a >= 0 && p >= 1
    ensures a * p >= a
  {
  }

  ghost predicate IsCappedDoubling(base: int) {
    forall failures :: HeartbeatWait(base, failures)
      == if failures <= 1 then base else Min(base * Pow2(failures - 1), 900_000_000_000)
  }

  /** The wait is base, then base * 2^(failures - 1) up to 15 minutes, for exactly the bases below 2^62. */
  lemma BackoffIsCappedDoubling(base: int)
    requires 0 < base < 0x8000_0000_0000_0000
    ensures IsCappedDoubling(base) <==> base < 0x4000_0000_0000_0000
  {
    if base < 0x4000_0000_0000_0000 {
      forall failures: int | failures > 1
        ensures HeartbeatWait(base, failures) == Min(base * Pow2(failures - 1), MAX_HEARTBEAT_BACKOFF)
      {
        DoublesWithoutWrapping(base, failures - 1);
      }
    } else {
      assert Wrap64(base * 2) == base * 2 - 0x1_0000_0000_0000_0000;
      assert Doubled(Wrap64(base * 2), 0) == Wrap64(base * 2);
      assert HeartbeatWait(base, 2) == Wrap64(base * 2) < 0;
      assert Pow2(1) == 2 * Pow2(0) == 2;
    }
  }

  ghost predicate NeverShrinks(base: int) {
    forall failures: int :: HeartbeatWait(base, failures) <= HeartbeatWait(base, failures + 1)
  }

  /** More failures never shorten the wait, for exactly the bases up to the cap of 15 minutes. */
  lemma BackoffNeverShrinks(base: int)
    requires 0 < base < 0x8000_0000_0000_0000
    ensures NeverShrinks(base) <==> base <= 900_000_000_000
  {
    forall failures: int | base <= MAX_HEARTBEAT_BACKOFF
      ensures HeartbeatWait(base, failures) <= HeartbeatWait(base, failures + 1)
    {
      if failures > 1 {
        DoublesWithoutWrapping(base, failures - 1);
        DoublesWithoutWrapping(base, failures);
        AtLeast(base * Pow2(failures - 1), 2);
        assert base * Pow2(failures) == base * Pow2(failures - 1) * 2;
      } else if failures == 1 {
        DoublesWithoutWrapping(base, 1);
        AtLeast(base, Pow2(1));
      }
    }
    if base > MAX_HEARTBEAT_BACKOFF {
      assert Doubled(base, 1) == if Wrap64(base * 2) >= MAX_HEARTBEAT_BACKOFF then MAX_HEARTBEAT_BACKOFF
                                 else Doubled(Wrap64(base * 2), 0);
      assert HeartbeatWait(base, 1) > HeartbeatWait(base, 1 + 1);
    }
  }

  // ---- the log ------------------------------------------------------------------------------------

  /** One attempt: its outcome, and the clock when the reminder is checked, when a message is written, and
      when that is noted. Checked and noted bracket written. */
  datatype Attempt = Attempt(ok: bool, checked: int, written: int, noted: int)

  datatype Message =
    | Ok
    | Error(failures: nat, at: int, noted: int)
    | Restored(after: nat)

  datatype State = State(consecutiveFailures: nat, lastErrorLog: Option<int>, firstTick: bool, log: seq<Message>)

  const INIT := State(0, None, true, [])

  function Failed(s: State, t: Attempt): (n: State) {
    var s := s.(consecutiveFailures := s.consecutiveFailures + 1, firstTick := false);
    if s.consecutiveFailures == 1 || s.lastErrorLog == None || t.checked - s.lastErrorLog.value >= REMINDER_AFTER
    then s.(log := s.log + [Error(s.consecutiveFailures, t.written, t.noted)], lastErrorLog := Some(t.noted))
    else s
  }

  function Succeeded(s: State): (n: State) {
    if s.consecutiveFailures > 0
    then s.(log := s.log + [Restored(s.consecutiveFailures)], consecutiveFailures := 0, lastErrorLog := None)
    else if s.firstTick then s.(log := s.log + [Ok], firstTick := false)
    else s
  }

  function Next(s: State, t: Attempt): (n: State) {
    if t.ok then Succeeded(s) else Failed(s, t)
  }

  function After(ts: seq<Attempt>): (s: State) {
    if ts == [] then INIT else Next(After(ts[..|ts| - 1]), ts[|ts| - 1])
  }

  ghost predicate IsTimely(ts: seq<Attempt>) {
    && (forall i :: 0 <= i < |ts| ==> ts[i].checked <= ts[i].written <= ts[i].noted)
    && (forall i, j :: 0 <= i < j < |ts| ==> ts[i].noted <= ts[j].checked)
  }

  /** The loop's variables. */
  class HeartbeatLoop {
    const interval: int
    var consecutiveFailures: nat
    var lastErrorLog: Option<int>
    var firstTick: bool
    var log: seq<Message>
    ghost var attempts: seq<Attempt>

    ghost predicate Valid()
      reads this
    {
      State(consecutiveFailures, lastErrorLog, firstTick, log) == After(attempts)
    }

    constructor (interval: int)
      ensures Valid() && attempts == [] && this.interval == interval
    {
      this.interval := interval;
      consecutiveFailures, lastErrorLog, firstTick, log, attempts := 0, None, true, [], [];
    }

    /** One heartbeat; the result is the wait before the next. */
    method Beat(t: Attempt) returns (wait: int)
      requires Valid()
      modifies this
      ensures Valid() && attempts == old(attempts) + [t]
      ensures wait == HeartbeatWait(interval, if t.ok then 0 else FailingSuffix(attempts))
    {
      attempts := attempts + [t];
      assert attempts[..|attempts| - 1] == old(attempts);
      CountIsFailingSuffix(old(attempts));
      if !t.ok {
        consecutiveFailures := consecutiveFailures + 1;
        if consecutiveFailures == 1 || lastErrorLog == None || t.checked - lastErrorLog.value >= REMINDER_AFTER {
          log := log + [Error(consecutiveFailures, t.written, t.noted)];
          lastErrorLog := Some(t.noted);
        }
        wait := NextHeartbeatBackoff(interval, consecutiveFailures);
        firstTick := false;
        return;
      }
      if consecutiveFailures > 0 {
        log := log + [Restored(consecutiveFailures)];
        consecutiveFailures := 0;
        lastErrorLog := None;
      } else if firstTick {
        log := log + [Ok];
        firstTick := false;
      }
      wait := interval;
    }
  }

  /** The length of the run of failures that ts ends with. */
  function FailingSuffix(ts: seq<Attempt>): (n: nat) {
    if ts == [] || ts[|ts| - 1].ok then 0 else 1 + FailingSuffix(ts[..|ts| - 1])
  }

  lemma {:induction false} CountIsFailingSuffix(ts: seq<Attempt>)
    ensures After(ts).consecutiveFailures == FailingSuffix(ts)
    ensures After(ts).firstTick <==> ts == []
  {
    if ts != [] {
      CountIsFailingSuffix(ts[..|ts| - 1]);
    }
  }

  lemma {:induction false} FailingSuffixIsLongest(ts: seq<Attempt>)
    ensures var n := FailingSuffix(ts);
      && n <= |ts|
      && (forall i :: |ts| - n <= i < |ts| ==> !ts[i].ok)
      && (n < |ts| ==> ts[|ts| - n - 1].ok)
  {
    if ts != [] && !ts[|ts| - 1].ok {
      FailingSuffixIsLongest(ts[..|ts| - 1]);
    }
  }

  /** What an attempt adds to the log, told from the outcomes alone but for the reminders. */
  lemma CountsAreFailingSuffixes(ts: seq<Attempt>, t: Attempt)
    ensures var before, log, n := After(ts).log, After(ts + [t]).log, FailingSuffix(ts);
      && (t.ok && ts == [] ==> log == before + [Ok])
      && (t.ok && ts != [] ==> log == if n > 0 then before + [Restored(n)] else before)
      && (!t.ok ==> log == before + [Error(n + 1, t.written, t.noted)] || (n > 0 && log == before))
  {
    assert (ts + [t])[..|ts|] == ts;
    CountIsFailingSuffix(ts);
  }

  // ---- the word of messages -----------------------------------------------------------------------

  ghost predicate AreErrors(w: seq<Message>) {
    forall i :: 0 <= i < |w| ==> w[i].Error?
  }

  /** (ERROR+ restored)* ERROR* */
  ghost predicate AreOutages(w: seq<Message>) {
    AreErrors(w) || exists n :: 0 < n < |w| && AreErrors(w[..n]) && w[n].Restored? && AreOutages(w[n + 1..])
  }

  /** ok? (ERROR+ restored)* ERROR* */
  ghost predicate IsWord(w: seq<Message>) {
    AreOutages(w) || (w != [] && w[0].Ok? && AreOutages(w[1..]))
  }

  ghost predicate FollowsInLog(w: seq<Message>, i: int)
    requires 0 <= i < |w|
  {
    && (w[i].Ok? ==> i == 0)
    && (w[i].Restored? ==> i > 0 && w[i - 1].Error?)
  }

  function LeadingErrors(w: seq<Message>): (n: nat)
    ensures n <= |w| && AreErrors(w[..n]) && (n < |w| ==> !w[n].Error?)
  {
    if w == [] || !w[0].Error? then 0 else 1 + LeadingErrors(w[1..])
  }

  lemma {:induction false} OutagesFromSteps(w: seq<Message>)
    requires forall i :: 0 <= i < |w| ==> FollowsInLog(w, i)
    requires w != [] ==> !w[0].Ok?
    ensures AreOutages(w)
    decreases |w|
  {
    var n := LeadingErrors(w);
    if n < |w| {
      assert FollowsInLog(w, n);
      var rest := w[n + 1..];
      SuffixFollows(w, n);
      OutagesFromSteps(rest);
      assert 0 < n && AreErrors(w[..n]) && w[n].Restored? && AreOutages(w[n + 1..]);
    } else {
      assert w[..n] == w;
    }
  }

  /** What comes after a message that is not an ERROR is again a log, without an ok. */
  lemma SuffixFollows(w: seq<Message>, n: nat)
    requires n < |w| && !w[n].Error? && forall i :: 0 <= i < |w| ==> FollowsInLog(w, i)
    ensures var rest := w[n + 1..];
      (rest != [] ==> !rest[0].Ok?) && forall i :: 0 <= i < |rest| ==> FollowsInLog(rest, i)
  {
    var rest := w[n + 1..];
    forall i | 0 <= i < |rest| ensures !rest[i].Ok? && FollowsInLog(rest, i) {
      assert FollowsInLog(w, n + 1 + i);
    }
  }

  lemma WordFromSteps(w: seq<Message>)
    requires forall i :: 0 <= i < |w| ==> FollowsInLog(w, i)
    ensures IsWord(w)
    ensures Ok in w <==> w != [] && w[0].Ok?
  {
    if w != [] && w[0].Ok? {
      SuffixFollows(w, 0);
      OutagesFromSteps(w[1..]);
    } else {
      OutagesFromSteps(w);
    }
    if Ok in w {
      var i :| 0 <= i < |w| && w[i] == Ok;
      assert FollowsInLog(w, i);
    }
  }

  lemma FollowsSnoc(w: seq<Message>, m: Message)
    requires forall i :: 0 <= i < |w| ==> FollowsInLog(w, i)
    requires (m.Ok? ==> w == []) && (m.Restored? ==> w != [] && w[|w| - 1].Error?)
    ensures forall i :: 0 <= i < |w + [m]| ==> FollowsInLog(w + [m], i)
  {
    forall i | 0 <= i < |w + [m]| ensures FollowsInLog(w + [m], i) {
      if i < |w| {
        assert FollowsInLog(w, i);
      }
    }
  }

  lemma {:induction false} LogFollows(ts: seq<Attempt>)
    ensures var s := After(ts);
      && (forall i :: 0 <= i < |s.log| ==> FollowsInLog(s.log, i))
      && (ts == [] ==> s.log == [])
      && (ts != [] ==> s.log != [] && (s.log[0].Ok? <==> ts[0].ok))
      && (s.consecutiveFailures > 0 ==> s.log[|s.log| - 1].Error?)
  {
    if ts != [] {
      var before, after := After(ts[..|ts| - 1]), After(ts);
      LogFollows(ts[..|ts| - 1]);
      CountIsFailingSuffix(ts[..|ts| - 1]);
      if after.log != before.log {
        FollowsSnoc(before.log, after.log[|after.log| - 1]);
      }
    }
  }

  /** Every run's log is a word of ok? (ERROR+ restored)* ERROR*, and it has the ok exactly when the first
      attempt succeeded. */
  lemma LogIsWord(ts: seq<Attempt>)
    ensures IsWord(After(ts).log)
    ensures Ok in After(ts).log <==> ts != [] && ts[0].ok
  {
    LogFollows(ts);
    WordFromSteps(After(ts).log);
  }

  // ---- reminders ----------------------------------------------------------------------------------

  ghost predicate ErrorsAreSpaced(w: seq<Message>) {
    forall i :: 0 < i < |w| && w[i - 1].Error? && w[i].Error? ==> w[i].at - w[i - 1].at >= 3_600_000_000_000
  }

  ghost predicate NotesLastError(s: State) {
    s.consecutiveFailures > 0 ==>
      && s.log != [] && s.log[|s.log| - 1].Error?
      && s.lastErrorLog == Some(s.log[|s.log| - 1].noted) && s.log[|s.log| - 1].at <= s.log[|s.log| - 1].noted
  }

  ghost predicate EndsUp(s: State) {
    s.consecutiveFailures == 0 ==> s.log == [] || !s.log[|s.log| - 1].Error?
  }

  lemma {:induction false} RemindersAreSpaced(ts: seq<Attempt>)
    requires IsTimely(ts)
    ensures var s := After(ts); ErrorsAreSpaced(s.log) && NotesLastError(s) && EndsUp(s)
  {
    if ts != [] {
      RemindersAreSpaced(ts[..|ts| - 1]);
    }
  }

  lemma {:induction false} SpacingAddsUp(w: seq<Message>, i: nat, j: nat)
    requires ErrorsAreSpaced(w) && i <= j < |w| && AreErrors(w[i..j + 1])
    ensures w[i].Error? && w[j].Error? && w[j].at - w[i].at >= (j - i) * 3_600_000_000_000
  {
    assert w[i] == w[i..j + 1][0] && w[j] == w[i..j + 1][j - i];
    if i < j {
      assert forall k :: 0 <= k < j - i ==> w[i..j][k] == w[i..j + 1][k];
      SpacingAddsUp(w, i, j - 1);
    }
  }

  /** The ERRORs of one outage are at least an hour apart, so n + 1 of them span at least n hours; and no
      failing attempt comes an hour after the last ERROR without a fresh one. */
  lemma OutagesAreNeitherFloodedNorSilent(ts: seq<Attempt>, i: nat, j: nat)
    requires IsTimely(ts)
    ensures var w := After(ts).log;
      i <= j < |w| && AreErrors(w[i..j + 1]) ==>
        w[i].Error? && w[j].Error? && w[j].at - w[i].at >= (j - i) * 3_600_000_000_000
    ensures var w := After(ts).log;
      ts != [] && !ts[|ts| - 1].ok ==>
        w != [] && w[|w| - 1].Error? && ts[|ts| - 1].checked - w[|w| - 1].noted < 3_600_000_000_000
  {
    RemindersAreSpaced(ts);
    var w := After(ts).log;
    if i <= j < |w| && AreErrors(w[i..j + 1]) {
      SpacingAddsUp(w, i, j);
    }
    if ts != [] && !ts[|ts| - 1].ok {
      RemindersAreSpaced(ts[..|ts| - 1]);
    }
  }
}
