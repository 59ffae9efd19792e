/** What every run of the push loop keeps: the buffer with its drops, in-flight batches and rebuffering
    behaves like an append-only log with one acknowledged cursor. */
module PushInvariants {
  import opened Common
  import opened Records
  import opened LineCaptures
  import opened PushProtocol

  /** The records a flush holds that are neither acknowledged nor back in the buffer. */
  function InFlight(s: State): (f: seq<Item>) {
    match s.phase
    case Pushing(_, rest, _, _) => rest
    case Failed(unsent) => unsent
    case _ => []
  }

  function EndOf(items: seq<Item>): (end: nat) {
    if items == [] then 0 else items[|items| - 1].index + 1
  }

  /** The cursor: the log position just past the last acknowledged record. */
  function Cursor(s: State): (c: nat) {
    EndOf(s.delivered)
  }

  /** Where the buffer's part of the log begins: past the flush in flight, if there is one. */
  function Base(s: State): (b: nat) {
    if InFlight(s) != [] then EndOf(InFlight(s))
    else if s.abandoned != [] then EndOf(s.abandoned)
    else Cursor(s)
  }

  ghost predicate Tagged(log: seq<Item>) {
    forall i :: 0 <= i < |log| ==> log[i].index == i
  }

  /** The records are log records, in strictly increasing log order. */
  predicate InLogOrder(items: seq<Item>, log: seq<Item>) {
    items == [] ||
    var front, last := items[..|items| - 1], items[|items| - 1];
    InLogOrder(front, log) && EndOf(front) <= last.index < |log| && log[last.index] == last
  }

  predicate PhaseInv(s: State) {
    && (s.phase.Pushing? ==> s.phase.rest != [] && |s.phase.rest| <= |s.phase.all|)
    && (s.phase.Pushing? ==> s.phase.rest == s.phase.all[|s.phase.all| - |s.phase.rest|..])
    && (s.phase.Failed? ==> s.phase.unsent != [])
    && (s.abandoned != [] ==> s.phase.Stopped? && Cursor(s) <= EndOf(s.abandoned))
  }

  /** The flight and the buffer are the newest 10,000 of their stretch of the log. */
  predicate SliceInv(s: State) {
    && Cursor(s) <= Base(s) <= |s.log|
    && (InFlight(s) != [] ==> InFlight(s) == LastN(s.log[Cursor(s)..Base(s)], MAX_BUFFER_SIZE))
    && s.buf == LastN(s.log[Base(s)..], MAX_BUFFER_SIZE)
  }

  ghost predicate LogInv(s: State) {
    Tagged(s.log) && InLogOrder(s.delivered, s.log) && PhaseInv(s) && SliceInv(s)
  }

  // ---- suffix algebra ---------------------------------------------------------------------------

  lemma LastNOfConcat<T>(a: seq<T>, b: seq<T>, n: nat)
    ensures LastN(LastN(a, n) + LastN(b, n), n) == LastN(a + b, n)
  {
    if |b| <= n < |a| {
      assert a + b == a[..|a| - n] + (a[|a| - n..] + b);
    }
  }

  lemma EndOfLogSlice(log: seq<Item>, lo: nat, hi: nat, n: nat)
    requires Tagged(log) && lo < hi <= |log| && n > 0
    ensures LastN(log[lo..hi], n) != [] && EndOf(LastN(log[lo..hi], n)) == hi
    ensures LastN(log[lo..hi], n) == log[Max(lo, hi - n)..hi]
  {
  }

  // ---- each step keeps the log shape --------------------------------------------------------------

  lemma {:induction false} OrderSurvivesGrowth(items: seq<Item>, log: seq<Item>, x: Item)
    requires InLogOrder(items, log)
    ensures InLogOrder(items, log + [x])
  {
    if items != [] {
      OrderSurvivesGrowth(items[..|items| - 1], log, x);
    }
  }

  lemma CaptureKeepsSlices(s: State, p: Line)
    requires PhaseInv(s) && SliceInv(s)
    ensures PhaseInv(Captured(s, p)) && SliceInv(Captured(s, p))
  {
    if IsCaptured(p) {
      var x := Item(|s.log|, Trimmed(p));
      LastNOfConcat(s.log[Base(s)..], [x], MAX_BUFFER_SIZE);
      assert (s.log + [x])[Base(s)..] == s.log[Base(s)..] + [x];
      assert (s.log + [x])[Cursor(s)..Base(s)] == s.log[Cursor(s)..Base(s)];
    }
  }

  lemma CaptureKeepsLog(s: State, p: Line)
    requires LogInv(s)
    ensures LogInv(Captured(s, p))
  {
    if IsCaptured(p) {
      OrderSurvivesGrowth(s.delivered, s.log, Item(|s.log|, Trimmed(p)));
    }
    CaptureKeepsSlices(s, p);
  }

  /** A flush takes the whole buffer, so the buffer's part of the log restarts at its end. */
  lemma FlushKeepsLog(s: State, final: bool)
    requires LogInv(s) && s.phase.Waiting? && s.buf != []
    ensures LogInv(s.(buf := [], phase := Pushing(s.buf, s.buf, 0, final)))
  {
    EndOfLogSlice(s.log, Base(s), |s.log|, MAX_BUFFER_SIZE);
    assert s.log[Base(s)..|s.log|] == s.log[Base(s)..];
  }

  lemma TickKeepsLog(s: State)
    requires LogInv(s) && s.phase.Waiting?
    ensures LogInv(Ticked(s))
  {
    if s.backoff > PUSH_INTERVAL || s.buf == [] {
      QuietStepKeepsLog(s, Ticked(s));
    } else {
      FlushKeepsLog(s.(backoff := 0), false);
    }
  }

  lemma ShutdownKeepsLog(s: State)
    requires LogInv(s) && s.phase.Waiting?
    ensures LogInv(LastFlush(s))
  {
    if s.buf == [] {
      QuietStepKeepsLog(s, LastFlush(s));
    } else {
      FlushKeepsLog(s, true);
    }
  }

  lemma DeliverOne(delivered: seq<Item>, log: seq<Item>, x: Item)
    requires InLogOrder(delivered, log) && EndOf(delivered) <= x.index < |log| && log[x.index] == x
    ensures InLogOrder(delivered + [x], log) && EndOf(delivered + [x]) == x.index + 1
  {
    assert (delivered + [x])[..|delivered|] == delivered;
  }

  lemma SliceSnoc<T>(front: seq<T>, s: seq<T>, lo: nat, hi: nat)
    requires lo < hi <= |s|
    ensures front + s[lo..hi] == front + s[lo..hi - 1] + [s[hi - 1]]
  {
  }

  lemma {:induction false} DeliverSlice(delivered: seq<Item>, log: seq<Item>, lo: nat, hi: nat)
    requires Tagged(log) && InLogOrder(delivered, log)
    requires EndOf(delivered) <= lo <= hi <= |log|
    ensures InLogOrder(delivered + log[lo..hi], log)
    ensures EndOf(delivered + log[lo..hi]) == if lo < hi then hi else EndOf(delivered)
    decreases hi
  {
    if lo == hi {
      assert delivered + log[lo..hi] == delivered;
    } else {
      DeliverSlice(delivered, log, lo, hi - 1);
      SliceSnoc(delivered, log, lo, hi);
      DeliverOne(delivered + log[lo..hi - 1], log, log[hi - 1]);
    }
  }

  /** What a flush in flight is, in terms of the log: everything from `FlightStart` to `Base`. */
  function FlightStart(s: State): (lo: nat) {
    Max(Cursor(s), Base(s) - MAX_BUFFER_SIZE)
  }

  lemma FlightIsSlice(s: State)
    requires Tagged(s.log) && SliceInv(s) && InFlight(s) != []
    ensures Cursor(s) <= FlightStart(s) < Base(s) <= |s.log|
    ensures InFlight(s) == s.log[FlightStart(s)..Base(s)]
  {
    EndOfLogSlice(s.log, Cursor(s), Base(s), MAX_BUFFER_SIZE);
  }

  lemma SplitSlice(log: seq<Item>, lo: nat, hi: nat, n: nat)
    requires lo + n <= hi <= |log|
    ensures log[lo..hi][..n] == log[lo..lo + n] && log[lo..hi][n..] == log[lo + n..hi]
  {
  }

  lemma AckKeepsPhase(s: State, seen: EventID)
    requires PhaseInv(s) && s.phase.Pushing?
    ensures PhaseInv(BatchAcked(s, seen))
  {
    var all, rest, n := s.phase.all, s.phase.rest, |Batch(s.phase.rest)|;
    assert all[|all| - |rest|..][n..] == all[|all| - |rest[n..]|..];
  }

  lemma LastAckKeepsSlices(s: State, seen: EventID)
    requires Tagged(s.log) && SliceInv(s) && s.phase.Pushing? && s.phase.rest != [] && s.abandoned == []
    requires Cursor(BatchAcked(s, seen)) == FlightStart(s) + |Batch(s.phase.rest)|
    requires s.phase.rest[|Batch(s.phase.rest)|..] == []
    ensures SliceInv(BatchAcked(s, seen))
  {
    FlightIsSlice(s);
  }

  lemma EarlyAckKeepsSlices(s: State, seen: EventID)
    requires Tagged(s.log) && SliceInv(s) && s.phase.Pushing? && s.phase.rest != [] && s.abandoned == []
    requires Cursor(BatchAcked(s, seen)) == FlightStart(s) + |Batch(s.phase.rest)|
    requires s.phase.rest[|Batch(s.phase.rest)|..] != []
    ensures SliceInv(BatchAcked(s, seen))
  {
    FlightIsSlice(s);
    SplitSlice(s.log, FlightStart(s), Base(s), |Batch(s.phase.rest)|);
    var rest := s.phase.rest[|Batch(s.phase.rest)|..];
    assert EndOf(rest) == EndOf(s.phase.rest);
    assert |rest| <= MAX_BUFFER_SIZE;
  }

  lemma AckKeepsSlices(s: State, seen: EventID)
    requires Tagged(s.log) && SliceInv(s) && s.phase.Pushing? && s.phase.rest != [] && s.abandoned == []
    requires Cursor(BatchAcked(s, seen)) == FlightStart(s) + |Batch(s.phase.rest)|
    ensures SliceInv(BatchAcked(s, seen))
  {
    if s.phase.rest[|Batch(s.phase.rest)|..] == [] {
      LastAckKeepsSlices(s, seen);
    } else {
      EarlyAckKeepsSlices(s, seen);
    }
  }

  lemma BatchIsSlice(s: State)
    requires Tagged(s.log) && SliceInv(s) && s.phase.Pushing? && s.phase.rest != []
    ensures var lo, n := FlightStart(s), |Batch(s.phase.rest)|;
      && Cursor(s) <= lo < lo + n <= Base(s) <= |s.log|
      && Batch(s.phase.rest) == s.log[lo..lo + n]
  {
    FlightIsSlice(s);
    SplitSlice(s.log, FlightStart(s), Base(s), |Batch(s.phase.rest)|);
  }

  lemma AckDelivers(s: State, seen: EventID)
    requires Tagged(s.log) && InLogOrder(s.delivered, s.log) && SliceInv(s)
    requires s.phase.Pushing? && s.phase.rest != []
    ensures var lo, n := FlightStart(s), |Batch(s.phase.rest)|;
      && lo < lo + n <= |s.log|
      && BatchAcked(s, seen).delivered == s.delivered + s.log[lo..lo + n]
      && InLogOrder(BatchAcked(s, seen).delivered, s.log)
      && Cursor(BatchAcked(s, seen)) == lo + n
  {
    BatchIsSlice(s);
    DeliverSlice(s.delivered, s.log, FlightStart(s), FlightStart(s) + |Batch(s.phase.rest)|);
  }

  lemma AckKeepsLog(s: State, seen: EventID)
    requires LogInv(s) && s.phase.Pushing?
    ensures LogInv(BatchAcked(s, seen))
  {
    AckDelivers(s, seen);
    AckKeepsPhase(s, seen);
    AckKeepsSlices(s, seen);
  }

  lemma FailKeepsSlices(s: State)
    requires PhaseInv(s) && SliceInv(s) && s.phase.Pushing?
    ensures PhaseInv(BatchNotAcked(s)) && SliceInv(BatchNotAcked(s))
  {
    if s.phase.final {
      assert BatchNotAcked(s).abandoned == s.phase.rest;
    }
  }

  lemma FailKeepsLog(s: State)
    requires LogInv(s) && s.phase.Pushing?
    ensures LogInv(BatchNotAcked(s))
  {
    FailKeepsSlices(s);
  }

  lemma PutBackKeepsLog(s: State)
    requires LogInv(s) && s.phase.Failed?
    ensures LogInv(Rebuffered(s))
  {
    var c, b := Cursor(s), Base(s);
    LastNOfConcat(s.log[c..b], s.log[b..], MAX_BUFFER_SIZE);
    assert s.log[c..] == s.log[c..b] + s.log[b..];
  }

  /** Steps that move no record. */
  lemma QuietStepKeepsLog(s: State, t: State)
    requires LogInv(s) && InFlight(s) == [] && InFlight(t) == []
    requires t.log == s.log && t.delivered == s.delivered && t.abandoned == s.abandoned && t.buf == s.buf
    requires !t.phase.Pushing? && !t.phase.Failed? && (s.phase.Stopped? ==> t.phase.Stopped?)
    ensures LogInv(t)
  {
  }

  lemma NextKeepsLog(s: State, e: Event)
    requires LogInv(s) && Enabled(s, e)
    ensures LogInv(Next(s, e))
  {
    match e
    case Write(p) => CaptureKeepsLog(s, p);
    case Acked(seen) => AckKeepsLog(s, seen);
    case NotAcked => FailKeepsLog(s);
    case PutBack => PutBackKeepsLog(s);
    case Tick => TickKeepsLog(s);
    case Shutdown => ShutdownKeepsLog(s);
    case Compare(at) => QuietStepKeepsLog(s, Compared(s, at));
    case SnapshotDone(_) => QuietStepKeepsLog(s, Next(s, e));
  }

  lemma {:induction false} RunKeepsLog(canReconcile: bool, now: int, es: seq<Event>)
    requires IsRun(Init(canReconcile, now), es)
    ensures LogInv(After(Init(canReconcile, now), es))
  {
    if es != [] {
      RunKeepsLog(canReconcile, now, es[..|es| - 1]);
      NextKeepsLog(After(Init(canReconcile, now), es[..|es| - 1]), es[|es| - 1]);
    }
  }

  /** Read index by index: a record of an ordered delivery is the log's own, and indices increase. */
  lemma {:induction false} OrderIsStrict(items: seq<Item>, log: seq<Item>)
    requires InLogOrder(items, log)
    ensures forall i :: 0 <= i < |items| ==> items[i].index < |log| && log[items[i].index] == items[i]
    ensures forall i, j :: 0 <= i < j < |items| ==> items[i].index < items[j].index
  {
    if items != [] {
      OrderIsStrict(items[..|items| - 1], log);
    }
  }
}
