/** The push loop's guarantees over whole runs: refinement of a log with one cursor, conservation of
    records, the bound on what may be dropped, reconcile decisions, back-off and reconcile rate. */
module PushSafety {
  import opened Common
  import opened Records
  import opened LineCaptures
  import opened PushProtocol
  import opened PushInvariants

  // ---- the buffer is a suffix of the log ----------------------------------------------------------

  ghost predicate BufferFollowsLog(s: State) {
    && Cursor(s) <= Base(s) <= |s.log|
    && s.buf == s.log[Max(Base(s), |s.log| - 10_000)..]
    && (InFlight(s) != [] ==> FlightStart(s) < Base(s) && InFlight(s) == s.log[FlightStart(s)..Base(s)])
    && (s.phase.Waiting? ==> Base(s) == Cursor(s))
  }

  lemma SlicesFollowLog(s: State)
    requires Tagged(s.log) && PhaseInv(s) && SliceInv(s)
    ensures BufferFollowsLog(s)
  {
    if InFlight(s) != [] {
      FlightIsSlice(s);
    }
  }

  /** In every reachable state the buffer is the log from the cursor on (from the end of the flush, while
      one is in flight), less what 10,000 newer records have pushed out. */
  lemma {:induction false} BufferIsLogSuffix(canReconcile: bool, now: int, es: seq<Event>)
    requires IsRun(Init(canReconcile, now), es)
    ensures BufferFollowsLog(After(Init(canReconcile, now), es))
  {
    RunKeepsLog(canReconcile, now, es);
    SlicesFollowLog(After(Init(canReconcile, now), es));
  }

  // ---- refinement ---------------------------------------------------------------------------------

  /** The simple form: a log, a cursor into it, and what the server has received. */
  datatype LogView = LogView(log: seq<Item>, cursor: nat, received: seq<Item>)

  function View(s: State): (v: LogView) {
    LogView(s.log, Cursor(s), s.delivered)
  }

  /** The line p is appended, trimmed. */
  ghost predicate Appends(v: LogView, w: LogView, p: Line) {
    && |w.log| == |v.log| + 1 && w.log[..|v.log|] == v.log && w.log[|v.log|].index == |v.log|
    && w.log[|v.log|].line.eventID == p.eventID && IsTrimOf(w.log[|v.log|].line.text, p.text)
    && w.cursor == v.cursor && w.received == v.received
  }

  /** The server receives log[lo..hi] and the cursor moves to hi. Records between the old cursor and lo
      are skipped only when each has at least 10,000 newer ones. */
  predicate Delivers(v: LogView, w: LogView, lo: nat, hi: nat) {
    && v.cursor <= lo < hi <= |v.log| && hi - lo <= 2_000
    && (lo > v.cursor ==> lo + 10_000 <= |v.log|)
    && w == LogView(v.log, hi, v.received + v.log[lo..hi])
  }

  lemma WriteRefinesLog(s: State, p: Line)
    requires LogInv(s)
    ensures if OpensObject(p.text) then Appends(View(s), View(Captured(s, p)), p) else Captured(s, p) == s
  {
    CapturedExactly(p);
  }

  lemma AckRefinesLog(s: State, seen: EventID)
    requires LogInv(s) && s.phase.Pushing?
    ensures Delivers(View(s), View(BatchAcked(s, seen)),
                     FlightStart(s), FlightStart(s) + |Batch(s.phase.rest)|)
  {
    BatchIsSlice(s);
    AckDelivers(s, seen);
  }

  /** Every step of the push loop is, on the log, an append, a delivery at the cursor, or nothing. */
  lemma {:induction false} StepsRefineLog(s: State, e: Event)
    requires LogInv(s) && Enabled(s, e)
    ensures e.Write? ==> if OpensObject(e.p.text) then Appends(View(s), View(Next(s, e)), e.p) else Next(s, e) == s
    ensures e.Acked? ==> Delivers(View(s), View(Next(s, e)),
                                  FlightStart(s), FlightStart(s) + |Batch(s.phase.rest)|)
    ensures !e.Write? && !e.Acked? ==> View(Next(s, e)) == View(s)
  {
    match e
    case Write(p) => WriteRefinesLog(s, p);
    case Acked(seen) => AckRefinesLog(s, seen);
    case _ =>
  }

  // ---- conservation -------------------------------------------------------------------------------

  function Count(items: seq<Item>, x: Item): (n: nat) {
    multiset(items)[x]
  }

  lemma CountOfConcat(a: seq<Item>, b: seq<Item>, x: Item)
    ensures Count(a + b, x) == Count(a, x) + Count(b, x)
  {
  }

  /** x was captured as often as it is now delivered, in flight, buffered, dropped or abandoned. */
  predicate Conserved(s: State, x: Item) {
    Count(s.log, x) == Count(s.delivered, x) + Count(InFlight(s), x) + Count(s.buf, x)
                       + Count(s.dropped, x) + Count(s.abandoned, x)
  }

  lemma OverflowSplits(sofar: seq<Item>, items: seq<Item>, n: nat, x: Item)
    ensures Count(sofar + Overflow(items, n), x) + Count(LastN(items, n), x) == Count(sofar, x) + Count(items, x)
  {
    CountOfConcat(Overflow(items, n), LastN(items, n), x);
    CountOfConcat(sofar, Overflow(items, n), x);
  }

  lemma WriteConserves(s: State, p: Line, x: Item)
    requires Conserved(s, x)
    ensures Conserved(Captured(s, p), x)
  {
    if IsCaptured(p) {
      var added := Item(|s.log|, Trimmed(p));
      OverflowSplits(s.dropped, s.buf + [added], MAX_BUFFER_SIZE, x);
      CountOfConcat(s.buf, [added], x);
      CountOfConcat(s.log, [added], x);
    }
  }

  lemma AckConserves(s: State, seen: EventID, x: Item)
    requires Conserved(s, x) && s.phase.Pushing?
    ensures Conserved(BatchAcked(s, seen), x)
  {
    var rest, batch := s.phase.rest, Batch(s.phase.rest);
    assert rest == batch + rest[|batch|..];
    CountOfConcat(batch, rest[|batch|..], x);
    CountOfConcat(s.delivered, batch, x);
  }

  lemma NotAckConserves(s: State, x: Item)
    requires Conserved(s, x) && s.phase.Pushing?
    ensures Conserved(BatchNotAcked(s), x)
  {
    CountOfConcat(s.abandoned, s.phase.rest, x);
  }

  lemma PutBackConserves(s: State, x: Item)
    requires Conserved(s, x) && s.phase.Failed?
    ensures Conserved(Rebuffered(s), x)
  {
    OverflowSplits(s.dropped, s.phase.unsent + s.buf, MAX_BUFFER_SIZE, x);
    CountOfConcat(s.phase.unsent, s.buf, x);
  }

  lemma FlushConserves(s: State, t: State, x: Item)
    requires Conserved(s, x) && InFlight(s) == [] && InFlight(t) == s.buf && t.buf == []
    requires t.log == s.log && t.delivered == s.delivered && t.dropped == s.dropped && t.abandoned == s.abandoned
    ensures Conserved(t, x)
  {
  }

  lemma QuietStepConserves(s: State, t: State, x: Item)
    requires Conserved(s, x) && InFlight(t) == InFlight(s) && t.buf == s.buf
    requires t.log == s.log && t.delivered == s.delivered && t.dropped == s.dropped && t.abandoned == s.abandoned
    ensures Conserved(t, x)
  {
  }

  lemma NextConserves(s: State, e: Event, x: Item)
    requires Conserved(s, x) && Enabled(s, e)
    ensures Conserved(Next(s, e), x)
  {
    match e
    case Write(p) => WriteConserves(s, p, x);
    case Acked(seen) => AckConserves(s, seen, x);
    case NotAcked => NotAckConserves(s, x);
    case PutBack => PutBackConserves(s, x);
    case Tick =>
      if Ticked(s).phase.Pushing? { FlushConserves(s, Ticked(s), x); } else { QuietStepConserves(s, Ticked(s), x); }
    case Shutdown => FlushConserves(s, LastFlush(s), x);
    case Compare(at) => QuietStepConserves(s, Compared(s, at), x);
    case SnapshotDone(_) => QuietStepConserves(s, Next(s, e), x);
  }

  lemma {:induction false} RunConserves(canReconcile: bool, now: int, es: seq<Event>, x: Item)
    requires IsRun(Init(canReconcile, now), es)
    ensures Conserved(After(Init(canReconcile, now), es), x)
  {
    if es != [] {
      RunConserves(canReconcile, now, es[..|es| - 1], x);
      NextConserves(After(Init(canReconcile, now), es[..|es| - 1]), es[|es| - 1], x);
    }
  }

  function OneIf(b: bool): (n: nat) {
    if b then 1 else 0
  }

  lemma {:induction false} TaggedIsDistinct(log: seq<Item>, i: nat)
    requires Tagged(log) && i < |log|
    ensures Count(log, log[i]) == 1
  {
    var last := |log| - 1;
    assert log == log[..last] + [log[last]];
    if i < last {
      TaggedIsDistinct(log[..last], i);
    } else {
      assert log[last] !in log[..last];
    }
  }

  lemma CountIsMembership(items: seq<Item>, x: Item)
    requires Count(items, x) <= 1
    ensures Count(items, x) == OneIf(x in items)
  {
  }

  /** Every captured record is in exactly one place, and there once. */
  lemma EveryRecordInOnePlace(canReconcile: bool, now: int, es: seq<Event>, i: nat)
    requires IsRun(Init(canReconcile, now), es)
    requires i < |After(Init(canReconcile, now), es).log|
    ensures var s := After(Init(canReconcile, now), es);
      var x := s.log[i];
      && Count(s.delivered, x) + Count(InFlight(s), x) + Count(s.buf, x) + Count(s.dropped, x)
         + Count(s.abandoned, x) == 1
      && OneIf(x in s.delivered) + OneIf(x in InFlight(s)) + OneIf(x in s.buf)
         + OneIf(x in s.dropped) + OneIf(x in s.abandoned) == 1
  {
    var s := After(Init(canReconcile, now), es);
    var x := s.log[i];
    RunKeepsLog(canReconcile, now, es);
    RunConserves(canReconcile, now, es, x);
    TaggedIsDistinct(s.log, i);
    CountIsMembership(s.delivered, x);
    CountIsMembership(InFlight(s), x);
    CountIsMembership(s.buf, x);
    CountIsMembership(s.dropped, x);
    CountIsMembership(s.abandoned, x);
  }

  /** The server receives records in capture order, none twice. */
  lemma DeliveryIsInOrder(canReconcile: bool, now: int, es: seq<Event>)
    requires IsRun(Init(canReconcile, now), es)
    ensures var s := After(Init(canReconcile, now), es);
      && (forall i :: 0 <= i < |s.delivered| ==>
            s.delivered[i].index < |s.log| && s.log[s.delivered[i].index] == s.delivered[i])
      && (forall i, j :: 0 <= i < j < |s.delivered| ==> s.delivered[i].index < s.delivered[j].index)
  {
    RunKeepsLog(canReconcile, now, es);
    var s := After(Init(canReconcile, now), es);
    OrderIsStrict(s.delivered, s.log);
  }

  // ---- what may be dropped ------------------------------------------------------------------------

  ghost predicate DropsAreOld(dropped: seq<Item>, captured: nat) {
    forall i :: 0 <= i < |dropped| ==> dropped[i].index + 10_000 < captured
  }

  /** What overflows when two adjacent stretches of the log are joined is beyond the newest n. */
  lemma OverflowIsOld(log: seq<Item>, lo: nat, mid: nat, n: nat)
    requires Tagged(log) && lo <= mid <= |log|
    ensures var over := Overflow(LastN(log[lo..mid], n) + LastN(log[mid..], n), n);
      forall i :: 0 <= i < |over| ==> over[i].index + n < |log|
  {
    var front, back := LastN(log[lo..mid], n), LastN(log[mid..], n);
    if |log| - mid < n {
      var from := Max(lo, mid - n);
      assert front == log[from..mid] && back == log[mid..];
      assert front + back == log[from..];
    }
  }

  lemma NextDropsOld(s: State, e: Event)
    requires LogInv(s) && DropsAreOld(s.dropped, |s.log|) && Enabled(s, e)
    ensures DropsAreOld(Next(s, e).dropped, |Next(s, e).log|)
  {
    match e
    case Write(p) =>
      var x := Item(|s.log|, Trimmed(p));
      var log := s.log + [x];
      OverflowIsOld(log, Base(s), |s.log|, MAX_BUFFER_SIZE);
      assert log[Base(s)..|s.log|] == s.log[Base(s)..] && log[|s.log|..] == [x];
    case PutBack => OverflowIsOld(s.log, Cursor(s), Base(s), MAX_BUFFER_SIZE);
    case Acked(_) =>
    case _ =>
  }

  /** A record is dropped only once at least 10,000 newer ones have been captured. */
  lemma {:induction false} DropsNeedTenThousandNewer(canReconcile: bool, now: int, es: seq<Event>)
    requires IsRun(Init(canReconcile, now), es)
    ensures var s := After(Init(canReconcile, now), es); DropsAreOld(s.dropped, |s.log|)
  {
    if es != [] {
      DropsNeedTenThousandNewer(canReconcile, now, es[..|es| - 1]);
      RunKeepsLog(canReconcile, now, es[..|es| - 1]);
      NextDropsOld(After(Init(canReconcile, now), es[..|es| - 1]), es[|es| - 1]);
    }
  }
}
