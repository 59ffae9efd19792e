/** Exactly when a delivered flush starts a reconcile, whatever the server acknowledges (push.go:130-142). */
module ReconcileTrigger {
  import opened Common
  import opened Records
  import opened PushProtocol
  import opened AckBookkeeping
  import opened PushTiming
  import opened SpuriousReconcile

  /** All records of the flushes that a run has delivered completely. */
  function Completed(s: State, es: seq<Event>): (items: seq<Item>)
    requires IsRun(s, es)
  {
    if es == [] then [] else
      var front, e := es[..|es| - 1], es[|es| - 1];
      var before := After(s, front);
      Completed(s, front)
      + if e.Acked? && !before.phase.final && before.phase.rest == Batch(before.phase.rest) then before.phase.all else []
  }

  /** Until it is compared, the newest complete flush is not part of the high-water mark. */
  predicate MarkInv(s: State, done: EventID) {
    done == if s.phase.Succeeded? then Max(s.lastPushed, High(s.phase.all)) else s.lastPushed
  }

  lemma AckMovesMark(s: State, seen: EventID)
    requires s.phase.Pushing? && MarkInv(s, s.lastPushed)
    ensures if !s.phase.final && s.phase.rest == Batch(s.phase.rest)
            then MarkInv(BatchAcked(s, seen), Max(s.lastPushed, High(s.phase.all)))
            else MarkInv(BatchAcked(s, seen), s.lastPushed)
  {
    var n := |Batch(s.phase.rest)|;
    assert s.phase.rest == Batch(s.phase.rest) <==> s.phase.rest[n..] == [];
  }

  lemma {:induction false} MarkIsHighOfCompleted(canReconcile: bool, now: int, es: seq<Event>)
    requires IsRun(Init(canReconcile, now), es)
    ensures var s := After(Init(canReconcile, now), es);
      MarkInv(s, High(Completed(Init(canReconcile, now), es))) && s.canReconcile == canReconcile
  {
    if es != [] {
      var front, e := es[..|es| - 1], es[|es| - 1];
      var s := After(Init(canReconcile, now), front);
      MarkIsHighOfCompleted(canReconcile, now, front);
      var done := Completed(Init(canReconcile, now), front);
      assert done + [] == done;
      if e.Acked? {
        HighOfConcat(done, s.phase.all);
        AckMovesMark(s, e.seen);
      }
    }
  }

  lemma {:induction false} FinishesAscend(starts: seq<int>, finishes: seq<int>, gap: nat, i: nat)
    requires Spaced(starts, finishes, gap) && i < |finishes|
    ensures |starts| >= |finishes| && finishes[i] <= finishes[|finishes| - 1]
    decreases |starts| + |finishes|
  {
    var n := |starts| - 1;
    if |starts| > |finishes| {
      FinishesAscend(starts[..n], finishes, gap, i);
    } else if i < n {
      assert Spaced(starts[..n], finishes[..n], gap) && starts[n] >= finishes[n - 1] + gap;
      FinishesAscend(starts[..n], finishes[..n], gap, i);
    }
  }

  /** No snapshot that an acknowledgement triggered has finished within five minutes before `at`. */
  predicate HasCooledDown(finishes: seq<int>, at: int) {
    forall i :: 0 <= i < |finishes| ==> finishes[i] + 5 * 60 * 1_000_000_000 <= at
  }

  lemma CooldownIsHasCooledDown(s: State, at: int)
    requires CadenceInv(s) && s.phase.Succeeded?
    ensures CooldownOver(s.lastSnapshotAt, at) <==> HasCooledDown(s.finishes, at)
  {
    forall i | 0 <= i < |s.finishes| ensures s.finishes[i] <= s.finishes[|s.finishes| - 1] {
      FinishesAscend(s.starts, s.finishes, SNAPSHOT_COOLDOWN, i);
    }
  }

  /** Whatever the server acknowledges, above or below: a delivered flush starts a reconcile if and only if
      there is a trigger, the last one is five minutes past, and the server names an id that is not the highest
      one of the flushes delivered completely, this one included. */
  lemma ReconcileFiresExactly(canReconcile: bool, now: int, es: seq<Event>, at: int)
    requires IsRun(Init(canReconcile, now), es)
    requires After(Init(canReconcile, now), es).phase.Succeeded? && at >= After(Init(canReconcile, now), es).now
    ensures var s, high := After(Init(canReconcile, now), es), High(Completed(Init(canReconcile, now), es));
      Next(s, Compare(at)).phase.Snapshotting?
      <==> canReconcile && HasCooledDown(s.finishes, at) && s.phase.lastSeen > 0 && s.phase.lastSeen != high
  {
    MarkIsHighOfCompleted(canReconcile, now, es);
    RunKeepsCadence(canReconcile, now, es);
    CooldownIsHasCooledDown(After(Init(canReconcile, now), es), at);
  }

  /** In particular a server that has lost records, and so names a lower id, is noticed. */
  lemma {:induction false} LossIsNoticed(now: int, es: seq<Event>, at: int)
    requires IsRun(Init(true, now), es)
    requires After(Init(true, now), es).phase.Succeeded? && at >= After(Init(true, now), es).now
    requires HasCooledDown(After(Init(true, now), es).finishes, at)
    requires 0 < After(Init(true, now), es).phase.lastSeen < High(Completed(Init(true, now), es))
    ensures Next(After(Init(true, now), es), Compare(at)).phase.Snapshotting?
  {
    ReconcileFiresExactly(true, now, es, at);
  }

  // ---- a concrete loss ----------------------------------------------------------------------------

  /** n records are in flight. */
  function AllInFlight(n: nat): (s: State) {
    Init(true, 0).(log := FirstRecords(n), phase := Pushing(FirstRecords(n), FirstRecords(n), 0, false))
  }

  function AllAcked(n: nat, seen: EventID): (s: State) {
    AllInFlight(n).(delivered := FirstRecords(n), phase := Succeeded(FirstRecords(n), seen))
  }

  lemma AllAreAcked(n: nat, seen: EventID)
    requires 0 < n <= PUSH_BATCH_LIMIT
    ensures Next(AllInFlight(n), Acked(seen)) == AllAcked(n, seen)
  {
    assert Batch(FirstRecords(n)) == FirstRecords(n);
    assert [] + FirstRecords(n) == FirstRecords(n);
  }

  /** Records 1 to n are delivered in one batch, and the server answers with an id below n. */
  lemma ReconcileAfterLoss(n: nat, seen: EventID) returns (es: seq<Event>)
    requires 0 < seen < n <= PUSH_BATCH_LIMIT
    ensures IsRun(Init(true, 0), es)
    ensures var s := After(Init(true, 0), es);
      s.phase.Snapshotting? && s.starts == [0] && s.delivered == s.log == FirstRecords(n)
  {
    AfterWrites(n);
    var es0 := Writes(n);
    RunExtends(Init(true, 0), es0, Tick);
    assert After(Init(true, 0), es0 + [Tick]) == AllInFlight(n);
    AllAreAcked(n, seen);
    RunExtends(Init(true, 0), es0 + [Tick], Acked(seen));
    RecordsHigh(n);
    RunExtends(Init(true, 0), es0 + [Tick] + [Acked(seen)], Compare(0));
    es := es0 + [Tick] + [Acked(seen)] + [Compare(0)];
  }
}
