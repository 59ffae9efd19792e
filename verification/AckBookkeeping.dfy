/** The acknowledged-id comparison that decides about a reconcile snapshot (push.go:122-142, 147-188). */
module AckBookkeeping {
  import opened Common
  import opened Records
  import opened PushProtocol
  import opened PushInvariants

  /** The highest event id among the records. */
  function High(items: seq<Item>): (id: EventID) {
    MaxID(Lines(items))
  }

  lemma HighOfConcat(a: seq<Item>, b: seq<Item>)
    ensures High(a + b) == Max(High(a), High(b))
  {
    assert Lines(a + b) == Lines(a) + Lines(b);
    MaxIDOfConcat(Lines(a), Lines(b));
  }

  predicate EndsWith<T(==)>(s: seq<T>, tail: seq<T>) {
    |tail| <= |s| && s[|s| - |tail|..] == tail
  }

  /** The acknowledged part of the current flush is the newest part of what was delivered. */
  predicate SentInv(s: State) {
    && (s.phase.Pushing? ==> EndsWith(s.delivered, Sent(s.phase)))
    && (s.phase.Succeeded? ==> EndsWith(s.delivered, s.phase.all) && s.phase.all != [])
  }

  lemma EndsWithGrows<T>(s: seq<T>, tail: seq<T>, more: seq<T>)
    requires EndsWith(s, tail)
    ensures EndsWith(s + more, tail + more)
  {
  }

  lemma SentGrows(s: State, seen: EventID)
    requires PhaseInv(s) && s.phase.Pushing?
    ensures var t := BatchAcked(s, seen);
      && (t.phase.Pushing? ==> Sent(t.phase) == Sent(s.phase) + Batch(s.phase.rest))
      && (t.phase.Succeeded? ==> t.phase.all == Sent(s.phase) + Batch(s.phase.rest))
  {
    var all, rest, n := s.phase.all, s.phase.rest, |Batch(s.phase.rest)|;
    assert all == Sent(s.phase) + rest;
    assert all[..|all| - |rest| + n] == Sent(s.phase) + rest[..n];
  }

  lemma NextKeepsSent(s: State, e: Event)
    requires PhaseInv(s) && SentInv(s) && Enabled(s, e)
    ensures SentInv(Next(s, e))
  {
    if e.Acked? {
      SentGrows(s, e.seen);
      EndsWithGrows(s.delivered, Sent(s.phase), Batch(s.phase.rest));
    }
  }

  // ---- the local high-water mark ------------------------------------------------------------------

  function FlightHigh(ph: Phase): (id: EventID) {
    match ph
    case Pushing(_, _, _, _) => High(Sent(ph))
    case Succeeded(all, _) => High(all)
    case _ => 0
  }

  predicate IsDeliveredID(delivered: seq<Item>, id: EventID) {
    id == 0 || exists i :: 0 <= i < |delivered| && IDOf(delivered[i].line) == id
  }

  /** Everything delivered is accounted for by the high-water mark, by flushes that failed part-way, or by
      the flush being pushed; and the mark itself is 0 or the id of a delivered record. */
  predicate HighInv(s: State) {
    && (!s.phase.Stopped? ==>
          High(s.delivered) == Max(Max(s.lastPushed, s.partialHigh), FlightHigh(s.phase)))
    && IsDeliveredID(s.delivered, s.lastPushed)
  }

  lemma HighIsDelivered(delivered: seq<Item>, part: seq<Item>)
    requires EndsWith(delivered, part)
    ensures IsDeliveredID(delivered, High(part))
  {
    MaxIDIsMaximum(Lines(part));
    if High(part) != 0 {
      var l :| l in Lines(part) && IDOf(l) == High(part);
      var i :| 0 <= i < |part| && Lines(part)[i] == l;
      assert delivered[|delivered| - |part| + i] == part[i];
    }
  }

  lemma DeliveredIDStays(delivered: seq<Item>, more: seq<Item>, id: EventID)
    requires IsDeliveredID(delivered, id)
    ensures IsDeliveredID(delivered + more, id)
  {
    if id != 0 {
      var i :| 0 <= i < |delivered| && IDOf(delivered[i].line) == id;
      assert (delivered + more)[i] == delivered[i];
    }
  }

  lemma AckKeepsHigh(s: State, seen: EventID)
    requires PhaseInv(s) && HighInv(s) && s.phase.Pushing?
    ensures HighInv(BatchAcked(s, seen))
  {
    var batch := Batch(s.phase.rest);
    SentGrows(s, seen);
    HighOfConcat(s.delivered, batch);
    HighOfConcat(Sent(s.phase), batch);
    DeliveredIDStays(s.delivered, batch, s.lastPushed);
  }

  lemma FlushKeepsHigh(s: State, final: bool)
    requires HighInv(s) && s.phase.Waiting?
    ensures HighInv(s.(buf := [], phase := Pushing(s.buf, s.buf, 0, final)))
  {
    assert Sent(Pushing(s.buf, s.buf, 0, final)) == [];
  }

  lemma FailKeepsHigh(s: State)
    requires HighInv(s) && s.phase.Pushing?
    ensures HighInv(BatchNotAcked(s))
  {
  }

  lemma CompareKeepsHigh(s: State, at: int)
    requires HighInv(s) && SentInv(s) && s.phase.Succeeded?
    ensures HighInv(Compared(s, at)) && Compared(s, at).lastPushed >= s.lastPushed
  {
    HighIsDelivered(s.delivered, s.phase.all);
  }

  lemma NextKeepsHigh(s: State, e: Event)
    requires PhaseInv(s) && SentInv(s) && HighInv(s) && Enabled(s, e)
    ensures HighInv(Next(s, e)) && Next(s, e).lastPushed >= s.lastPushed
  {
    match e
    case Acked(seen) => AckKeepsHigh(s, seen);
    case NotAcked => FailKeepsHigh(s);
    case Compare(at) => CompareKeepsHigh(s, at);
    case Tick => FlushKeepsHigh(s.(backoff := 0), false);
    case Shutdown => FlushKeepsHigh(s, true);
    case _ =>
  }

  lemma {:induction false} RunKeepsHigh(canReconcile: bool, now: int, es: seq<Event>)
    requires IsRun(Init(canReconcile, now), es)
    ensures var s := After(Init(canReconcile, now), es);
      PhaseInv(s) && SentInv(s) && HighInv(s)
  {
    RunKeepsLog(canReconcile, now, es);
    if es != [] {
      var before := es[..|es| - 1];
      RunKeepsHigh(canReconcile, now, before);
      NextKeepsSent(After(Init(canReconcile, now), before), es[|es| - 1]);
      NextKeepsHigh(After(Init(canReconcile, now), before), es[|es| - 1]);
    }
  }

  /** lastPushedEventID is 0 or the id of a delivered record, so it never exceeds the highest delivered id;
      and no step lowers it. */
  lemma HighWaterMark(canReconcile: bool, now: int, es: seq<Event>, e: Event)
    requires IsRun(Init(canReconcile, now), es)
    requires Enabled(After(Init(canReconcile, now), es), e)
    ensures var s := After(Init(canReconcile, now), es);
      && IsDeliveredID(s.delivered, s.lastPushed)
      && s.lastPushed <= High(s.delivered)
      && s.lastPushed <= Next(s, e).lastPushed
  {
    var s := After(Init(canReconcile, now), es);
    RunKeepsHigh(canReconcile, now, es);
    NextKeepsHigh(s, e);
    MaxIDIsMaximum(Lines(s.delivered));
    if s.lastPushed != 0 {
      var i :| 0 <= i < |s.delivered| && IDOf(s.delivered[i].line) == s.lastPushed;
      assert Lines(s.delivered)[i] in Lines(s.delivered);
    }
  }

  // ---- a server that reports its true maximum -----------------------------------------------------

  /** Every acknowledgement names the highest id the server holds for the cluster once it has the batch.
      `held` is what it held from earlier processes, whose ids began at 1 as well. */
  predicate IsTruthful(held: EventID, s: State, es: seq<Event>)
    requires IsRun(s, es)
  {
    es == [] ||
    var before, e := After(s, es[..|es| - 1]), es[|es| - 1];
    IsTruthful(held, s, es[..|es| - 1]) &&
    (e.Acked? ==> e.seen == Max(held, High(before.delivered + Batch(before.phase.rest))))
  }

  predicate SeenInv(held: EventID, s: State) {
    && (s.phase.Pushing? ==>
          s.phase.lastSeen == if Sent(s.phase) == [] then 0 else Max(held, High(s.delivered)))
    && (s.phase.Succeeded? ==> s.phase.lastSeen == Max(held, High(s.delivered)))
  }

  lemma NextKeepsSeen(held: EventID, s: State, e: Event)
    requires PhaseInv(s) && SeenInv(held, s) && Enabled(s, e)
    requires e.Acked? ==> e.seen == Max(held, High(s.delivered + Batch(s.phase.rest)))
    ensures SeenInv(held, Next(s, e))
  {
    if e.Acked? {
      SentGrows(s, e.seen);
      HighOfConcat(s.delivered, Batch(s.phase.rest));
    }
  }

  lemma {:induction false} TruthfulRunKeepsSeen(held: EventID, canReconcile: bool, now: int, es: seq<Event>)
    requires IsRun(Init(canReconcile, now), es) && IsTruthful(held, Init(canReconcile, now), es)
    ensures SeenInv(held, After(Init(canReconcile, now), es))
  {
    if es != [] {
      var before := es[..|es| - 1];
      TruthfulRunKeepsSeen(held, canReconcile, now, before);
      RunKeepsLog(canReconcile, now, before);
      NextKeepsSeen(held, After(Init(canReconcile, now), before), es[|es| - 1]);
    }
  }

  /** Against a truthful server, a completely delivered flush is taken for drift exactly when something else
      gave the server an id above every id of the completely delivered flushes: an earlier process of the
      cluster, or an earlier flush that failed part-way. */
  lemma MismatchExactlyAboveCompleteFlushes(held: EventID, canReconcile: bool, now: int, es: seq<Event>)
    requires IsRun(Init(canReconcile, now), es) && IsTruthful(held, Init(canReconcile, now), es)
    requires After(Init(canReconcile, now), es).phase.Succeeded?
    ensures var s := After(Init(canReconcile, now), es);
      IsMismatch(s.phase.lastSeen, Advanced(s.lastPushed, s.phase.all))
      <==> Max(held, s.partialHigh) > Advanced(s.lastPushed, s.phase.all)
  {
    RunKeepsHigh(canReconcile, now, es);
    TruthfulRunKeepsSeen(held, canReconcile, now, es);
  }

  /** So a restarted process sees drift in every flush it delivers until its own ids have reached the highest
      one that its predecessors left at the server, whatever else happens. */
  lemma EveryFlushDriftsAfterRestart(held: EventID, canReconcile: bool, now: int, es: seq<Event>)
    requires IsRun(Init(canReconcile, now), es) && IsTruthful(held, Init(canReconcile, now), es)
    requires var s := After(Init(canReconcile, now), es); s.phase.Succeeded? && High(s.delivered) < held
    ensures var s := After(Init(canReconcile, now), es);
      IsMismatch(s.phase.lastSeen, Advanced(s.lastPushed, s.phase.all))
  {
    RunKeepsHigh(canReconcile, now, es);
    MismatchExactlyAboveCompleteFlushes(held, canReconcile, now, es);
  }

  /** The ids that records carry ascend in capture order; operational lines carry none. */
  ghost predicate StampedInOrder(log: seq<Item>) {
    forall i, j :: 0 <= i < j < |log| && IDOf(log[i].line) > 0 && IDOf(log[j].line) > 0 ==>
      IDOf(log[i].line) < IDOf(log[j].line)
  }

  lemma DeliveredAscend(delivered: seq<Item>, log: seq<Item>, i: nat, j: nat)
    requires InLogOrder(delivered, log) && StampedInOrder(log) && i < j < |delivered|
    requires IDOf(delivered[i].line) > 0 && IDOf(delivered[j].line) > 0
    ensures IDOf(delivered[i].line) < IDOf(delivered[j].line)
  {
    OrderIsStrict(delivered, log);
    assert IDOf(log[delivered[i].index].line) < IDOf(log[delivered[j].index].line);
  }

  lemma HighIsAt(items: seq<Item>) returns (i: nat)
    requires High(items) > 0
    ensures i < |items| && IDOf(items[i].line) == High(items)
  {
    MaxIDIsMaximum(Lines(items));
    var l :| l in Lines(items) && IDOf(l) == High(items);
    i :| 0 <= i < |items| && Lines(items)[i] == l;
  }

  lemma AtMostHigh(items: seq<Item>, i: nat)
    requires i < |items|
    ensures IDOf(items[i].line) <= High(items)
  {
    MaxIDIsMaximum(Lines(items));
    assert Lines(items)[i] in Lines(items);
  }

  /** A newest part that carries any id at all carries the highest. */
  lemma NewestIsHighest(delivered: seq<Item>, part: seq<Item>, log: seq<Item>)
    requires InLogOrder(delivered, log) && StampedInOrder(log)
    requires EndsWith(delivered, part) && High(part) > 0
    ensures High(delivered) <= High(part)
  {
    if High(delivered) > 0 {
      var d := HighIsAt(delivered);
      var p := HighIsAt(part);
      var start := |delivered| - |part|;
      assert delivered[start + p] == part[p];
      if d < start + p {
        DeliveredAscend(delivered, log, d, start + p);
      } else {
        assert delivered[d] == part[d - start];
        AtMostHigh(part, d - start);
      }
    }
  }

  /** With ids ascending in capture order, a truthful server is taken to have drifted exactly when it holds a
      higher id from an earlier process, or when the delivered flush carried no id while an earlier flush,
      which failed part-way, delivered one above the high-water mark. */
  lemma MismatchExactlyOnRestartOrUnstampedFlush(held: EventID, canReconcile: bool, now: int, es: seq<Event>)
    requires IsRun(Init(canReconcile, now), es) && IsTruthful(held, Init(canReconcile, now), es)
    requires After(Init(canReconcile, now), es).phase.Succeeded?
    requires StampedInOrder(After(Init(canReconcile, now), es).log)
    ensures var s := After(Init(canReconcile, now), es);
      IsMismatch(s.phase.lastSeen, Advanced(s.lastPushed, s.phase.all))
      <==> held > Advanced(s.lastPushed, s.phase.all) || (High(s.phase.all) == 0 && s.partialHigh > s.lastPushed)
  {
    var s := After(Init(canReconcile, now), es);
    RunKeepsLog(canReconcile, now, es);
    RunKeepsHigh(canReconcile, now, es);
    MismatchExactlyAboveCompleteFlushes(held, canReconcile, now, es);
    if High(s.phase.all) > 0 {
      NewestIsHighest(s.delivered, s.phase.all, s.log);
    }
  }
}
