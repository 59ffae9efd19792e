/** Runs in which nothing is lost and the server tells the truth, yet the id comparison reports drift. */
module SpuriousReconcile {
  import opened Common
  import opened Records
  import opened LineCaptures
  import opened PushProtocol
  import opened AckBookkeeping

  function Decimal(n: nat): (digits: string) {
    if n < 10 then ["0123456789"[n]] else Decimal(n / 10) + Decimal(n % 10)
  }

  /** The record with the (i+1)-st id of the process. */
  function Stamped(i: nat): (l: Line) {
    Line("{\"event_id\":" + Decimal(IDAfter(0, i + 1)) + "}", Some(IDAfter(0, i + 1)))
  }

  /** An operational line, which carries no id. */
  const UNSTAMPED := Line("{\"msg\":\"streaming events\"}", Some(0))

  function FirstRecords(n: nat): (items: seq<Item>)
    ensures |items| == n
  {
    seq(n, (i: nat) => Item(i, Stamped(i)))
  }

  /** n stamped records are written first. */
  function Writes(n: nat): (es: seq<Event>)
    ensures |es| == n
  {
    seq(n, (i: nat) => Write(Stamped(i)))
  }

  lemma BracesAreTrimmed(text: string)
    requires |text| >= 2 && text[0] == '{' && text[|text| - 1] == '}'
    ensures TrimSpace(text) == text
  {
  }

  lemma TextIsTrimmed(i: nat)
    ensures IsCaptured(Stamped(i)) && Trimmed(Stamped(i)) == Stamped(i)
    ensures IsCaptured(UNSTAMPED) && Trimmed(UNSTAMPED) == UNSTAMPED
  {
    BracesAreTrimmed(Stamped(i).text);
    BracesAreTrimmed(UNSTAMPED.text);
  }

  lemma RecordsSnoc(n: nat)
    ensures FirstRecords(n + 1) == FirstRecords(n) + [Item(n, Stamped(n))]
  {
  }

  lemma HighOfOne(x: Item)
    ensures High([x]) == IDOf(x.line)
  {
    var ls := Lines([x]);
    assert ls == [x.line] && ls[..|ls| - 1] == [];
    assert MaxID([]) == 0;
  }

  lemma StampedID(i: nat)
    requires i < PUSH_BATCH_LIMIT
    ensures IDOf(Stamped(i)) == i + 1
  {
  }

  lemma {:induction false} RecordsHigh(n: nat)
    requires n <= PUSH_BATCH_LIMIT
    ensures High(FirstRecords(n)) == n
  {
    if n > 0 {
      RecordsHigh(n - 1);
      RecordsSnoc(n - 1);
      HighOfConcat(FirstRecords(n - 1), [Item(n - 1, Stamped(n - 1))]);
      HighOfOne(Item(n - 1, Stamped(n - 1)));
      StampedID(n - 1);
    }
  }

  lemma {:induction false} AfterWrites(n: nat)
    requires n <= PUSH_BATCH_LIMIT
    ensures IsRun(Init(true, 0), Writes(n)) && IsTruthful(0, Init(true, 0), Writes(n))
    ensures After(Init(true, 0), Writes(n)) == Init(true, 0).(log := FirstRecords(n), buf := FirstRecords(n))
  {
    if n > 0 {
      AfterWrites(n - 1);
      TextIsTrimmed(n - 1);
      RecordsSnoc(n - 1);
      assert Writes(n)[..n - 1] == Writes(n - 1);
    }
  }

  /** One more step of a truthful run. */
  lemma Step(held: EventID, es: seq<Event>, e: Event, s: State)
    requires IsRun(Init(true, 0), es) && IsTruthful(held, Init(true, 0), es) && s == After(Init(true, 0), es)
    requires Enabled(s, e)
    requires e.Acked? ==> e.seen == Max(held, High(s.delivered + Batch(s.phase.rest)))
    ensures IsRun(Init(true, 0), es + [e]) && IsTruthful(held, Init(true, 0), es + [e])
    ensures After(Init(true, 0), es + [e]) == Next(s, e)
  {
    assert (es + [e])[..|es|] == es;
  }

  const TAIL := [Item(2_000, UNSTAMPED)]

  lemma TailHigh()
    ensures High(TAIL) == 0 && High(FirstRecords(2_000)) == High(FirstRecords(2_000) + TAIL) == 2_000
  {
    RecordsHigh(2_000);
    assert Lines(TAIL) == [UNSTAMPED];
    assert MaxID([UNSTAMPED]) == 0;
    HighOfConcat(FirstRecords(2_000), TAIL);
  }

  lemma LogIsStamped(log: seq<Item>)
    requires log == FirstRecords(2_000) + TAIL
    ensures StampedInOrder(log)
    ensures forall i, j :: 0 <= i < j < 2_000 ==> IDOf(log[i].line) != IDOf(log[j].line)
  {
    forall i: nat, j: nat | i < j < 2_000 ensures IDOf(log[i].line) < IDOf(log[j].line) {
      IDsAreDistinct(0, i + 1, j + 1);
    }
  }

  /** 2,001 records are captured; the last one holds no id. */
  function Loaded(): (s: State) {
    var all := FirstRecords(2_000) + TAIL;
    Init(true, 0).(log := all, buf := all)
  }

  lemma ReachLoaded() returns (es: seq<Event>)
    ensures IsRun(Init(true, 0), es) && IsTruthful(0, Init(true, 0), es) && After(Init(true, 0), es) == Loaded()
  {
    AfterWrites(2_000);
    TextIsTrimmed(0);
    Step(0, Writes(2_000), Write(UNSTAMPED), Init(true, 0).(log := FirstRecords(2_000), buf := FirstRecords(2_000)));
    es := Writes(2_000) + [Write(UNSTAMPED)];
  }

  /** Its flush delivers the first batch and fails on the second, which is put back. */
  function HalfDelivered(): (s: State) {
    Loaded().(buf := TAIL, delivered := FirstRecords(2_000), partialHigh := 2_000, backoff := PUSH_INTERVAL)
  }

  lemma FirstBatch(all: seq<Item>)
    requires all == FirstRecords(2_000) + TAIL
    ensures Batch(all) == FirstRecords(2_000) && all[|Batch(all)|..] == TAIL
    ensures all[..|all| - |TAIL|] == FirstRecords(2_000)
  {
  }

  /** All 2,001 records are in flight, ... */
  function Flushed(): (s: State) {
    Loaded().(buf := [], phase := Pushing(Loaded().log, Loaded().log, 0, false))
  }

  /** ... the first batch is acknowledged, ... */
  function FirstAcked(): (s: State) {
    Flushed().(delivered := FirstRecords(2_000), phase := Pushing(Loaded().log, TAIL, 2_000, false))
  }

  /** ... and the second is not. */
  function SecondFailed(): (s: State) {
    FirstAcked().(phase := Failed(TAIL), partialHigh := 2_000)
  }

  lemma FirstAck()
    ensures High(Flushed().delivered + Batch(Loaded().log)) == 2_000
    ensures Next(Flushed(), Acked(2_000)) == FirstAcked()
  {
    FirstBatch(Loaded().log);
    RecordsHigh(2_000);
    assert Flushed().delivered + Batch(Loaded().log) == FirstRecords(2_000);
  }

  lemma SecondFails()
    ensures Next(FirstAcked(), NotAcked) == SecondFailed()
  {
    FirstBatch(Loaded().log);
    RecordsHigh(2_000);
    assert Sent(FirstAcked().phase) == FirstRecords(2_000);
  }

  lemma TailReturns()
    ensures Next(SecondFailed(), PutBack) == HalfDelivered()
  {
    assert TAIL + [] == TAIL;
  }

  lemma ReachHalfDelivered() returns (es: seq<Event>)
    ensures IsRun(Init(true, 0), es) && IsTruthful(0, Init(true, 0), es)
    ensures After(Init(true, 0), es) == HalfDelivered()
  {
    var es0 := ReachLoaded();
    Step(0, es0, Tick, Loaded());
    FirstAck();
    Step(0, es0 + [Tick], Acked(2_000), Flushed());
    SecondFails();
    Step(0, es0 + [Tick] + [Acked(2_000)], NotAcked, FirstAcked());
    TailReturns();
    Step(0, es0 + [Tick] + [Acked(2_000)] + [NotAcked], PutBack, SecondFailed());
    es := es0 + [Tick] + [Acked(2_000)] + [NotAcked] + [PutBack];
  }

  /** The retry delivers the tail, and the comparison then sees id 2,000 acknowledged against 0 pushed: a
      reconcile starts although all 2,001 records arrived, in order, once. */
  lemma ReconcileWithoutLoss() returns (es: seq<Event>)
    ensures IsRun(Init(true, 0), es) && IsTruthful(0, Init(true, 0), es)
    ensures var s := After(Init(true, 0), es);
      && s.phase.Snapshotting? && s.starts == [0]
      && |s.log| == 2_001 && StampedInOrder(s.log)
      && (forall i :: 0 <= i < 2_000 ==> s.log[i].line == Stamped(i)) && s.log[2_000].line == UNSTAMPED
      && (forall i, j :: 0 <= i < j < 2_000 ==> IDOf(s.log[i].line) != IDOf(s.log[j].line))
      && s.delivered == s.log && s.dropped == [] && s.abandoned == []
  {
    var es0 := ReachHalfDelivered();
    TailHigh();
    var s0 := HalfDelivered();
    Step(0, es0, Tick, s0);
    var flushed := s0.(buf := [], backoff := 0, phase := Pushing(TAIL, TAIL, 0, false));
    assert Batch(TAIL) == TAIL;
    Step(0, es0 + [Tick], Acked(2_000), flushed);
    var done := flushed.(delivered := FirstRecords(2_000) + TAIL, phase := Succeeded(TAIL, 2_000));
    assert BatchAcked(flushed, 2_000) == done;
    Step(0, es0 + [Tick] + [Acked(2_000)], Compare(0), done);
    LogIsStamped(done.log);
    es := es0 + [Tick] + [Acked(2_000)] + [Compare(0)];
  }

  // ---- after a restart ----------------------------------------------------------------------------

  /** The first record of a restarted process is in flight, ... */
  function OneInFlight(): (s: State) {
    var all := [Item(0, Stamped(0))];
    Init(true, 0).(log := all, phase := Pushing(all, all, 0, false))
  }

  /** ... and acknowledged with what the server holds. */
  function OneAcked(held: EventID): (s: State) {
    OneInFlight().(delivered := OneInFlight().log, phase := Succeeded(OneInFlight().log, held))
  }

  lemma OneIsAcked(held: EventID)
    requires held > 1
    ensures Next(OneInFlight(), Acked(held)) == OneAcked(held)
    ensures High(OneInFlight().log) == 1
  {
    HighOfOne(Item(0, Stamped(0)));
    StampedID(0);
    assert Batch(OneInFlight().log) == OneInFlight().log;
  }

  /** The server holds an id above 1 from an earlier process. Nothing fails and the one record arrives, yet
      the id comparison starts a reconcile. */
  lemma ReconcileAfterRestart(held: EventID) returns (es: seq<Event>)
    requires held > 1
    ensures IsRun(Init(true, 0), es) && IsTruthful(held, Init(true, 0), es)
    ensures var s := After(Init(true, 0), es);
      && s.phase.Snapshotting? && s.starts == [0]
      && s.log == [Item(0, Stamped(0))] && s.delivered == s.log && s.partialHigh == 0
  {
    TextIsTrimmed(0);
    OneIsAcked(held);
    var all := [Item(0, Stamped(0))];
    Step(held, [], Write(Stamped(0)), Init(true, 0));
    assert [] + all == all;
    Step(held, [] + [Write(Stamped(0))], Tick, Init(true, 0).(log := all, buf := all));
    Step(held, [] + [Write(Stamped(0))] + [Tick], Acked(held), OneInFlight());
    Step(held, [] + [Write(Stamped(0))] + [Tick] + [Acked(held)], Compare(0), OneAcked(held));
    es := [] + [Write(Stamped(0))] + [Tick] + [Acked(held)] + [Compare(0)];
  }
}
