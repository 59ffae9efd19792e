/** PushLoop and pushAll as code (push.go:92-188), proved to take only steps of the PushProtocol machine. */
module PushLoops {
  import opened Common
  import opened Records
  import opened LineCaptures
  import opened PushProtocol
  import opened PushInvariants
  import opened PushSafety

  /** What one POST came to: the id in the response body, or no acknowledgement. */
  datatype Reply = Ok(seen: EventID) | Lost

  datatype Outcome<T> = Outcome(lastSeen: EventID, unsent: seq<T>, ok: bool)

  /** pushAll on `rest`, when request number i, i+1, ... get the replies push(i), push(i+1), ... */
  function Pushed<T>(rest: seq<T>, push: nat -> Reply, i: nat, lastSeen: EventID): (o: Outcome<T>)
    decreases |rest|
  {
    if rest == [] then Outcome(lastSeen, [], true)
    else match push(i)
      case Lost => Outcome(lastSeen, rest, false)
      case Ok(seen) => Pushed(rest[|Batch(rest)|..], push, i + 1, Max(lastSeen, seen))
  }

  /** The batches handed to the server, in order, up to and including a failing one. */
  function Requests<T>(rest: seq<T>, push: nat -> Reply, i: nat): (batches: seq<seq<T>>)
    decreases |rest|
  {
    if rest == [] then []
    else [Batch(rest)] + (if push(i).Lost? then [] else Requests(rest[|Batch(rest)|..], push, i + 1))
  }

  function Flatten<T>(batches: seq<seq<T>>): (s: seq<T>) {
    if batches == [] then [] else batches[0] + Flatten(batches[1..])
  }

  /** What pushAll never put into a request. */
  function NeverSent<T>(o: Outcome<T>): (tail: seq<T>) {
    o.unsent[|Batch(o.unsent)|..]
  }

  /** Batches are non-empty and at most 2,000 long; in order, and followed by what was never sent, they are
      exactly the input. The unsent tail is empty on success and starts with the failed batch otherwise. */
  lemma {:induction false} BatchesPartitionInput<T>(rest: seq<T>, push: nat -> Reply, i: nat, lastSeen: EventID)
    ensures var o, batches := Pushed(rest, push, i, lastSeen), Requests(rest, push, i);
      && (forall b :: b in batches ==> 0 < |b| <= 2_000)
      && Flatten(batches) + NeverSent(o) == rest
      && (o.ok ==> o.unsent == [])
      && (!o.ok ==> o.unsent != [] && batches != [] && batches[|batches| - 1] == Batch(o.unsent))
    decreases |rest|
  {
    if rest != [] {
      var tail := rest[|Batch(rest)|..];
      assert rest == Batch(rest) + tail;
      if push(i).Ok? {
        BatchesPartitionInput(tail, push, i + 1, Max(lastSeen, push(i).seen));
        FlattenCons(Batch(rest), Requests(tail, push, i + 1),
                    NeverSent(Pushed(tail, push, i + 1, Max(lastSeen, push(i).seen))));
      } else {
        FlattenCons(Batch(rest), [], tail);
      }
    }
  }

  lemma FlattenCons<T>(first: seq<T>, later: seq<seq<T>>, tail: seq<T>)
    ensures Flatten([first] + later) + tail == first + (Flatten(later) + tail)
  {
    assert ([first] + later)[1..] == later;
  }

  /** A full buffer takes at most five requests. */
  lemma {:induction false} RequestCount<T>(rest: seq<T>, push: nat -> Reply, i: nat)
    ensures |Requests(rest, push, i)| <= (|rest| + 1_999) / 2_000
    ensures |rest| <= 10_000 ==> |Requests(rest, push, i)| <= 5
    decreases |rest|
  {
    if rest != [] && push(i).Ok? {
      RequestCount(rest[|Batch(rest)|..], push, i + 1);
    }
  }

  /** The id returned is the highest any successful request reported; every request but the last of a
      failed push succeeded. */
  lemma {:induction false} LastSeenIsHighest<T>(rest: seq<T>, push: nat -> Reply, i: nat, lastSeen: EventID)
    ensures var o, n := Pushed(rest, push, i, lastSeen), |Requests(rest, push, i)|;
      && (forall k :: i <= k < i + n && push(k).Ok? ==> push(k).seen <= o.lastSeen)
      && o.lastSeen >= lastSeen
      && (o.lastSeen == lastSeen || exists k :: i <= k < i + n && push(k).Ok? && push(k).seen == o.lastSeen)
      && (forall k :: i <= k < i + n ==> (push(k).Lost? <==> !o.ok && k == i + n - 1))
    decreases |rest|
  {
    if rest != [] && push(i).Ok? {
      LastSeenIsHighest(rest[|Batch(rest)|..], push, i + 1, Max(lastSeen, push(i).seen));
    }
  }

  method PushAll(records: seq<Line>, push: nat -> Reply) returns (lastSeen: EventID, unsent: seq<Line>, ok: bool)
    ensures Outcome(lastSeen, unsent, ok) == Pushed(records, push, 0, 0)
  {
    lastSeen := 0;
    var rest := records;
    var i := 0;
    while |rest| > 0
      invariant Pushed(records, push, 0, 0) == Pushed(rest, push, i, lastSeen)
      decreases |rest|
    {
      var batch := rest;
      if |batch| > PUSH_BATCH_LIMIT {
        batch := rest[..PUSH_BATCH_LIMIT];
      }
      var reply := push(i);
      if reply.Lost? {
        return lastSeen, rest, false;
      }
      rest := rest[|batch|..];
      if reply.seen > lastSeen {
        lastSeen := reply.seen;
      }
      i := i + 1;
    }
    return lastSeen, [], true;
  }

  // ---- pushAll as steps of the machine ------------------------------------------------------------

  /** The machine's steps while pushAll runs on `rest`. */
  function PushEvents<T>(rest: seq<T>, push: nat -> Reply, i: nat): (es: seq<Event>)
    decreases |rest|
  {
    if rest == [] then []
    else match push(i)
      case Lost => [NotAcked]
      case Ok(seen) => [Acked(seen)] + PushEvents(rest[|Batch(rest)|..], push, i + 1)
  }

  lemma {:induction false} RunsConcat(s: State, es: seq<Event>, fs: seq<Event>)
    requires IsRun(s, es) && IsRun(After(s, es), fs)
    ensures IsRun(s, es + fs) && After(s, es + fs) == After(After(s, es), fs)
    decreases |fs|
  {
    if fs == [] {
      assert es + fs == es;
    } else {
      var front, e := fs[..|fs| - 1], fs[|fs| - 1];
      RunsConcat(s, es, front);
      RunExtends(s, es + front, e);
      assert es + fs == es + front + [e];
    }
  }

  lemma OneStep(s: State, e: Event)
    requires Enabled(s, e)
    ensures IsRun(s, [e]) && After(s, [e]) == Next(s, e)
  {
    RunExtends(s, [], e);
    assert [] + [e] == [e];
  }

  /** Everything a push does not touch. */
  predicate SameBut(s: State, t: State) {
    && t.buf == s.buf && t.backoff == s.backoff && t.lastPushed == s.lastPushed
    && t.lastSnapshotAt == s.lastSnapshotAt && t.now == s.now && t.canReconcile == s.canReconcile
  }

  lemma {:induction false} PushIsARun(s: State, push: nat -> Reply, i: nat)
    requires s.phase.Pushing? && s.phase.rest != []
    ensures IsRun(s, PushEvents(s.phase.rest, push, i))
    ensures var t, o := After(s, PushEvents(s.phase.rest, push, i)),
                        Pushed(s.phase.rest, push, i, s.phase.lastSeen);
      && SameBut(s, t)
      && t.phase == if s.phase.final then Stopped
                    else if o.ok then Succeeded(s.phase.all, o.lastSeen)
                    else Failed(o.unsent)
    decreases |s.phase.rest|
  {
    match push(i)
    case Lost =>
      OneStep(s, NotAcked);
    case Ok(seen) =>
      OneStep(s, Acked(seen));
      var t := BatchAcked(s, seen);
      var tail := s.phase.rest[|Batch(s.phase.rest)|..];
      if tail != [] {
        PushIsARun(t, push, i + 1);
      }
      RunsConcat(s, [Acked(seen)], PushEvents(tail, push, i + 1));
  }

  /** Where among the replies another goroutine's line lands makes no difference. */
  lemma WritesCommuteWithReplies(s: State, p: Line, e: Event)
    requires s.phase.Pushing? && (e.Acked? || e.NotAcked?)
    ensures Next(Next(s, Write(p)), e) == Next(Next(s, e), Write(p))
  {
  }

  lemma {:induction false} LinesOfSlice(items: seq<Item>, push: nat -> Reply, i: nat, lastSeen: EventID)
    ensures var o := Pushed(items, push, i, lastSeen);
      Pushed(Lines(items), push, i, lastSeen) == Outcome(o.lastSeen, Lines(o.unsent), o.ok)
    decreases |items|
  {
    if items == [] {
      assert Lines(items) == [];
    } else if push(i).Ok? {
      var n := |Batch(items)|;
      assert |Batch(Lines(items))| == n;
      LinesOfSlice(items[n..], push, i + 1, Max(lastSeen, push(i).seen));
      assert Lines(items)[n..] == Lines(items[n..]);
    }
  }

  // ---- the loop body ------------------------------------------------------------------------------

  function WriteEvents(lines: seq<Line>): (es: seq<Event>)
    ensures |es| == |lines|
  {
    seq(|lines|, i requires 0 <= i < |lines| => Write(lines[i]))
  }

  /** What the outside world does during one tick: the server's replies, the lines other goroutines log
      between Flush and the end of the push, the clock when ids are compared, the lines a reconcile
      snapshot logs, and the clock when it is done. */
  datatype World = World(push: nat -> Reply, meanwhile: seq<Line>, comparedAt: int,
                         snapshot: seq<Line>, finishedAt: int)

  /** The machine's steps for one tick from state s. */
  function TickEvents(s: State, w: World): (es: seq<Event>)
    requires s.phase.Waiting?
  {
    if !Ticked(s).phase.Pushing? then [Tick]
    else [Tick] + FlushEvents(s, s.buf, w)
  }

  /** The steps from the flush of `all` to the end of the tick. */
  function FlushEvents(s: State, all: seq<Item>, w: World): (es: seq<Event>) {
    PushEvents(all, w.push, 0) + (WriteEvents(w.meanwhile) + AfterPush(s, all, w))
  }

  /** The steps that follow the push of `all`. */
  function AfterPush(s: State, all: seq<Item>, w: World): (es: seq<Event>) {
    if !Pushed(all, w.push, 0, 0).ok then [PutBack]
    else Comparison(Fires(s, all, w), w)
  }

  function Comparison(fires: bool, w: World): (es: seq<Event>) {
    if fires then [Compare(w.comparedAt)] + (WriteEvents(w.snapshot) + [SnapshotDone(w.finishedAt)])
    else [Compare(w.comparedAt)]
  }

  lemma AppendAssoc<T>(a: seq<T>, b: seq<T>, c: seq<T>)
    ensures a + b + c == a + (b + c)
  {
  }

  /** Whether pushing `all` from state s ends in a reconcile snapshot. */
  predicate Fires(s: State, all: seq<Item>, w: World) {
    var o := Pushed(all, w.push, 0, 0);
    && o.ok && s.canReconcile && IsMismatch(o.lastSeen, Advanced(s.lastPushed, all))
    && CooldownOver(s.lastSnapshotAt, w.comparedAt)
  }

  class PushLoop {
    const capture: LineCapture
    const canReconcile: bool
    const startedAt: int
    var backoff: int
    var lastPushedEventID: EventID
    var lastSnapshotAt: Option<int>
    /** Every step the machine has taken, and where that led. */
    ghost var history: seq<Event>
    ghost var model: State

    ghost predicate IsHistory()
      reads this`history, this`model
    {
      IsRun(Init(canReconcile, startedAt), history) && model == After(Init(canReconcile, startedAt), history)
    }

    /** The loop's real variables are those of the machine after `history`. */
    ghost predicate Agrees()
      reads this, capture
    {
      && IsHistory()
      && capture.buf == Lines(model.buf)
      && backoff == model.backoff
      && lastPushedEventID == model.lastPushed
      && lastSnapshotAt == model.lastSnapshotAt
      && canReconcile == model.canReconcile
    }

    /** Between two ticks. */
    ghost predicate Valid()
      reads this, capture
    {
      Agrees() && model.phase.Waiting?
    }

    constructor (capture: LineCapture, canReconcile: bool, startedAt: int)
      requires capture.buf == []
      ensures Valid() && history == []
      ensures this.capture == capture && this.canReconcile == canReconcile && this.startedAt == startedAt
    {
      this.capture, this.canReconcile, this.startedAt := capture, canReconcile, startedAt;
      backoff, lastPushedEventID, lastSnapshotAt := 0, 0, None;
      history, model := [], Init(canReconcile, startedAt);
    }

    ghost method Record(e: Event)
      requires IsHistory() && Enabled(model, e)
      modifies this`history, this`model
      ensures IsHistory() && history == old(history) + [e] && model == Next(old(model), e)
    {
      RunExtends(Init(canReconcile, startedAt), history, e);
      history, model := history + [e], Next(model, e);
    }

    /** Another goroutine logs a line, at any time. */
    method Log(p: Line)
      requires Agrees()
      modifies capture, this`history, this`model
      ensures Agrees() && history == old(history) + [Write(p)]
      ensures model == Captured(old(model), p)
    {
      var _ := capture.Write(p, WriteResult(|p.text|, false));
      LinesOfCaptured(model, p);
      Record(Write(p));
    }

    method LogAll(lines: seq<Line>)
      requires Agrees()
      modifies capture, this`history, this`model
      ensures Agrees() && history == old(history) + WriteEvents(lines)
      ensures SameButBuffer(old(model), model)
    {
      for i := 0 to |lines|
        invariant Agrees() && history == old(history) + WriteEvents(lines[..i])
        invariant SameButBuffer(old(model), model)
      {
        Log(lines[i]);
        assert WriteEvents(lines[..i + 1]) == WriteEvents(lines[..i]) + [Write(lines[i])];
      }
      assert lines[..|lines|] == lines;
    }

    ghost method RecordAll(es: seq<Event>)
      requires IsHistory() && IsRun(model, es)
      modifies this`history, this`model
      ensures IsHistory() && history == old(history) + es && model == After(old(model), es)
    {
      RunsConcat(Init(canReconcile, startedAt), history, es);
      history, model := history + es, After(model, es);
    }

    /** The body of `case <-ticker.C`. */
    method OnTick(w: World) returns (fired: bool)
      requires Valid() && w.comparedAt >= model.now && w.finishedAt >= w.comparedAt
      modifies this`backoff, this`lastPushedEventID, this`lastSnapshotAt, this`history, this`model, capture
      ensures Valid() && history == old(history) + TickEvents(old(model), w)
      ensures fired <==> Ticked(old(model)).phase.Pushing? && Fires(old(model), old(model).buf, w)
    {
      fired := false;
      if backoff > 0 {
        backoff := backoff - PUSH_INTERVAL;
        if backoff > 0 {
          Record(Tick);
          return;
        }
        backoff := 0;
      }
      ghost var buf := model.buf;
      var records := capture.Flush();
      Record(Tick);
      if |records| == 0 {
        return;
      }
      assert model.phase == Pushing(buf, buf, 0, false);
      fired := PushFlushed(records, w);
      AppendAssoc(old(history), [Tick], FlushEvents(old(model), buf, w));
    }

    /** The flushed records go out; then either the unsent tail goes back or the ids are compared. */
    method PushFlushed(records: seq<Line>, w: World) returns (fired: bool)
      requires Agrees() && model.phase.Pushing? && !model.phase.final
      requires model.phase.rest == model.phase.all != [] && model.phase.lastSeen == 0
      requires records == Lines(model.phase.all)
      requires w.comparedAt >= model.now && w.finishedAt >= w.comparedAt
      modifies this`backoff, this`lastPushedEventID, this`lastSnapshotAt, this`history, this`model, capture
      ensures Valid()
      ensures fired <==> Fires(old(model), old(model).phase.all, w)
      ensures history == old(history) + FlushEvents(old(model), old(model).phase.all, w)
    {
      ghost var all := model.phase.all;
      var lastSeen, unsent, ok := PushAll(records, w.push);
      LinesOfSlice(all, w.push, 0, 0);
      PushIsARun(model, w.push, 0);
      RecordAll(PushEvents(all, w.push, 0));
      LogAll(w.meanwhile);
      if ok {
        fired := CompareIDs(records, lastSeen, w);
      } else {
        PutUnsentBack(unsent);
        fired := false;
      }
      ghost var pushes, writes := PushEvents(all, w.push, 0), WriteEvents(w.meanwhile);
      AppendAssoc(old(history) + pushes, writes, AfterPush(old(model), all, w));
      AppendAssoc(old(history), pushes, writes + AfterPush(old(model), all, w));
    }

    method PutUnsentBack(unsent: seq<Line>)
      requires Agrees() && model.phase.Failed? && unsent == Lines(model.phase.unsent)
      modifies this`backoff, this`history, this`model, capture
      ensures Valid() && history == old(history) + [PutBack]
    {
      LinesOfConcat(model.phase.unsent, model.buf);
      LinesOfLastN(model.phase.unsent + model.buf, MAX_BUFFER_SIZE);
      capture.Rebuffer(unsent);
      backoff := NextBackoff(backoff);
      Record(PutBack);
    }

    method CompareIDs(records: seq<Line>, lastSeen: EventID, w: World) returns (fired: bool)
      requires Agrees() && model.phase.Succeeded?
      requires records == Lines(model.phase.all) && lastSeen == model.phase.lastSeen
      requires w.comparedAt >= model.now && w.finishedAt >= w.comparedAt
      modifies this`lastPushedEventID, this`lastSnapshotAt, this`history, this`model, capture
      ensures Valid()
      ensures fired <==> Compared(old(model), w.comparedAt).phase.Snapshotting?
      ensures history == old(history) + Comparison(fired, w)
    {
      var batchHigh := ScanMaxEventID(records);
      if batchHigh > lastPushedEventID {
        lastPushedEventID := batchHigh;
      }
      fired := canReconcile && lastSeen != 0 && lastSeen != lastPushedEventID
               && CooldownOver(lastSnapshotAt, w.comparedAt);
      Record(Compare(w.comparedAt));
      if fired {
        LogAll(w.snapshot);
        lastSnapshotAt := Some(w.finishedAt);
        Record(SnapshotDone(w.finishedAt));
        AppendAssoc(old(history) + [Compare(w.comparedAt)], WriteEvents(w.snapshot), [SnapshotDone(w.finishedAt)]);
        AppendAssoc(old(history), [Compare(w.comparedAt)],
                    WriteEvents(w.snapshot) + [SnapshotDone(w.finishedAt)]);
      }
    }

    /** The body of `case <-ctx.Done()`: one last push; what it does not deliver is given up. */
    method OnShutdown(push: nat -> Reply)
      requires Valid()
      modifies this`history, this`model, capture`buf
      ensures Agrees() && model.phase.Stopped? && capture.buf == []
      ensures history == old(history) + [Shutdown] + PushEvents(old(model).buf, push, 0)
    {
      ghost var buf := model.buf;
      var records := capture.Flush();
      var _, _, _ := PushAll(records, push);
      Record(Shutdown);
      if buf != [] {
        PushIsARun(model, push, 0);
        RecordAll(PushEvents(buf, push, 0));
      }
    }
  }

  /** What logging does not touch. */
  predicate SameButBuffer(s: State, t: State) {
    && t.phase == s.phase && t.backoff == s.backoff && t.lastPushed == s.lastPushed
    && t.lastSnapshotAt == s.lastSnapshotAt && t.now == s.now && t.canReconcile == s.canReconcile
  }

  lemma LinesOfLastN(items: seq<Item>, n: nat)
    ensures Lines(LastN(items, n)) == LastN(Lines(items), n)
  {
  }

  lemma LinesOfConcat(a: seq<Item>, b: seq<Item>)
    ensures Lines(a + b) == Lines(a) + Lines(b)
  {
  }

  lemma LinesOfCaptured(s: State, p: Line)
    ensures Lines(Captured(s, p).buf)
         == if IsCaptured(p) then LastN(Lines(s.buf) + [Trimmed(p)], MAX_BUFFER_SIZE) else Lines(s.buf)
  {
    if IsCaptured(p) {
      var x := Item(|s.log|, Trimmed(p));
      LinesOfConcat(s.buf, [x]);
      assert Lines([x]) == [Trimmed(p)];
      LinesOfLastN(s.buf + [x], MAX_BUFFER_SIZE);
    }
  }

  /** So the code's own buffer is, between ticks, the log of captured lines from the cursor on, less what
      10,000 newer lines have pushed out. */
  lemma CodeBufferIsLogSuffix(loop: PushLoop)
    requires loop.Valid()
    ensures var s := loop.model;
      Cursor(s) <= |s.log| && loop.capture.buf == Lines(s.log[Max(Cursor(s), |s.log| - 10_000)..])
  {
    BufferIsLogSuffix(loop.canReconcile, loop.startedAt, loop.history);
  }

  /** A flush, whatever the replies to it, takes at most five requests: the buffer never holds more than
      five batches. */
  lemma {:induction false} FlushTakesFiveRequests(loop: PushLoop, push: nat -> Reply)
    requires loop.Valid()
    ensures |Requests(loop.capture.buf, push, 0)| <= 5
  {
    CodeBufferIsLogSuffix(loop);
    RequestCount(loop.capture.buf, push, 0);
  }
}
