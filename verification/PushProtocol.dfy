/** The push loop as a state machine over its atomic steps (push.go:44-188, 355-364).

    Lock-protected buffer operations and HTTP replies are the atomic steps; writers may run between any
    two of them. `log`, `delivered`, `dropped`, `abandoned`, `partialHigh`, `starts` and `finishes` are
    history: no step reads them to decide what to do. */
module PushProtocol {
  import opened Common
  import opened Records
  import opened LineCaptures

  const SECOND: nat := 1_000_000_000
  const PUSH_INTERVAL: nat := 30 * SECOND
  const MAX_BACKOFF: nat := 300 * SECOND
  const SNAPSHOT_COOLDOWN: nat := 300 * SECOND
  const PUSH_BATCH_LIMIT: nat := 2_000

  datatype Phase =
    | Waiting
      /** Inside pushAll: `all` was flushed, `rest` is not acknowledged yet. */
    | Pushing(all: seq<Item>, rest: seq<Item>, lastSeen: EventID, final: bool)
      /** pushAll failed, Rebuffer has not run yet. */
    | Failed(unsent: seq<Item>)
      /** pushAll succeeded, the ids have not been compared yet. */
    | Succeeded(all: seq<Item>, lastSeen: EventID)
    | Snapshotting
    | Stopped

  datatype State = State(
    buf: seq<Item>, phase: Phase,
    backoff: nat, lastPushed: EventID, lastSnapshotAt: Option<int>, now: int, canReconcile: bool,
    log: seq<Item>, delivered: seq<Item>, dropped: seq<Item>, abandoned: seq<Item>,
    partialHigh: EventID, starts: seq<int>, finishes: seq<int>)

  datatype Event =
    | Write(p: Line)
    | Tick
    | Acked(seen: EventID)
    | NotAcked
    | PutBack
    | Compare(at: int)
    | SnapshotDone(at: int)
    | Shutdown

  function Init(canReconcile: bool, now: int): (s: State) {
    State([], Waiting, 0, 0, None, now, canReconcile, [], [], [], [], 0, [], [])
  }

  function NextBackoff(current: nat): (next: nat) {
    if current == 0 then PUSH_INTERVAL
    else if current * 2 > MAX_BACKOFF then MAX_BACKOFF
    else current * 2
  }

  /** The batch pushAll sends next. */
  function Batch<T>(rest: seq<T>): (b: seq<T>)
    ensures b <= rest && |b| <= PUSH_BATCH_LIMIT && (rest != [] ==> b != [])
  {
    if |rest| > PUSH_BATCH_LIMIT then rest[..PUSH_BATCH_LIMIT] else rest
  }

  predicate CooldownOver(lastSnapshotAt: Option<int>, at: int) {
    lastSnapshotAt == None || at - lastSnapshotAt.value >= SNAPSHOT_COOLDOWN
  }

  /** The pushed-id high-water mark once a flush was delivered completely. */
  function Advanced(lastPushed: EventID, all: seq<Item>): (id: EventID) {
    Max(lastPushed, MaxID(Lines(all)))
  }

  /** The comparison of the acknowledged id with the local high-water mark. */
  predicate IsMismatch(lastSeen: EventID, lastPushed: EventID) {
    lastSeen != 0 && lastSeen != lastPushed
  }

  predicate Enabled(s: State, e: Event) {
    match e
    case Write(_) => true
    case Tick => s.phase.Waiting?
    case Acked(_) => s.phase.Pushing?
    case NotAcked => s.phase.Pushing?
    case PutBack => s.phase.Failed?
    case Compare(at) => s.phase.Succeeded? && at >= s.now
    case SnapshotDone(at) => s.phase.Snapshotting? && at >= s.now
    case Shutdown => s.phase.Waiting?
  }

  function Next(s: State, e: Event): (t: State)
    requires Enabled(s, e)
  {
    match e
    case Write(p) => Captured(s, p)
    case Tick => Ticked(s)
    case Acked(seen) => BatchAcked(s, seen)
    case NotAcked => BatchNotAcked(s)
    case PutBack => Rebuffered(s)
    case Compare(at) => Compared(s, at)
    case SnapshotDone(at) =>
      s.(phase := Waiting, lastSnapshotAt := Some(at), now := at, finishes := s.finishes + [at])
    case Shutdown => LastFlush(s)
  }

  function Captured(s: State, p: Line): (t: State) {
    if !IsCaptured(p) then s else
      var x := Item(|s.log|, Trimmed(p));
      s.(log := s.log + [x],
         buf := LastN(s.buf + [x], MAX_BUFFER_SIZE),
         dropped := s.dropped + Overflow(s.buf + [x], MAX_BUFFER_SIZE))
  }

  function Ticked(s: State): (t: State)
    requires s.phase.Waiting?
  {
    if s.backoff > PUSH_INTERVAL then s.(backoff := s.backoff - PUSH_INTERVAL)
    else if s.buf == [] then s.(backoff := 0)
    else s.(backoff := 0, buf := [], phase := Pushing(s.buf, s.buf, 0, false))
  }

  /** The acknowledged part of the flush in flight. */
  function Sent(ph: Phase): (sent: seq<Item>)
    requires ph.Pushing?
  {
    if |ph.rest| <= |ph.all| then ph.all[..|ph.all| - |ph.rest|] else []
  }

  function BatchAcked(s: State, seen: EventID): (t: State)
    requires s.phase.Pushing?
  {
    var batch := Batch(s.phase.rest);
    var rest := s.phase.rest[|batch|..];
    var lastSeen := Max(s.phase.lastSeen, seen);
    s.(delivered := s.delivered + batch,
       phase := if rest != [] then s.phase.(rest := rest, lastSeen := lastSeen)
                else if s.phase.final then Stopped
                else Succeeded(s.phase.all, lastSeen))
  }

  function BatchNotAcked(s: State): (t: State)
    requires s.phase.Pushing?
  {
    if s.phase.final then
      s.(phase := Stopped, abandoned := s.abandoned + s.phase.rest)
    else
      s.(phase := Failed(s.phase.rest), partialHigh := Max(s.partialHigh, MaxID(Lines(Sent(s.phase)))))
  }

  function Rebuffered(s: State): (t: State)
    requires s.phase.Failed?
  {
    s.(phase := Waiting, backoff := NextBackoff(s.backoff),
       buf := LastN(s.phase.unsent + s.buf, MAX_BUFFER_SIZE),
       dropped := s.dropped + Overflow(s.phase.unsent + s.buf, MAX_BUFFER_SIZE))
  }

  function LastFlush(s: State): (t: State)
    requires s.phase.Waiting?
  {
    s.(buf := [], phase := if s.buf == [] then Stopped else Pushing(s.buf, s.buf, 0, true))
  }

  function Compared(s: State, at: int): (t: State)
    requires s.phase.Succeeded?
  {
    var high := Advanced(s.lastPushed, s.phase.all);
    if s.canReconcile && IsMismatch(s.phase.lastSeen, high) && CooldownOver(s.lastSnapshotAt, at) then
      s.(phase := Snapshotting, lastPushed := high, now := at, starts := s.starts + [at])
    else
      s.(phase := Waiting, lastPushed := high, now := at)
  }

  // ---- runs -------------------------------------------------------------------------------------

  predicate IsRun(s: State, es: seq<Event>)
    decreases |es|, 0
  {
    es == [] ||
    (IsRun(s, es[..|es| - 1]) && Enabled(After(s, es[..|es| - 1]), es[|es| - 1]))
  }

  function After(s: State, es: seq<Event>): (t: State)
    requires IsRun(s, es)
    decreases |es|, 1
  {
    if es == [] then s else Next(After(s, es[..|es| - 1]), es[|es| - 1])
  }

  lemma RunExtends(s: State, es: seq<Event>, e: Event)
    requires IsRun(s, es) && Enabled(After(s, es), e)
    ensures IsRun(s, es + [e]) && After(s, es + [e]) == Next(After(s, es), e)
  {
    assert (es + [e])[..|es + [e]| - 1] == es;
  }
}
