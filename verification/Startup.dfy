/** The start-up protocol and later snapshots (main.go:291-322, informer.go:18-48, pod.go:13-27, 159-223).

    The informer commits a change to its store, then queues the notification; one goroutine delivers
    notifications in order and drops them until the gate is open; main opens the gate, lists the store, writes
    one INITIAL line per container and closes with the key list of what it listed. After this first snapshot any
    number of further ones may be under way at once, as the periodic loop and the push loop start theirs without
    a common lock. Every written line is a step, so live lines and the snapshots' lines interleave freely.
    `mark` and `last` are history: no step reads them to decide what to do. */
module Startup {
  import opened Common
  import opened Records
  import opened Pods
  import opened Suppression
  import opened PodStream
  import Snapshots

  /** What a record tells the consumer. */
  datatype Fact = Put(k: Key, v: Value) | Gone(k: Key)

  function FactOf(r: ContainerRecord): (f: Fact) {
    match r
    case Upsert(_, _, _, _, _, _, _, _, _, _, _, _, _, _, _, _, _) =>
      Put(Key(r.podUID, r.containerKind, r.container), Value(r.podPhase, r.imageSpec, r.imageID))
    case Delete(_, _, _, _, _, _, _, _) => Gone(Key(r.podUID, r.containerKind, r.container))
  }

  function Learn(view: View, f: Fact): (v: View) {
    match f
    case Put(k, value) => view[k := value]
    case Gone(k) => view - {k}
  }

  lemma LearningIsApplying(view: View, r: ContainerRecord)
    ensures Learn(view, FactOf(r)) == Apply(view, r)
  {
  }

  /** A written line: a record's fact, or the key list of a snapshot. */
  datatype Line = Said(f: Fact) | KeyList(keys: seq<string>)

  /** The consumer stores what records say and drops whatever a key list does not name. */
  function Read(view: View, l: Line): (v: View) {
    match l
    case Said(f) => Learn(view, f)
    case KeyList(keys) => Snapshots.Pruned(view, keys)
  }

  function Puts(p: Pod, refs: seq<ContainerRef>): (fs: seq<Fact>)
    ensures |fs| == |refs|
  {
    seq(|refs|, i requires 0 <= i < |refs| => Put(KeyOf(p, refs[i]), ValueOf(p, refs[i])))
  }

  function Gones(p: Pod, refs: seq<ContainerRef>): (fs: seq<Fact>)
    ensures |fs| == |refs|
  {
    seq(|refs|, i requires 0 <= i < |refs| => Gone(KeyOf(p, refs[i])))
  }

  /** The facts of EmitPod's and EmitPodDelete's records, whatever ids and owners they carry. */
  lemma FactsOfRecords(event: string, p: Pod, was: Option<Pod>, sets: ReplicaSets, before: EventID)
    ensures forall i :: 0 <= i < |ToEmit(p, was)| ==>
      FactOf(PodRecords(event, p, was, sets, before)[i]) == Puts(p, ToEmit(p, was))[i]
    ensures forall i :: 0 <= i < |Containers(p)| ==>
      FactOf(DeleteRecords(p, sets, before)[i]) == Gones(p, Containers(p))[i]
  {
  }

  // ---- notifications ------------------------------------------------------------------------------

  /** ADD has no `before`, DELETE no `after`. */
  datatype Note = Note(uid: string, before: Option<Pod>, after: Option<Pod>)

  type Store = map<string, Pod>

  function LookUp(store: Store, uid: string): (p: Option<Pod>) {
    if uid in store then Some(store[uid]) else None
  }

  function Commit(store: Store, n: Note): (s: Store) {
    if n.after.Some? then store[n.uid := n.after.value] else store - {n.uid}
  }

  /** What the handler writes for a notification when the gate is open. */
  function NoteFacts(n: Note): (fs: seq<Fact>) {
    if n.after.Some? then Puts(n.after.value, ToEmit(n.after.value, n.before))
    else if n.before.Some? then Gones(n.before.value, Containers(n.before.value))
    else []
  }

  /** What is assumed of the cluster: container names are unique within a kind, an update keeps the pod's
      uid, and it is not masked (see PodStream.UpdateRebuilds). */
  ghost predicate IsSound(n: Note) {
    && (n.before.Some? ==> n.before.value.uid == n.uid && HasUniqueNames(n.before.value))
    && (n.after.Some? ==> n.after.value.uid == n.uid && HasUniqueNames(n.after.value))
    && (n.before.Some? && n.after.Some? ==> !IsMasked(n.before.value, n.after.value))
  }

  /** Updates do not remove containers from a pod. */
  predicate KeepsContainers(n: Note) {
    n.before.Some? && n.after.Some? ==> PodKeys(n.before.value) <= PodKeys(n.after.value)
  }

  // ---- the machine --------------------------------------------------------------------------------

  /** A snapshot: what it listed, the key list that closes it, the INITIAL lines still due, and whether it is
      closed. */
  datatype Snapshot = Snapshot(listed: Store, keys: seq<string>, pending: seq<Fact>, closed: bool)

  /** The newest line about a container: a live line, an INITIAL line, or a key list that does not name it;
      the latter two with the number of their snapshot. */
  datatype Source = Live | Initial(of: nat) | Dropped(of: nat)

  /** `mark` counts the undelivered changes that were committed before the first listing. */
  datatype State = State(
    store: Store, queue: seq<Note>, open: bool, live: seq<Fact>, snapshots: seq<Snapshot>, mark: nat,
    out: seq<Line>, view: View, last: map<Key, Source>)

  datatype Event =
    | Change(n: Note)
    | Deliver
    | WriteLive
    | OpenGate
    | List(list: seq<Pod>)
    | WriteInitial(of: nat)
    | WriteKeys(of: nat)

  /** The consumer may hold anything from an earlier process. */
  function Init(view: View): (s: State) {
    State(map[], [], false, [], [], 0, [], view, map[])
  }

  ghost predicate IsListing(list: seq<Pod>, store: Store) {
    && (forall i :: 0 <= i < |list| ==> LookUp(store, list[i].uid) == Some(list[i]))
    && (forall i, j :: 0 <= i < j < |list| ==> list[i].uid != list[j].uid)
    && (forall uid :: uid in store ==> exists i :: 0 <= i < |list| && list[i].uid == uid)
  }

  /** The INITIAL lines for a listing, in its order. */
  function InitialFacts(list: seq<Pod>): (fs: seq<Fact>) {
    if list == [] then []
    else InitialFacts(list[..|list| - 1]) + Puts(list[|list| - 1], Containers(list[|list| - 1]))
  }

  ghost predicate Enabled(s: State, e: Event) {
    match e
    case Change(n) => n.before == LookUp(s.store, n.uid) && (n.before.Some? || n.after.Some?) && IsSound(n)
    case Deliver => s.live == [] && s.queue != []
    case WriteLive => s.live != []
    case OpenGate => !s.open
    case List(list) => s.open && (s.snapshots == [] || s.snapshots[0].closed) && IsListing(list, s.store)
    case WriteInitial(i) => i < |s.snapshots| && s.snapshots[i].pending != []
    case WriteKeys(i) => i < |s.snapshots| && s.snapshots[i].pending == [] && !s.snapshots[i].closed
  }

  function Next(s: State, e: Event): (t: State)
    requires Enabled(s, e)
  {
    match e
    case Change(n) => s.(store := Commit(s.store, n), queue := s.queue + [n])
    case Deliver => Delivered(s)
    case WriteLive => LiveWritten(s)
    case OpenGate => s.(open := true)
    case List(list) => JustListed(s, list)
    case WriteInitial(i) => InitialWritten(s, i)
    case WriteKeys(i) => KeysWritten(s, i)
  }

  function JustListed(s: State, list: seq<Pod>): (t: State) {
    s.(snapshots := s.snapshots + [Snapshot(s.store, Snapshots.ContainerKeys(list), InitialFacts(list), false)],
       mark := if s.snapshots == [] then |s.queue| else s.mark)
  }

  function Delivered(s: State): (t: State)
    requires s.live == [] && s.queue != []
  {
    s.(queue := s.queue[1..], live := if s.open then NoteFacts(s.queue[0]) else [],
       mark := if s.mark > 0 then s.mark - 1 else 0)
  }

  predicate IsAbout(fs: seq<Fact>, k: Key) {
    exists i :: 0 <= i < |fs| && fs[i].k == k
  }

  function LiveWritten(s: State): (t: State)
    requires s.live != []
  {
    var f := s.live[0];
    s.(live := s.live[1..], out := s.out + [Said(f)], view := Learn(s.view, f), last := s.last[f.k := Live])
  }

  function InitialWritten(s: State, i: nat): (t: State)
    requires i < |s.snapshots| && s.snapshots[i].pending != []
  {
    var sn := s.snapshots[i];
    var f := sn.pending[0];
    s.(snapshots := s.snapshots[i := sn.(pending := sn.pending[1..])],
       out := s.out + [Said(f)], view := Learn(s.view, f), last := s.last[f.k := Initial(i)])
  }

  /** The newest line about each container after key list number i: the list itself, for whatever it does not
      name and the consumer has heard of. */
  function LastAfterKeys(s: State, i: nat, keys: seq<string>): (last: map<Key, Source>) {
    map k | k in s.last.Keys + s.view.Keys && (k in s.last || Snapshots.KeyText(k) !in keys) ::
      if Snapshots.KeyText(k) in keys then s.last[k] else Dropped(i)
  }

  function KeysWritten(s: State, i: nat): (t: State)
    requires i < |s.snapshots|
  {
    var sn := s.snapshots[i];
    s.(snapshots := s.snapshots[i := sn.(closed := true)],
       out := s.out + [KeyList(sn.keys)], view := Snapshots.Pruned(s.view, sn.keys),
       last := LastAfterKeys(s, i, sn.keys))
  }

  ghost predicate IsRun(s: State, es: seq<Event>)
    decreases |es|, 0
  {
    es == [] || (IsRun(s, es[..|es| - 1]) && Enabled(After(s, es[..|es| - 1]), es[|es| - 1]))
  }

  ghost function After(s: State, es: seq<Event>): (t: State)
    requires IsRun(s, es)
    decreases |es|, 1
  {
    if es == [] then s else Next(After(s, es[..|es| - 1]), es[|es| - 1])
  }

  predicate IsComplete(sn: Snapshot) {
    sn.pending == [] && sn.closed
  }

  /** Everything queued is delivered and written, and every snapshot that was begun is complete. */
  predicate IsQuiet(s: State) {
    s.queue == [] && s.live == [] && s.snapshots != [] && forall i :: 0 <= i < |s.snapshots| ==> IsComplete(s.snapshots[i])
  }

  // ---- the queue links into the store -------------------------------------------------------------

  /** The state of pod `uid` just before the notifications q (the newest ones) were committed. */
  function StateBefore(q: seq<Note>, uid: string, store: Store): (p: Option<Pod>) {
    if q == [] then LookUp(store, uid)
    else if q[0].uid == uid then q[0].before
    else StateBefore(q[1..], uid, store)
  }

  ghost predicate QueueInv(q: seq<Note>, store: Store) {
    q == [] ||
    (IsSound(q[0]) && q[0].after == StateBefore(q[1..], q[0].uid, store) && QueueInv(q[1..], store))
  }

  lemma {:induction false} StateBeforeAppend(q: seq<Note>, n: Note, uid: string, store: Store)
    requires n.before == LookUp(store, n.uid)
    ensures StateBefore(q + [n], uid, Commit(store, n)) == StateBefore(q, uid, store)
  {
    if q != [] {
      assert (q + [n])[1..] == q[1..] + [n];
      StateBeforeAppend(q[1..], n, uid, store);
    } else {
      assert (q + [n])[1..] == [];
    }
  }

  lemma {:induction false} QueueAppend(q: seq<Note>, n: Note, store: Store)
    requires QueueInv(q, store) && n.before == LookUp(store, n.uid) && IsSound(n)
    ensures QueueInv(q + [n], Commit(store, n))
  {
    if q != [] {
      assert (q + [n])[1..] == q[1..] + [n];
      StateBeforeAppend(q[1..], n, q[0].uid, store);
      QueueAppend(q[1..], n, store);
    } else {
      assert (q + [n])[1..] == [];
    }
  }

  // ---- coverage -----------------------------------------------------------------------------------

  predicate IsSaid(s: State, f: Fact) {
    Said(f) in s.out || f in s.live || (s.snapshots != [] && f in s.snapshots[0].pending)
  }

  ghost predicate IsCovered(s: State, p: Option<Pod>) {
    p.Some? ==> forall c :: c in Containers(p.value) ==> IsSaid(s, Put(KeyOf(p.value, c), ValueOf(p.value, c)))
  }

  /** Once there was a listing, every pod is covered as it was when the `mark` newest undelivered changes began. */
  ghost predicate CoverageInv(s: State) {
    && QueueInv(s.queue, s.store)
    && (forall uid :: uid in s.store ==> s.store[uid].uid == uid)
    && s.mark <= |s.queue|
    && (s.snapshots != [] ==> forall uid :: IsCovered(s, StateBefore(s.queue[s.mark..], uid, s.store)))
  }

  lemma PutsMember(p: Pod, refs: seq<ContainerRef>, c: ContainerRef)
    requires c in refs
    ensures Put(KeyOf(p, c), ValueOf(p, c)) in Puts(p, refs)
  {
    var i :| 0 <= i < |refs| && refs[i] == c;
    assert Puts(p, refs)[i] == Put(KeyOf(p, c), ValueOf(p, c));
  }

  /** A container the handler does not announce was there before, with the same value. */
  lemma UnannouncedIsOld(n: Note, c: ContainerRef)
    requires IsSound(n) && n.after.Some? && c in Containers(n.after.value) && c !in ToEmit(n.after.value, n.before)
    ensures n.before.Some? && c in Containers(n.before.value) && n.before.value.phase == n.after.value.phase
  {
    var p, was := n.after.value, n.before.value;
    if SamePodImages(was, p) {
      SuppressionIsSoundUnlessLate(was, p);
    } else {
      ChangedIsFilter(Containers(p), ByKey(Containers(was)));
      var i :| 0 <= i < |Containers(p)| && Containers(p)[i] == c;
      UnchangedWasThere(p, was, i);
    }
  }

  lemma DeliveryCovers(s: State, t: State)
    requires s.open && s.live == [] && s.queue != [] && t == Delivered(s)
    requires IsSound(s.queue[0]) && IsCovered(s, s.queue[0].before)
    ensures IsCovered(t, s.queue[0].after)
  {
    var n := s.queue[0];
    if n.after.Some? {
      var p := n.after.value;
      forall c | c in Containers(p) ensures IsSaid(t, Put(KeyOf(p, c), ValueOf(p, c))) {
        if c in ToEmit(p, n.before) {
          PutsMember(p, ToEmit(p, n.before), c);
        } else {
          UnannouncedIsOld(n, c);
          assert IsSaid(s, Put(KeyOf(n.before.value, c), ValueOf(n.before.value, c)));
        }
      }
    }
  }

  lemma DeliverKeepsCoverage(s: State)
    requires CoverageInv(s) && (s.snapshots != [] ==> s.open) && Enabled(s, Deliver)
    ensures CoverageInv(Delivered(s))
  {
    var t, n := Delivered(s), s.queue[0];
    if s.snapshots != [] {
      forall uid ensures IsCovered(t, StateBefore(t.queue[t.mark..], uid, t.store)) {
        assert IsCovered(s, StateBefore(s.queue[s.mark..], uid, s.store));
        if s.mark > 0 {
          assert t.queue[t.mark..] == s.queue[s.mark..];
        } else {
          assert s.queue[0..] == s.queue && t.queue[0..] == t.queue;
          if n.uid == uid {
            DeliveryCovers(s, t);
          }
        }
      }
    }
  }

  lemma ChangeKeepsCoverage(s: State, n: Note)
    requires CoverageInv(s) && Enabled(s, Change(n))
    ensures CoverageInv(Next(s, Change(n)))
  {
    var t := Next(s, Change(n));
    QueueAppend(s.queue, n, s.store);
    if s.snapshots != [] {
      forall uid ensures IsCovered(t, StateBefore(t.queue[t.mark..], uid, t.store)) {
        var ahead := s.queue[s.mark..];
        assert t.queue[t.mark..] == ahead + [n];
        StateBeforeAppend(ahead, n, uid, s.store);
        assert IsCovered(s, StateBefore(ahead, uid, s.store));
      }
    }
  }

  lemma {:induction false} ListingSays(list: seq<Pod>, i: nat, c: ContainerRef)
    requires i < |list| && c in Containers(list[i])
    ensures Put(KeyOf(list[i], c), ValueOf(list[i], c)) in InitialFacts(list)
  {
    if i < |list| - 1 {
      ListingSays(list[..|list| - 1], i, c);
    } else {
      PutsMember(list[i], Containers(list[i]), c);
    }
  }

  lemma ListKeepsCoverage(s: State, list: seq<Pod>)
    requires CoverageInv(s) && Enabled(s, List(list))
    ensures CoverageInv(Next(s, List(list)))
  {
    if s.snapshots == [] {
      FirstListingCovers(s, list);
    } else {
      WritingKeepsCoverage(s, JustListed(s, list));
    }
  }

  lemma FirstListingCovers(s: State, list: seq<Pod>)
    requires CoverageInv(s) && Enabled(s, List(list)) && s.snapshots == []
    ensures CoverageInv(JustListed(s, list))
  {
    var t := JustListed(s, list);
    forall uid ensures IsCovered(t, StateBefore(t.queue[t.mark..], uid, t.store)) {
      assert t.queue[t.mark..] == [];
      if uid in s.store {
        var i :| 0 <= i < |list| && list[i].uid == uid;
        forall c | c in Containers(list[i]) ensures IsSaid(t, Put(KeyOf(list[i], c), ValueOf(list[i], c))) {
          ListingSays(list, i, c);
        }
      }
    }
  }

  lemma WritingKeepsCoverage(s: State, t: State)
    requires CoverageInv(s) && t.queue == s.queue && t.store == s.store
    requires t.snapshots != [] <==> s.snapshots != []
    requires t.mark == s.mark
    requires forall f :: IsSaid(s, f) ==> IsSaid(t, f)
    ensures CoverageInv(t)
  {
    if s.snapshots != [] {
      forall uid ensures IsCovered(t, StateBefore(t.queue[t.mark..], uid, t.store)) {
        assert IsCovered(s, StateBefore(s.queue[s.mark..], uid, s.store));
      }
    }
  }

  lemma HeadAndTail(fs: seq<Fact>, f: Fact)
    requires fs != []
    ensures f in fs <==> f == fs[0] || f in fs[1..]
  {
  }

  lemma NextKeepsCoverage(s: State, e: Event)
    requires CoverageInv(s) && (s.snapshots != [] ==> s.open) && Enabled(s, e)
    ensures CoverageInv(Next(s, e)) && (Next(s, e).snapshots != [] ==> Next(s, e).open)
  {
    match e
    case Change(n) => ChangeKeepsCoverage(s, n);
    case Deliver => DeliverKeepsCoverage(s);
    case WriteLive =>
      forall f | IsSaid(s, f) ensures IsSaid(LiveWritten(s), f) { HeadAndTail(s.live, f); }
      WritingKeepsCoverage(s, LiveWritten(s));
    case OpenGate => WritingKeepsCoverage(s, s.(open := true));
    case List(list) => ListKeepsCoverage(s, list);
    case WriteInitial(i) =>
      forall f | IsSaid(s, f) ensures IsSaid(InitialWritten(s, i), f) { HeadAndTail(s.snapshots[i].pending, f); }
      WritingKeepsCoverage(s, InitialWritten(s, i));
    case WriteKeys(i) => WritingKeepsCoverage(s, KeysWritten(s, i));
  }

  lemma {:induction false} RunKeepsCoverage(view: View, es: seq<Event>)
    requires IsRun(Init(view), es)
    ensures var s := After(Init(view), es); CoverageInv(s) && (s.snapshots != [] ==> s.open)
  {
    if es != [] {
      RunKeepsCoverage(view, es[..|es| - 1]);
      NextKeepsCoverage(After(Init(view), es[..|es| - 1]), es[|es| - 1]);
    }
  }

  /** In every interleaving, once all is quiet, every container's final phase, spec and image id has been
      written in at least one record, although events before the gate were dropped and updates are deltas. */
  lemma EveryFinalStateIsWritten(view: View, es: seq<Event>, p: Pod, c: ContainerRef)
    requires IsRun(Init(view), es) && IsQuiet(After(Init(view), es))
    requires p.uid in After(Init(view), es).store && After(Init(view), es).store[p.uid] == p
    requires c in Containers(p)
    ensures Said(Put(KeyOf(p, c), ValueOf(p, c))) in After(Init(view), es).out
  {
    var s := After(Init(view), es);
    RunKeepsCoverage(view, es);
    assert IsCovered(s, StateBefore(s.queue[s.mark..], p.uid, s.store));
    assert s.queue[s.mark..] == [];
    assert IsSaid(s, Put(KeyOf(p, c), ValueOf(p, c)));
  }

  // ---- the view is the replay of the lines ----------------------------------------------------------

  /** Lines as they are written: full records, and key lists. */
  datatype Written = ARecord(r: ContainerRecord) | AKeyList(keys: seq<string>)

  function LinesOf(ws: seq<Written>): (ls: seq<Line>)
    ensures |ls| == |ws|
  {
    seq(|ws|, i requires 0 <= i < |ws| => match ws[i] case ARecord(r) => Said(FactOf(r)) case AKeyList(keys) => KeyList(keys))
  }

  /** The consumer of PodStream, which also prunes at key lists. */
  function Consumed(view: View, ws: seq<Written>): (v: View) {
    if ws == [] then view else
      var before := Consumed(view, ws[..|ws| - 1]);
      match ws[|ws| - 1]
      case ARecord(r) => Apply(before, r)
      case AKeyList(keys) => Snapshots.Pruned(before, keys)
  }

  function ReadAll(view: View, ls: seq<Line>): (v: View) {
    if ls == [] then view else Read(ReadAll(view, ls[..|ls| - 1]), ls[|ls| - 1])
  }

  /** A step writes one line, which the consumer reads, or none. */
  predicate WritesOneLine(s: State, t: State) {
    || (t.out == s.out && t.view == s.view)
    || (t.out != [] && t.out[..|t.out| - 1] == s.out && t.view == Read(s.view, t.out[|t.out| - 1]))
  }

  lemma NextWritesOneLine(s: State, e: Event)
    requires Enabled(s, e)
    ensures WritesOneLine(s, Next(s, e))
  {
  }

  lemma {:induction false} RunReadsLines(view: View, es: seq<Event>)
    requires IsRun(Init(view), es)
    ensures After(Init(view), es).view == ReadAll(view, After(Init(view), es).out)
  {
    if es != [] {
      RunReadsLines(view, es[..|es| - 1]);
      NextWritesOneLine(After(Init(view), es[..|es| - 1]), es[|es| - 1]);
    }
  }

  lemma {:induction false} ReadingIsConsuming(view: View, ws: seq<Written>)
    ensures ReadAll(view, LinesOf(ws)) == Consumed(view, ws)
  {
    if ws != [] {
      var front, last := ws[..|ws| - 1], ws[|ws| - 1];
      ReadingIsConsuming(view, front);
      assert LinesOf(ws)[..|ws| - 1] == LinesOf(front);
      if last.ARecord? {
        LearningIsApplying(Consumed(view, front), last.r);
      }
    }
  }

  /** Whatever full records stand behind the written lines, the machine's view is what the consumer makes of
      them. */
  lemma {:induction false} ViewIsConsumed(view: View, es: seq<Event>, ws: seq<Written>)
    requires IsRun(Init(view), es) && LinesOf(ws) == After(Init(view), es).out
    ensures After(Init(view), es).view == Consumed(view, ws)
  {
    RunReadsLines(view, es);
    ReadingIsConsuming(view, ws);
  }
}
