/** What the consumer ends up with after any snapshots, and when that is the cluster's final state. */
module StartupView {
  import opened Common
  import opened Pods
  import opened PodStream
  import opened Startup

  function Final(s: State, k: Key): (v: Option<Value>) {
    ValueIn(LookUp(s.store, k.podUID), k)
  }

  predicate Agrees(f: Fact, v: Option<Value>) {
    match f
    case Put(_, value) => v == Some(value)
    case Gone(_) => v == None
  }

  ghost predicate DistinctKeys(fs: seq<Fact>) {
    forall i, j :: 0 <= i < j < |fs| ==> fs[i].k != fs[j].k
  }

  // ---- one notification ---------------------------------------------------------------------------

  lemma EmittedAreContainers(p: Pod, was: Option<Pod>)
    requires HasUniqueNames(p)
    ensures DistinctRefs(ToEmit(p, was)) && forall c :: c in ToEmit(p, was) ==> c in Containers(p)
  {
    if was.Some? {
      ChangedIsFilter(Containers(p), ByKey(Containers(was.value)));
    }
  }

  lemma PutsDescribe(p: Pod, refs: seq<ContainerRef>)
    requires HasUniqueNames(p) && DistinctRefs(refs) && forall c :: c in refs ==> c in Containers(p)
    ensures DistinctKeys(Puts(p, refs))
    ensures forall f :: f in Puts(p, refs) ==> f.k.podUID == p.uid && Agrees(f, ValueIn(Some(p), f.k))
  {
    forall j | 0 <= j < |refs| ensures Agrees(Puts(p, refs)[j], ValueIn(Some(p), Puts(p, refs)[j].k)) {
      assert refs[j] in refs;
      var i :| 0 <= i < |Containers(p)| && Containers(p)[i] == refs[j];
      ValueOfContainer(p, i);
    }
  }

  /** A handler call writes at most one line per container, and each states the pod's new value. */
  lemma NoteFactsDescribe(n: Note)
    requires IsSound(n)
    ensures DistinctKeys(NoteFacts(n))
    ensures forall f :: f in NoteFacts(n) ==> f.k.podUID == n.uid && Agrees(f, ValueIn(n.after, f.k))
  {
    if n.after.Some? {
      EmittedAreContainers(n.after.value, n.before);
      PutsDescribe(n.after.value, ToEmit(n.after.value, n.before));
    }
  }

  lemma PutsAreAbout(p: Pod, refs: seq<ContainerRef>, c: ContainerRef)
    requires c in refs
    ensures IsAbout(Puts(p, refs), KeyOf(p, c))
  {
    var j :| 0 <= j < |refs| && refs[j] == c;
    assert Puts(p, refs)[j].k == KeyOf(p, c);
  }

  lemma GonesAreAbout(p: Pod, refs: seq<ContainerRef>, k: Key)
    requires k in KeysOf(p, refs)
    ensures IsAbout(Gones(p, refs), k)
  {
    var i :| 0 <= i < |refs| && KeyOf(p, refs[i]) == k;
    assert Gones(p, refs)[i].k == k;
  }

  lemma UnwrittenInUpdate(n: Note, k: Key)
    requires IsSound(n) && KeepsContainers(n) && n.after.Some? && !IsAbout(NoteFacts(n), k)
    requires k in PodKeys(n.after.value)
    ensures ValueIn(n.before, k) == ValueIn(n.after, k)
  {
    var p := n.after.value;
    var i :| 0 <= i < |Containers(p)| && KeyOf(p, Containers(p)[i]) == k;
    var c := Containers(p)[i];
    if c in ToEmit(p, n.before) {
      PutsAreAbout(p, ToEmit(p, n.before), c);
    }
    UnannouncedIsOld(n, c);
    var was := n.before.value;
    var m :| 0 <= m < |Containers(was)| && Containers(was)[m] == c;
    ValueOfContainer(p, i);
    ValueOfContainer(was, m);
  }

  /** A container no line is written for keeps its value. */
  lemma UnwrittenIsUnchanged(n: Note, k: Key)
    requires IsSound(n) && KeepsContainers(n) && n.uid == k.podUID && !IsAbout(NoteFacts(n), k)
    ensures ValueIn(n.before, k) == ValueIn(n.after, k)
  {
    if n.after.Some? {
      ValueKeys(n.after.value, k);
      if k in PodKeys(n.after.value) {
        UnwrittenInUpdate(n, k);
      } else if n.before.Some? {
        ValueKeys(n.before.value, k);
      }
    } else if n.before.Some? {
      ValueKeys(n.before.value, k);
      if k in PodKeys(n.before.value) {
        var was := n.before.value;
        GonesAreAbout(was, Containers(was), k);
      }
    }
  }

  // ---- invariants ---------------------------------------------------------------------------------

  /** The state the next undelivered notification starts from. */
  function Reached(s: State, k: Key): (v: Option<Value>) {
    ValueIn(StateBefore(s.queue, k.podUID, s.store), k)
  }

  /** The same, `mark` notifications later: past everything committed before the first listing. */
  function ReachedAtMark(s: State, k: Key): (v: Option<Value>)
    requires s.mark <= |s.queue|
  {
    ValueIn(StateBefore(s.queue[s.mark..], k.podUID, s.store), k)
  }

  predicate QueueKeeps(q: seq<Note>) {
    forall i :: 0 <= i < |q| ==> KeepsContainers(q[i])
  }

  /** The lines still due from the running handler call state what the pod has reached. */
  ghost predicate LiveInv(s: State) {
    && DistinctKeys(s.live)
    && (forall f :: f in s.live ==> Agrees(f, Reached(s, f.k)))
  }

  function ListedValue(sn: Snapshot, k: Key): (v: Option<Value>) {
    ValueIn(LookUp(sn.listed, k.podUID), k)
  }

  /** The INITIAL lines still due: one per container, with the listed value. */
  ghost predicate PendingInv(sn: Snapshot) {
    && DistinctKeys(sn.pending)
    && (forall f :: f in sn.pending ==> f.Put? && ListedValue(sn, f.k) == Some(f.v))
  }

  /** What the newest line about a container makes of it: after a live line what the pod has reached, after an
      INITIAL line the listed value, after a key list nothing; and without any line what the consumer held at
      the start. */
  ghost predicate SeenInv(start: View, s: State, k: Key) {
    && (k in s.last && s.last[k].Live? && !IsAbout(s.live, k) ==> Seen(s.view, k) == Reached(s, k))
    && (k in s.last && s.last[k].Initial? ==>
          && s.last[k].of < |s.snapshots|
          && ListedValue(s.snapshots[s.last[k].of], k).Some?
          && Seen(s.view, k) == ListedValue(s.snapshots[s.last[k].of], k))
    && (k in s.last && s.last[k].Dropped? ==> Seen(s.view, k) == None)
    && (k !in s.last ==> Seen(s.view, k) == Seen(start, k))
  }

  /** A container without any line has none due from the first snapshot only if it was not there. */
  ghost predicate UntoldInv(s: State, k: Key) {
    s.snapshots != [] && k !in s.last && !IsAbout(s.snapshots[0].pending, k) ==>
      && ListedValue(s.snapshots[0], k) == None
      && s.mark <= |s.queue|
      && (!IsAbout(s.live, k) ==> ReachedAtMark(s, k) == None)
  }

  ghost predicate ViewInv(start: View, s: State) {
    && QueueInv(s.queue, s.store) && QueueKeeps(s.queue) && s.mark <= |s.queue|
    && (forall uid :: uid in s.store ==> s.store[uid].uid == uid && HasUniqueNames(s.store[uid]))
    && LiveInv(s) && (forall i :: 0 <= i < |s.snapshots| ==> PendingInv(s.snapshots[i]))
    && (!s.open ==> s.snapshots == [] && s.last == map[])
    && forall k :: SeenInv(start, s, k) && UntoldInv(s, k)
  }

  // ---- steps --------------------------------------------------------------------------------------

  lemma ReachedAfterChange(s: State, n: Note, k: Key)
    requires Enabled(s, Change(n)) && s.mark <= |s.queue|
    ensures Reached(Next(s, Change(n)), k) == Reached(s, k)
    ensures ReachedAtMark(Next(s, Change(n)), k) == ReachedAtMark(s, k)
  {
    StateBeforeAppend(s.queue, n, k.podUID, s.store);
    var ahead := s.queue[s.mark..];
    assert (s.queue + [n])[s.mark..] == ahead + [n];
    StateBeforeAppend(ahead, n, k.podUID, s.store);
  }

  lemma ChangeKeepsView(start: View, s: State, n: Note)
    requires ViewInv(start, s) && Enabled(s, Change(n)) && KeepsContainers(n)
    ensures ViewInv(start, Next(s, Change(n)))
  {
    var t := Next(s, Change(n));
    QueueAppend(s.queue, n, s.store);
    forall f | f in t.live ensures Agrees(f, Reached(t, f.k)) {
      ReachedAfterChange(s, n, f.k);
    }
    forall k ensures SeenInv(start, t, k) && UntoldInv(t, k) {
      assert SeenInv(start, s, k) && UntoldInv(s, k);
      ReachedAfterChange(s, n, k);
    }
  }

  /** Delivering a notification moves a pod's reached state, but only for containers it writes a line for. */
  lemma DeliverMovesReached(s: State, k: Key)
    requires QueueInv(s.queue, s.store) && QueueKeeps(s.queue) && Enabled(s, Deliver) && s.open
    ensures !IsAbout(Delivered(s).live, k) ==> Reached(Delivered(s), k) == Reached(s, k)
    ensures s.queue[0].uid == k.podUID ==> Reached(Delivered(s), k) == ValueIn(s.queue[0].after, k)
  {
    var n := s.queue[0];
    if n.uid == k.podUID && !IsAbout(NoteFacts(n), k) {
      UnwrittenIsUnchanged(n, k);
    }
  }

  lemma DeliverKeepsLive(s: State)
    requires QueueInv(s.queue, s.store) && QueueKeeps(s.queue) && Enabled(s, Deliver)
    ensures LiveInv(Delivered(s))
  {
    if s.open {
      NoteFactsDescribe(s.queue[0]);
      forall f | f in Delivered(s).live ensures Agrees(f, Reached(Delivered(s), f.k)) {
        DeliverMovesReached(s, f.k);
      }
    }
  }

  lemma DeliverKeepsKey(start: View, s: State, k: Key)
    requires QueueInv(s.queue, s.store) && QueueKeeps(s.queue) && Enabled(s, Deliver) && s.mark <= |s.queue|
    requires (!s.open ==> s.snapshots == [] && s.last == map[]) && SeenInv(start, s, k) && UntoldInv(s, k)
    ensures SeenInv(start, Delivered(s), k) && UntoldInv(Delivered(s), k)
  {
    var t := Delivered(s);
    if s.open {
      DeliverMovesReached(s, k);
      assert s.queue[0..] == s.queue && t.queue[0..] == t.queue;
      if s.mark > 0 {
        assert t.queue[t.mark..] == s.queue[s.mark..];
      }
    }
  }

  lemma DeliverKeepsView(start: View, s: State)
    requires ViewInv(start, s) && Enabled(s, Deliver)
    ensures ViewInv(start, Delivered(s))
  {
    DeliverKeepsLive(s);
    forall k ensures SeenInv(start, Delivered(s), k) && UntoldInv(Delivered(s), k) {
      assert SeenInv(start, s, k) && UntoldInv(s, k);
      DeliverKeepsKey(start, s, k);
    }
  }

  lemma TailOfDistinct(fs: seq<Fact>, k: Key)
    requires DistinctKeys(fs) && fs != []
    ensures DistinctKeys(fs[1..]) && !IsAbout(fs[1..], fs[0].k)
    ensures k != fs[0].k ==> (IsAbout(fs[1..], k) <==> IsAbout(fs, k))
  {
    if k != fs[0].k && IsAbout(fs, k) {
      var i :| 0 <= i < |fs| && fs[i].k == k;
      assert fs[1..][i - 1].k == k;
    }
  }

  lemma LearnOne(view: View, f: Fact, k: Key)
    ensures k != f.k ==> Seen(Learn(view, f), k) == Seen(view, k)
    ensures Agrees(f, Seen(Learn(view, f), f.k))
  {
  }

  lemma LiveKeepsOther(start: View, s: State, k: Key)
    requires LiveInv(s) && Enabled(s, WriteLive) && SeenInv(start, s, k) && UntoldInv(s, k) && k != s.live[0].k
    ensures SeenInv(start, LiveWritten(s), k) && UntoldInv(LiveWritten(s), k)
  {
    TailOfDistinct(s.live, k);
    LearnOne(s.view, s.live[0], k);
  }

  lemma LiveSettles(start: View, s: State)
    requires LiveInv(s) && Enabled(s, WriteLive)
    ensures SeenInv(start, LiveWritten(s), s.live[0].k) && UntoldInv(LiveWritten(s), s.live[0].k)
  {
    var k := s.live[0].k;
    LearnOne(s.view, s.live[0], k);
    assert s.live[0] in s.live;
    assert Seen(LiveWritten(s).view, k) == Reached(LiveWritten(s), k);
  }

  lemma LiveKeepsView(start: View, s: State)
    requires ViewInv(start, s) && s.open && Enabled(s, WriteLive)
    ensures ViewInv(start, LiveWritten(s))
  {
    TailOfDistinct(s.live, s.live[0].k);
    forall k ensures SeenInv(start, LiveWritten(s), k) && UntoldInv(LiveWritten(s), k) {
      assert SeenInv(start, s, k) && UntoldInv(s, k);
      if k == s.live[0].k {
        LiveSettles(start, s);
      } else {
        LiveKeepsOther(start, s, k);
      }
    }
  }

  lemma InitialKeepsOther(start: View, s: State, i: nat, k: Key)
    requires Enabled(s, WriteInitial(i)) && PendingInv(s.snapshots[i])
    requires SeenInv(start, s, k) && UntoldInv(s, k) && k != s.snapshots[i].pending[0].k
    ensures SeenInv(start, InitialWritten(s, i), k) && UntoldInv(InitialWritten(s, i), k)
  {
    TailOfDistinct(s.snapshots[i].pending, k);
    LearnOne(s.view, s.snapshots[i].pending[0], k);
  }

  lemma InitialSettles(start: View, s: State, i: nat)
    requires Enabled(s, WriteInitial(i)) && PendingInv(s.snapshots[i])
    ensures var k := s.snapshots[i].pending[0].k;
      SeenInv(start, InitialWritten(s, i), k) && UntoldInv(InitialWritten(s, i), k)
  {
    assert s.snapshots[i].pending[0] in s.snapshots[i].pending;
  }

  lemma InitialKeepsView(start: View, s: State, i: nat)
    requires ViewInv(start, s) && Enabled(s, WriteInitial(i))
    ensures ViewInv(start, InitialWritten(s, i))
  {
    var t := InitialWritten(s, i);
    TailOfDistinct(s.snapshots[i].pending, s.snapshots[i].pending[0].k);
    assert PendingInv(t.snapshots[i]);
    forall k ensures SeenInv(start, t, k) && UntoldInv(t, k) {
      assert SeenInv(start, s, k) && UntoldInv(s, k);
      if k == s.snapshots[i].pending[0].k {
        InitialSettles(start, s, i);
      } else {
        InitialKeepsOther(start, s, i, k);
      }
    }
  }

  lemma KeysKeepKey(start: View, s: State, i: nat, k: Key)
    requires Enabled(s, WriteKeys(i)) && SeenInv(start, s, k) && UntoldInv(s, k)
    ensures SeenInv(start, KeysWritten(s, i), k) && UntoldInv(KeysWritten(s, i), k)
  {
    var t, keys := KeysWritten(s, i), s.snapshots[i].keys;
    assert Seen(t.view, k) == if Snapshots.KeyText(k) in keys then Seen(s.view, k) else None;
    assert k in s.last ==> k in t.last;
  }

  lemma KeysKeepView(start: View, s: State, i: nat)
    requires ViewInv(start, s) && Enabled(s, WriteKeys(i)) && s.open
    ensures ViewInv(start, KeysWritten(s, i))
  {
    var t := KeysWritten(s, i);
    assert PendingInv(t.snapshots[i]);
    forall k ensures SeenInv(start, t, k) && UntoldInv(t, k) {
      assert SeenInv(start, s, k) && UntoldInv(s, k);
      KeysKeepKey(start, s, i, k);
    }
  }

  /** A listing yields one INITIAL line per listed container, with the stored value. */
  lemma {:induction false} ListingDescribes(list: seq<Pod>, store: Store)
    requires forall i :: 0 <= i < |list| ==> LookUp(store, list[i].uid) == Some(list[i]) && HasUniqueNames(list[i])
    requires forall i, j :: 0 <= i < j < |list| ==> list[i].uid != list[j].uid
    ensures DistinctKeys(InitialFacts(list))
    ensures forall f :: f in InitialFacts(list) ==>
      && f.Put? && ValueIn(LookUp(store, f.k.podUID), f.k) == Some(f.v)
      && exists i :: 0 <= i < |list| && list[i].uid == f.k.podUID
  {
    if list != [] {
      var front, p := list[..|list| - 1], list[|list| - 1];
      ListingDescribes(front, store);
      PutsDescribe(p, Containers(p));
      forall f | f in InitialFacts(front) ensures f.k.podUID != p.uid {
        var i :| 0 <= i < |front| && front[i].uid == f.k.podUID;
        assert list[i].uid != list[|list| - 1].uid;
      }
      DisjointConcat(InitialFacts(front), Puts(p, Containers(p)), p.uid);
      forall f | f in InitialFacts(front) ensures exists i :: 0 <= i < |list| && list[i].uid == f.k.podUID {
        var i :| 0 <= i < |front| && front[i].uid == f.k.podUID;
        assert list[i].uid == f.k.podUID;
      }
      assert list[|list| - 1].uid == p.uid;
    }
  }

  lemma DisjointConcat(a: seq<Fact>, b: seq<Fact>, uid: string)
    requires DistinctKeys(a) && DistinctKeys(b)
    requires forall f :: f in a ==> f.k.podUID != uid
    requires forall f :: f in b ==> f.k.podUID == uid
    ensures DistinctKeys(a + b)
  {
    forall i, j | 0 <= i < j < |a + b| ensures (a + b)[i].k != (a + b)[j].k {
      if i < |a| <= j {
        assert a[i] in a && b[j - |a|] in b;
      }
    }
  }

  lemma ListedIsPending(list: seq<Pod>, store: Store, k: Key)
    requires IsListing(list, store) && ValueIn(LookUp(store, k.podUID), k).Some?
    ensures IsAbout(InitialFacts(list), k)
  {
    var i :| 0 <= i < |list| && list[i].uid == k.podUID;
    ValueKeys(list[i], k);
    var j :| 0 <= j < |Containers(list[i])| && KeyOf(list[i], Containers(list[i])[j]) == k;
    ListingSays(list, i, Containers(list[i])[j]);
    var m :| 0 <= m < |InitialFacts(list)| &&
      InitialFacts(list)[m] == Put(k, ValueOf(list[i], Containers(list[i])[j]));
    assert InitialFacts(list)[m].k == k;
  }

  lemma ListKeepsUntold(s: State, list: seq<Pod>, k: Key)
    requires Enabled(s, List(list)) && UntoldInv(s, k)
    ensures UntoldInv(JustListed(s, list), k)
  {
    var t := JustListed(s, list);
    if s.snapshots == [] {
      assert t.queue[t.mark..] == [];
      if ListedValue(t.snapshots[0], k).Some? {
        ListedIsPending(list, s.store, k);
      }
    }
  }

  lemma ListKeepsView(start: View, s: State, list: seq<Pod>)
    requires ViewInv(start, s) && Enabled(s, List(list))
    ensures ViewInv(start, JustListed(s, list))
  {
    var t := JustListed(s, list);
    forall i | 0 <= i < |list| ensures HasUniqueNames(list[i]) {
      assert list[i].uid in s.store;
    }
    ListingDescribes(list, s.store);
    forall k ensures SeenInv(start, t, k) && UntoldInv(t, k) {
      assert SeenInv(start, s, k) && UntoldInv(s, k);
      ListKeepsUntold(s, list, k);
    }
  }

  lemma OpenKeepsView(start: View, s: State)
    requires ViewInv(start, s)
    ensures ViewInv(start, s.(open := true))
  {
    forall k ensures SeenInv(start, s.(open := true), k) && UntoldInv(s.(open := true), k) {
      assert SeenInv(start, s, k) && UntoldInv(s, k);
    }
  }

  /** Nothing is due while the gate is closed. */
  predicate GateInv(s: State) {
    !s.open ==> s.live == [] && s.snapshots == []
  }

  lemma NextKeepsView(start: View, s: State, e: Event)
    requires ViewInv(start, s) && GateInv(s) && Enabled(s, e) && (e.Change? ==> KeepsContainers(e.n))
    ensures ViewInv(start, Next(s, e)) && GateInv(Next(s, e))
  {
    match e
    case Change(n) => ChangeKeepsView(start, s, n);
    case Deliver => DeliverKeepsView(start, s);
    case WriteLive => LiveKeepsView(start, s);
    case OpenGate => OpenKeepsView(start, s);
    case List(list) => ListKeepsView(start, s, list);
    case WriteInitial(i) => InitialKeepsView(start, s, i);
    case WriteKeys(i) => KeysKeepView(start, s, i);
  }

  predicate ChangesKeepContainers(es: seq<Event>) {
    forall i :: 0 <= i < |es| && es[i].Change? ==> KeepsContainers(es[i].n)
  }

  lemma {:induction false} RunKeepsView(start: View, es: seq<Event>)
    requires IsRun(Init(start), es) && ChangesKeepContainers(es)
    ensures ViewInv(start, After(Init(start), es)) && GateInv(After(Init(start), es))
  {
    if es != [] {
      RunKeepsView(start, es[..|es| - 1]);
      NextKeepsView(start, After(Init(start), es[..|es| - 1]), es[|es| - 1]);
    }
  }

  // ---- when the newest state wins ------------------------------------------------------------------

  /** A container whose newest line is an INITIAL line has not changed since that snapshot listed it. */
  ghost predicate ListedStillHold(s: State) {
    forall k :: k in s.last && s.last[k].Initial? && s.last[k].of < |s.snapshots| ==>
      ListedValue(s.snapshots[s.last[k].of], k) == Final(s, k)
  }

  /** A container whose newest line is a key list that does not name it is not in the cluster. */
  ghost predicate DroppedAreGone(s: State) {
    forall k :: k in s.last && s.last[k].Dropped? ==> Final(s, k) == None
  }

  /** Whatever the consumer held at the start, some line has told it about since. */
  ghost predicate NothingLingers(start: View, s: State) {
    forall k :: k in start ==> k in s.last
  }

  /** Once all is quiet after any number of snapshots, overlapping or not, the consumer's view is exactly the
      cluster's state if and only if these three hold. Live lines need no condition: where one is the newest
      line, the view is right, although updates are deltas and events before the gate were dropped. */
  lemma NewestWinsExactly(start: View, es: seq<Event>)
    requires IsRun(Init(start), es) && ChangesKeepContainers(es) && IsQuiet(After(Init(start), es))
    ensures var s := After(Init(start), es);
      (forall k :: Seen(s.view, k) == Final(s, k))
      <==> ListedStillHold(s) && DroppedAreGone(s) && NothingLingers(start, s)
  {
    var s := After(Init(start), es);
    RunKeepsView(start, es);
    assert IsComplete(s.snapshots[0]);
    forall k ensures SaysWhatItShows(start, s, k) {
      assert SeenInv(start, s, k) && UntoldInv(s, k);
      assert s.queue[s.mark..] == [];
    }
    forall k | ListedStillHold(s) && DroppedAreGone(s) && NothingLingers(start, s) ensures Seen(s.view, k) == Final(s, k) {
      assert SaysWhatItShows(start, s, k);
    }
    forall k | Seen(s.view, k) == Final(s, k)
      ensures k in s.last && s.last[k].Initial? && s.last[k].of < |s.snapshots| ==>
                ListedValue(s.snapshots[s.last[k].of], k) == Final(s, k)
      ensures k in s.last && s.last[k].Dropped? ==> Final(s, k) == None
      ensures k in start ==> k in s.last
    {
      assert SaysWhatItShows(start, s, k);
    }
  }

  /** Once all is quiet: what the consumer sees of k, and what its newest line says about it. */
  ghost predicate SaysWhatItShows(start: View, s: State, k: Key) {
    if k !in s.last then Seen(s.view, k) == Seen(start, k) && Final(s, k) == None
    else match s.last[k]
      case Live => Seen(s.view, k) == Final(s, k)
      case Initial(i) => i < |s.snapshots| && Seen(s.view, k) == ListedValue(s.snapshots[i], k)
      case Dropped(_) => Seen(s.view, k) == None
  }
}
