/** Concrete start-up runs after which the consumer is wrong for good (main.go:303-311, pod.go:13-27). */
module StartupFailures {
  import opened Common
  import opened Pods
  import opened PodStream
  import opened Startup
  import opened StartupView

  const K := Key("u", "main", "x")
  const TEXT := "u/x"

  function OnePod(id: string): (p: Pod) {
    Pod("ns", "pod", "u", "Running", map[], [], [], [Container("x", "a:1")], [], [], [Status("x", id)], [])
  }

  lemma OnePodIs(id: string)
    ensures Containers(OnePod(id)) == [ContainerRef("main", "x", "a:1", id)] && HasUniqueNames(OnePod(id))
    ensures StateOf(OnePod(id)) == map[K := Value("Running", "a:1", id)]
    ensures Puts(OnePod(id), Containers(OnePod(id))) == [Put(K, Value("Running", "a:1", id))]
    ensures InitialFacts([OnePod(id)]) == [Put(K, Value("Running", "a:1", id))]
    ensures Snapshots.ContainerKeys([OnePod(id)]) == [TEXT] && Snapshots.KeyText(K) == TEXT
  {
    var p := OnePod(id);
    assert Containers(p) == [ContainerRef("main", "x", "a:1", id)];
    PutAllKeys(map[], p, Containers(p));
    PutAllGives(map[], p, Containers(p), 0);
    assert KeysOf(p, Containers(p)) == {K};
    assert InitialFacts([p][..0]) == [];
    assert Snapshots.ContainerKeys([p][..0]) == [];
    assert Snapshots.KeyText(K) == "u" + "/" + "x" == TEXT;
    assert KeyOf(p, Containers(p)[0]) == K;
    assert Snapshots.KeysOfPod(p) == [TEXT];
  }

  lemma OneStep(s: State, es: seq<Event>, e: Event)
    requires IsRun(s, es) && Enabled(After(s, es), e)
    ensures IsRun(s, es + [e]) && After(s, es + [e]) == Next(After(s, es), e)
  {
    assert (es + [e])[..|es + [e]| - 1] == es;
  }

  /** One pod exists, its ADD was dropped before the gate, and it is listed; its INITIAL line is not out. */
  function ListedOne(id: string): (s: State) {
    var store := map["u" := OnePod(id)];
    State(store, [], true, [], [Snapshot(store, [TEXT], [Put(K, Value("Running", "a:1", id))], false)], 0,
          [], map[], map[])
  }

  lemma ReachListedOne(id: string) returns (es: seq<Event>)
    ensures IsRun(Init(map[]), es) && ChangesKeepContainers(es) && After(Init(map[]), es) == ListedOne(id)
  {
    OnePodIs(id);
    var p, s := OnePod(id), Init(map[]);
    var n := Note("u", None, Some(p));
    OneStep(s, [], Change(n));
    var s1 := s.(store := map["u" := p], queue := [n]);
    OneStep(s, [] + [Change(n)], Deliver);
    var s2 := s1.(queue := []);
    assert Delivered(s1) == s2;
    OneStep(s, [] + [Change(n)] + [Deliver], OpenGate);
    ListingOfOne(p);
    OneStep(s, [] + [Change(n)] + [Deliver] + [OpenGate], List([p]));
    es := [] + [Change(n)] + [Deliver] + [OpenGate] + [List([p])];
  }

  lemma ListingOfOne(p: Pod)
    ensures IsListing([p], map[p.uid := p])
  {
    assert [p][0].uid == p.uid;
  }

  const STALE := Value("Running", "a:1", "")

  /** A change commits, and its line overtakes the INITIAL line: first the change, ... */
  function Changed1(n: Note): (s: State) {
    ListedOne("").(store := Commit(map["u" := OnePod("")], n), queue := [n])
  }

  /** ... then the delivery, ... */
  function Delivered1(n: Note, f: Fact): (s: State) {
    Changed1(n).(queue := [], live := [f])
  }

  /** ... its line, ... */
  function Written1(n: Note, f: Fact): (s: State) {
    Delivered1(n, f).(live := [], out := [Said(f)], view := Learn(map[], f), last := map[K := Live])
  }

  /** ... the INITIAL line ... */
  function Overtaken(n: Note, f: Fact): (s: State) {
    Written1(n, f).(snapshots := [Snapshot(map["u" := OnePod("")], [TEXT], [], false)],
                    out := [Said(f), Said(Put(K, STALE))], view := map[K := STALE], last := map[K := Initial(0)])
  }

  /** ... and last the key list, which names the container. */
  function Closed(n: Note, f: Fact): (s: State) {
    Overtaken(n, f).(snapshots := [Snapshot(map["u" := OnePod("")], [TEXT], [], true)],
                     out := [Said(f), Said(Put(K, STALE)), KeyList([TEXT])])
  }

  lemma LiveLineStep(n: Note, f: Fact)
    requires NoteFacts(n) == [f] && f.k == K
    ensures Delivered(Changed1(n)) == Delivered1(n, f)
    ensures LiveWritten(Delivered1(n, f)) == Written1(n, f)
  {
    assert [f][1..] == [] && [n][1..] == [] && [] + [Said(f)] == [Said(f)];
  }

  lemma InitialLineStep(n: Note, f: Fact)
    requires f.k == K
    ensures InitialWritten(Written1(n, f), 0) == Overtaken(n, f)
  {
    assert [Put(K, STALE)][1..] == [];
    assert [Said(f)] + [Said(Put(K, STALE))] == [Said(f), Said(Put(K, STALE))];
    assert Learn(Learn(map[], f), Put(K, STALE)) == map[K := STALE];
  }

  lemma KeyListStep(n: Note, f: Fact)
    ensures KeysWritten(Overtaken(n, f), 0) == Closed(n, f)
  {
    assert [Said(f), Said(Put(K, STALE))] + [KeyList([TEXT])] == [Said(f), Said(Put(K, STALE)), KeyList([TEXT])];
    assert Snapshots.KeyText(K) == "u" + "/" + "x" == TEXT;
    assert LastAfterKeys(Overtaken(n, f), 0, [TEXT]) == map[K := Initial(0)];
    assert Snapshots.Pruned(map[K := STALE], [TEXT]) == map[K := STALE];
  }

  /** One more step of a run in which containers are kept. */
  lemma Step(es: seq<Event>, e: Event, s: State, t: State)
    requires IsRun(Init(map[]), es) && ChangesKeepContainers(es) && After(Init(map[]), es) == s
    requires Enabled(s, e) && Next(s, e) == t && (e.Change? ==> KeepsContainers(e.n))
    ensures IsRun(Init(map[]), es + [e]) && ChangesKeepContainers(es + [e]) && After(Init(map[]), es + [e]) == t
  {
    OneStep(Init(map[]), es, e);
  }

  lemma Overtake(n: Note, f: Fact) returns (es: seq<Event>)
    requires n.uid == "u" && n.before == Some(OnePod("")) && IsSound(n) && KeepsContainers(n)
    requires NoteFacts(n) == [f] && f.k == K
    ensures IsRun(Init(map[]), es) && ChangesKeepContainers(es) && After(Init(map[]), es) == Closed(n, f)
  {
    var es0 := ReachListedOne("");
    LiveLineStep(n, f);
    InitialLineStep(n, f);
    KeyListStep(n, f);
    Step(es0, Change(n), ListedOne(""), Changed1(n));
    var es1 := es0 + [Change(n)];
    Step(es1, Deliver, Changed1(n), Delivered1(n, f));
    Step(es1 + [Deliver], WriteLive, Delivered1(n, f), Written1(n, f));
    Step(es1 + [Deliver] + [WriteLive], WriteInitial(0), Written1(n, f), Overtaken(n, f));
    Step(es1 + [Deliver] + [WriteLive] + [WriteInitial(0)], WriteKeys(0), Overtaken(n, f), Closed(n, f));
    es := es1 + [Deliver] + [WriteLive] + [WriteInitial(0)] + [WriteKeys(0)];
  }

  /** An image that is resolved between the listing and the INITIAL line is overwritten with the stale,
      listed value, and stays so: no further event is due. */
  lemma StaleInitialWins() returns (es: seq<Event>)
    ensures IsRun(Init(map[]), es) && ChangesKeepContainers(es) && IsQuiet(After(Init(map[]), es))
    ensures var s := After(Init(map[]), es);
      Final(s, K) == Some(Value("Running", "a:1", "sha")) && Seen(s.view, K) == Some(STALE)
  {
    OnePodIs("sha");
    ResolvedIsEmitted();
    es := Overtake(Note("u", Some(OnePod("")), Some(OnePod("sha"))), Put(K, Value("Running", "a:1", "sha")));
  }

  lemma ResolvedIsEmitted()
    ensures var n := Note("u", Some(OnePod("")), Some(OnePod("sha")));
      IsSound(n) && KeepsContainers(n) && NoteFacts(n) == [Put(K, Value("Running", "a:1", "sha"))]
  {
    OnePodIs("");
    OnePodIs("sha");
    var was, p := OnePod(""), OnePod("sha");
    assert !SameImageIDs(was.statuses, p.statuses) by {
      assert StatusImageID(p.statuses, "x") == "sha";
    }
    var c := Containers(p)[0];
    assert MapKey(c) == "main/x";
    ChangedOfOne(c, Containers(was)[0]);
    assert [c] == Containers(p) && [Containers(was)[0]] == Containers(was);
    assert KeyOf(p, c) == K;
    assert PodKeys(was) == PodKeys(p) == {K};
  }

  lemma ChangedOfOne(c: ContainerRef, was: ContainerRef)
    requires c.id != was.id && MapKey(c) == MapKey(was)
    ensures Changed([c], ByKey([was])) == [c]
  {
    assert ByKey([was][..0]) == map[];
    assert ByKey([was]) == map[MapKey(was) := was];
    assert Changed([c][..0], ByKey([was])) == [];
  }

  /** A pod deleted between the listing and its INITIAL line is brought back by that line. */
  lemma DeletedPodIsResurrected() returns (es: seq<Event>)
    ensures IsRun(Init(map[]), es) && ChangesKeepContainers(es) && IsQuiet(After(Init(map[]), es))
    ensures var s := After(Init(map[]), es);
      s.store == map[] && Final(s, K) == None && Seen(s.view, K) == Some(STALE)
  {
    OnePodIs("");
    var n := Note("u", Some(OnePod("")), None);
    assert NoteFacts(n) == [Gone(K)];
    es := Overtake(n, Gone(K));
    assert Commit(map["u" := OnePod("")], n) == map[];
  }

  // ---- a pod that arrives during the snapshot -----------------------------------------------------

  const LIVE := Value("Running", "a:1", "sha")

  function Added(): (n: Note) {
    Note("u", None, Some(OnePod("sha")))
  }

  /** The gate is open. */
  function Opened(): (s: State) {
    Init(map[]).(open := true)
  }

  /** A snapshot of the empty cluster. */
  function Empty(closed: bool): (sn: Snapshot) {
    Snapshot(map[], [], [], closed)
  }

  /** The empty cluster has been listed, after other snapshots of it; so far the consumer has read `out`. */
  function EmptyListed(before: seq<Snapshot>, out: seq<Line>): (s: State) {
    Opened().(snapshots := before + [Empty(false)], out := out)
  }

  /** A pod is added, ... */
  function Arrived(before: seq<Snapshot>, out: seq<Line>): (s: State) {
    EmptyListed(before, out).(store := map["u" := OnePod("sha")], queue := [Added()])
  }

  /** ... its ADD is delivered ... */
  function Announced(before: seq<Snapshot>, out: seq<Line>): (s: State) {
    Arrived(before, out).(queue := [], live := [Put(K, LIVE)])
  }

  /** ... and written. */
  function Stored(before: seq<Snapshot>, out: seq<Line>): (s: State) {
    Announced(before, out).(live := [], out := out + [Said(Put(K, LIVE))], view := map[K := LIVE],
                            last := map[K := Live])
  }

  lemma ArrivalSteps(before: seq<Snapshot>, out: seq<Line>)
    ensures IsSound(Added()) && KeepsContainers(Added())
    ensures Next(EmptyListed(before, out), Change(Added())) == Arrived(before, out)
    ensures Delivered(Arrived(before, out)) == Announced(before, out)
    ensures LiveWritten(Announced(before, out)) == Stored(before, out)
  {
    OnePodIs("sha");
    assert [Put(K, LIVE)][1..] == [] && [Added()][1..] == [] && [] + [Added()] == [Added()];
  }

  lemma Arrive(es: seq<Event>, before: seq<Snapshot>, out: seq<Line>) returns (fs: seq<Event>)
    requires IsRun(Init(map[]), es) && ChangesKeepContainers(es) && After(Init(map[]), es) == EmptyListed(before, out)
    ensures IsRun(Init(map[]), fs) && ChangesKeepContainers(fs) && After(Init(map[]), fs) == Stored(before, out)
  {
    ArrivalSteps(before, out);
    Step(es, Change(Added()), EmptyListed(before, out), Arrived(before, out));
    Step(es + [Change(Added())], Deliver, Arrived(before, out), Announced(before, out));
    Step(es + [Change(Added())] + [Deliver], WriteLive, Announced(before, out), Stored(before, out));
    fs := es + [Change(Added())] + [Deliver] + [WriteLive];
  }

  lemma ReachEmptyListed() returns (es: seq<Event>)
    ensures IsRun(Init(map[]), es) && ChangesKeepContainers(es) && After(Init(map[]), es) == EmptyListed([], [])
  {
    assert IsListing([], map[]);
    assert JustListed(Opened(), []) == EmptyListed([], []);
    Step([], OpenGate, Init(map[]), Opened());
    Step([] + [OpenGate], List([]), Opened(), EmptyListed([], []));
    es := [] + [OpenGate] + [List([])];
  }

  /** The key list of a snapshot of the empty cluster drops the container. */
  lemma DropsIt(s: State, i: nat)
    requires i < |s.snapshots| && s.snapshots[i] == Empty(false) && s.view == map[K := LIVE] && s.last.Keys == {K}
    ensures KeysWritten(s, i)
         == s.(snapshots := s.snapshots[i := Empty(true)], out := s.out + [KeyList([])], view := map[],
               last := map[K := Dropped(i)])
  {
    assert Snapshots.Pruned(map[K := LIVE], []) == map[];
    assert LastAfterKeys(s, i, []) == map[K := Dropped(i)];
  }

  /** A pod that is added after the listing, and whose ADD is written before the key list, is dropped by that
      list and stays unknown: no further event is due. */
  lemma AddedPodIsPruned() returns (es: seq<Event>)
    ensures IsRun(Init(map[]), es) && ChangesKeepContainers(es) && IsQuiet(After(Init(map[]), es))
    ensures var s := After(Init(map[]), es);
      && Said(Put(K, LIVE)) in s.out
      && Final(s, K) == Some(LIVE) && Seen(s.view, K) == None
  {
    OnePodIs("sha");
    var es0 := ReachEmptyListed();
    var es1 := Arrive(es0, [], []);
    DropsIt(Stored([], []), 0);
    Step(es1, WriteKeys(0), Stored([], []), KeysWritten(Stored([], []), 0));
    es := es1 + [WriteKeys(0)];
    assert Stored([], []).out == [Said(Put(K, LIVE))];
  }

  // ---- snapshots that overlap -----------------------------------------------------------------------

  const FIRST := [KeyList([])]

  /** The first snapshot is complete and a second has listed the empty cluster. */
  lemma ReachSecondListed() returns (es: seq<Event>)
    ensures IsRun(Init(map[]), es) && ChangesKeepContainers(es)
    ensures After(Init(map[]), es) == EmptyListed([Empty(true)], FIRST)
  {
    var es0 := ReachEmptyListed();
    var s := EmptyListed([], []);
    var t := Opened().(snapshots := [Empty(true)], out := FIRST);
    assert Snapshots.Pruned(map[], []) == map[] && LastAfterKeys(s, 0, []) == map[];
    assert KeysWritten(s, 0) == t;
    Step(es0, WriteKeys(0), s, t);
    assert IsListing([], map[]);
    assert JustListed(t, []) == EmptyListed([Empty(true)], FIRST);
    Step(es0 + [WriteKeys(0)], List([]), t, EmptyListed([Empty(true)], FIRST));
    es := es0 + [WriteKeys(0)] + [List([])];
  }

  /** The added pod is known, and a third snapshot has listed it ... */
  function ThirdListed(): (s: State) {
    var s := Stored([Empty(true)], FIRST);
    s.(snapshots := [Empty(true), Empty(false), Snapshot(s.store, [TEXT], [Put(K, LIVE)], false)])
  }

  /** ... and written it ... */
  function ThirdWritten(): (s: State) {
    var s := ThirdListed();
    s.(snapshots := [Empty(true), Empty(false), Snapshot(s.store, [TEXT], [], false)],
       out := s.out + [Said(Put(K, LIVE))], last := map[K := Initial(2)])
  }

  /** ... and is complete, while the second is still open. */
  function ThirdClosed(): (s: State) {
    var s := ThirdWritten();
    s.(snapshots := [Empty(true), Empty(false), Snapshot(s.store, [TEXT], [], true)], out := s.out + [KeyList([TEXT])])
  }

  lemma ThirdLists()
    ensures IsListing([OnePod("sha")], Stored([Empty(true)], FIRST).store)
    ensures JustListed(Stored([Empty(true)], FIRST), [OnePod("sha")]) == ThirdListed()
  {
    OnePodIs("sha");
    ListingOfOne(OnePod("sha"));
  }

  lemma ThirdWrites()
    ensures InitialWritten(ThirdListed(), 2) == ThirdWritten()
  {
    assert [Put(K, LIVE)][1..] == [];
  }

  lemma ThirdCloses()
    ensures KeysWritten(ThirdWritten(), 2) == ThirdClosed()
  {
    OnePodIs("sha");
    assert Snapshots.Pruned(map[K := LIVE], [TEXT]) == map[K := LIVE];
    assert LastAfterKeys(ThirdWritten(), 2, [TEXT]) == map[K := Initial(2)];
  }

  /** Even a pod that a newer snapshot has listed, written and named is dropped by the key list of an older
      one that is still under way. */
  lemma OlderListPrunes() returns (es: seq<Event>)
    ensures IsRun(Init(map[]), es) && ChangesKeepContainers(es) && IsQuiet(After(Init(map[]), es))
    ensures var s := After(Init(map[]), es);
      && |s.snapshots| == 3 && ListedValue(s.snapshots[2], K) == Some(LIVE)
      && Final(s, K) == Some(LIVE) && Seen(s.view, K) == None
  {
    OnePodIs("sha");
    var es0 := ReachSecondListed();
    var es1 := Arrive(es0, [Empty(true)], FIRST);
    ThirdLists();
    Step(es1, List([OnePod("sha")]), Stored([Empty(true)], FIRST), ThirdListed());
    var es2 := es1 + [List([OnePod("sha")])];
    ThirdWrites();
    Step(es2, WriteInitial(2), ThirdListed(), ThirdWritten());
    ThirdCloses();
    Step(es2 + [WriteInitial(2)], WriteKeys(2), ThirdWritten(), ThirdClosed());
    DropsIt(ThirdClosed(), 1);
    Step(es2 + [WriteInitial(2)] + [WriteKeys(2)], WriteKeys(1), ThirdClosed(), KeysWritten(ThirdClosed(), 1));
    es := es2 + [WriteInitial(2)] + [WriteKeys(2)] + [WriteKeys(1)];
  }
}
