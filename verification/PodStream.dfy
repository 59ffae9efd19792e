/** Replaying the records of a pod rebuilds its image and phase state (pod.go:158-223). */
module PodStream {
  import opened Common
  import opened Records
  import opened Pods
  import opened Suppression

  /** The identity of a container at the consumer, and what it knows about it. */
  datatype Key = Key(podUID: string, kind: string, name: string)
  datatype Value = Value(phase: string, spec: string, id: string)
  type View = map<Key, Value>

  /** The consumer keeps the latest record per key; a DELETE removes the key. */
  function Apply(view: View, r: ContainerRecord): (v: View) {
    match r
    case Upsert(_, _, _, _, _, _, _, _, _, _, _, _, _, _, _, _, _) =>
      view[Key(r.podUID, r.containerKind, r.container) := Value(r.podPhase, r.imageSpec, r.imageID)]
    case Delete(_, _, _, _, _, _, _, _) =>
      view - {Key(r.podUID, r.containerKind, r.container)}
  }

  function ApplyAll(view: View, rs: seq<ContainerRecord>): (v: View) {
    if rs == [] then view else Apply(ApplyAll(view, rs[..|rs| - 1]), rs[|rs| - 1])
  }

  function KeyOf(p: Pod, c: ContainerRef): (k: Key) {
    Key(p.uid, c.kind, c.name)
  }

  function ValueOf(p: Pod, c: ContainerRef): (v: Value) {
    Value(p.phase, c.spec, c.id)
  }

  function PutAll(view: View, p: Pod, refs: seq<ContainerRef>): (v: View) {
    if refs == [] then view
    else PutAll(view, p, refs[..|refs| - 1])[KeyOf(p, refs[|refs| - 1]) := ValueOf(p, refs[|refs| - 1])]
  }

  function KeysOf(p: Pod, refs: seq<ContainerRef>): (keys: set<Key>)
    ensures forall k :: k in keys <==> exists i :: 0 <= i < |refs| && KeyOf(p, refs[i]) == k
  {
    set i | 0 <= i < |refs| :: KeyOf(p, refs[i])
  }

  /** The pod's own state: one entry for each container. */
  function StateOf(p: Pod): (v: View) {
    PutAll(map[], p, Containers(p))
  }

  function PodKeys(p: Pod): (keys: set<Key>) {
    KeysOf(p, Containers(p))
  }

  /** What pod state p says about key k. */
  function ValueIn(p: Option<Pod>, k: Key): (v: Option<Value>) {
    if p.Some? && k in StateOf(p.value) then Some(StateOf(p.value)[k]) else None
  }

  function Seen(view: View, k: Key): (v: Option<Value>) {
    if k in view then Some(view[k]) else None
  }

  ghost predicate DistinctRefs(refs: seq<ContainerRef>) {
    forall i, j :: 0 <= i < j < |refs| ==> refs[i].kind != refs[j].kind || refs[i].name != refs[j].name
  }

  /** Container names are unique within each kind. */
  ghost predicate HasUniqueNames(p: Pod) {
    DistinctRefs(Containers(p))
  }

  /** The view holds the pod's phase, spec and image id for every container the pod has. */
  ghost predicate Covers(view: View, p: Pod) {
    forall i :: 0 <= i < |Containers(p)| ==>
      KeyOf(p, Containers(p)[i]) in view && view[KeyOf(p, Containers(p)[i])] == ValueOf(p, Containers(p)[i])
  }

  // ---- records and views --------------------------------------------------------------------------

  lemma {:induction false} UpsertsPut(view: View, event: string, p: Pod, owner: (string, string),
                                      refs: seq<ContainerRef>, before: EventID)
    ensures ApplyAll(view, UpsertRecords(event, p, owner, refs, before)) == PutAll(view, p, refs)
  {
    if refs != [] {
      var front, last := refs[..|refs| - 1], refs[|refs| - 1];
      UpsertsPut(view, event, p, owner, front, before);
      assert refs == front + [last];
      UpsertRecordsSnoc(event, p, owner, front, last, before);
      var rs := UpsertRecords(event, p, owner, refs, before);
      assert rs[..|rs| - 1] == UpsertRecords(event, p, owner, front, before);
    }
  }

  lemma {:induction false} PutAllKeeps(view: View, p: Pod, refs: seq<ContainerRef>, k: Key)
    requires k !in KeysOf(p, refs)
    ensures k in PutAll(view, p, refs) <==> k in view
    ensures k in view ==> PutAll(view, p, refs)[k] == view[k]
  {
    if refs != [] {
      PutAllKeeps(view, p, refs[..|refs| - 1], k);
    }
  }

  lemma {:induction false} PutAllGives(view: View, p: Pod, refs: seq<ContainerRef>, i: nat)
    requires DistinctRefs(refs) && i < |refs|
    ensures KeyOf(p, refs[i]) in PutAll(view, p, refs)
    ensures PutAll(view, p, refs)[KeyOf(p, refs[i])] == ValueOf(p, refs[i])
  {
    if i < |refs| - 1 {
      PutAllGives(view, p, refs[..|refs| - 1], i);
    }
  }

  lemma {:induction false} PutAllKeys(view: View, p: Pod, refs: seq<ContainerRef>)
    ensures PutAll(view, p, refs).Keys == view.Keys + KeysOf(p, refs)
  {
    if refs != [] {
      var front, last := refs[..|refs| - 1], refs[|refs| - 1];
      PutAllKeys(view, p, front);
      assert refs == front + [last];
      assert KeysOf(p, refs) == KeysOf(p, front) + {KeyOf(p, last)} by {
        assert refs[|front|] == last;
        assert forall i :: 0 <= i < |front| ==> refs[i] == front[i];
      }
    }
  }

  lemma ValueOfContainer(p: Pod, i: nat)
    requires HasUniqueNames(p) && i < |Containers(p)|
    ensures ValueIn(Some(p), KeyOf(p, Containers(p)[i])) == Some(ValueOf(p, Containers(p)[i]))
  {
    PutAllGives(map[], p, Containers(p), i);
  }

  lemma ValueKeys(p: Pod, k: Key)
    ensures ValueIn(Some(p), k).Some? <==> k in PodKeys(p)
  {
    PutAllKeys(map[], p, Containers(p));
  }

  lemma {:induction false} ChangedIsFilter(refs: seq<ContainerRef>, prev: map<string, ContainerRef>)
    ensures forall c :: c in Changed(refs, prev) <==> c in refs && !IsUnchanged(prev, c)
    ensures DistinctRefs(refs) ==> DistinctRefs(Changed(refs, prev))
  {
    if refs != [] {
      var front, last := refs[..|refs| - 1], refs[|refs| - 1];
      ChangedIsFilter(front, prev);
      assert refs == front + [last];
      if DistinctRefs(refs) {
        assert forall c :: c in front ==> c.kind != last.kind || c.name != last.name;
      }
    }
  }

  predicate IsKind(kind: string) {
    kind == "init" || kind == "main" || kind == "ephemeral"
  }

  lemma MapKeyIsInjective(c: ContainerRef, d: ContainerRef)
    requires IsKind(c.kind) && IsKind(d.kind) && MapKey(c) == MapKey(d)
    ensures c.kind == d.kind && c.name == d.name
  {
    assert MapKey(c)[0] == c.kind[0] && MapKey(d)[0] == d.kind[0];
    assert MapKey(c)[|c.kind| + 1..] == c.name && MapKey(d)[|d.kind| + 1..] == d.name;
  }

  lemma ContainerKinds(p: Pod, i: nat)
    requires i < |Containers(p)|
    ensures IsKind(Containers(p)[i].kind)
  {
  }

  /** What a container unchanged since `old` looked like there. */
  lemma UnchangedWasThere(p: Pod, was: Pod, i: nat)
    requires i < |Containers(p)| && IsUnchanged(ByKey(Containers(was)), Containers(p)[i])
    ensures Containers(p)[i] in Containers(was)
  {
    var c := Containers(p)[i];
    var q := ByKey(Containers(was))[MapKey(c)];
    var k :| 0 <= k < |Containers(was)| && Containers(was)[k] == q;
    ContainerKinds(p, i);
    ContainerKinds(was, k);
    MapKeyIsInjective(c, q);
    assert c == q;
  }

  lemma CoversEach(view: View, p: Pod, c: ContainerRef)
    requires Covers(view, p) && c in Containers(p)
    ensures KeyOf(p, c) in view && view[KeyOf(p, c)] == ValueOf(p, c)
  {
  }

  lemma AddCovers(view: View, p: Pod)
    requires HasUniqueNames(p)
    ensures Covers(PutAll(view, p, Containers(p)), p)
  {
    forall i | 0 <= i < |Containers(p)|
      ensures var k, v := KeyOf(p, Containers(p)[i]), PutAll(view, p, Containers(p));
              k in v && v[k] == ValueOf(p, Containers(p)[i])
    {
      PutAllGives(view, p, Containers(p), i);
    }
  }

  // ---- one update ---------------------------------------------------------------------------------

  /** The one way an update of a pod goes wrong: it is suppressed although a container that had no status
      before has a resolved image now. */
  predicate IsMasked(was: Pod, p: Pod) {
    SamePodImages(was, p) && HasLateStatus(was, p)
  }

  lemma ChangedCovers(view: View, was: Pod, p: Pod)
    requires was.uid == p.uid && was.phase == p.phase && HasUniqueNames(p) && Covers(view, was)
    ensures Covers(PutAll(view, p, Changed(Containers(p), ByKey(Containers(was)))), p)
  {
    var prev := ByKey(Containers(was));
    var refs := Changed(Containers(p), prev);
    ChangedIsFilter(Containers(p), prev);
    forall i | 0 <= i < |Containers(p)|
      ensures var k, v := KeyOf(p, Containers(p)[i]), PutAll(view, p, refs);
              k in v && v[k] == ValueOf(p, Containers(p)[i])
    {
      var c := Containers(p)[i];
      if IsUnchanged(prev, c) {
        UnchangedWasThere(p, was, i);
        CoversEach(view, was, c);
        NotReemitted(p, prev, i);
        PutAllKeeps(view, p, refs, KeyOf(p, c));
      } else {
        var j :| 0 <= j < |refs| && refs[j] == c;
        PutAllGives(view, p, refs, j);
      }
    }
  }

  lemma NotReemitted(p: Pod, prev: map<string, ContainerRef>, i: nat)
    requires HasUniqueNames(p) && i < |Containers(p)| && IsUnchanged(prev, Containers(p)[i])
    ensures KeyOf(p, Containers(p)[i]) !in KeysOf(p, Changed(Containers(p), prev))
  {
    var refs := Changed(Containers(p), prev);
    ChangedIsFilter(Containers(p), prev);
    forall j | 0 <= j < |refs| ensures KeyOf(p, refs[j]) != KeyOf(p, Containers(p)[i]) {
      assert refs[j] in refs;
      var k :| 0 <= k < |Containers(p)| && Containers(p)[k] == refs[j];
      assert k != i;
    }
  }

  lemma UpdateCovers(view: View, was: Pod, p: Pod)
    requires was.uid == p.uid && HasUniqueNames(p) && Covers(view, was) && !IsMasked(was, p)
    ensures Covers(PutAll(view, p, ToEmit(p, Some(was))), p)
  {
    if SamePodImages(was, p) {
      SuppressionIsSoundUnlessLate(was, p);
      assert forall c :: KeyOf(was, c) == KeyOf(p, c) && ValueOf(was, c) == ValueOf(p, c);
    } else if was.phase == p.phase {
      ChangedCovers(view, was, p);
    } else {
      AddCovers(view, p);
    }
  }

  lemma SameKeysByPosition(was: Pod, p: Pod, i: nat)
    requires SamePodImages(was, p) && i < |Containers(p)|
    ensures |Containers(was)| == |Containers(p)|
    ensures Containers(was)[i].kind == Containers(p)[i].kind && Containers(was)[i].name == Containers(p)[i].name
  {
  }

  lemma MaskedDoesNotCover(was: Pod, p: Pod)
    requires was.uid == p.uid && HasUniqueNames(was) && IsMasked(was, p)
    ensures Covers(StateOf(was), was) && !Covers(PutAll(StateOf(was), p, ToEmit(p, Some(was))), p)
  {
    AddCovers(map[], was);
    SuppressionIsSoundUnlessLate(was, p);
    assert |Containers(was)| == |Containers(p)|;
    var i :| 0 <= i < |Containers(p)| && Containers(was)[i] != Containers(p)[i];
    SameKeysByPosition(was, p, i);
    PutAllGives(map[], was, Containers(was), i);
  }

  /** An update leaves every correct view correct if and only if it is not masked. */
  lemma {:induction false} UpdateRebuilds(was: Pod, p: Pod, sets: ReplicaSets, before: EventID)
    requires was.uid == p.uid && HasUniqueNames(was) && HasUniqueNames(p)
    ensures (forall view: View :: Covers(view, was) ==>
               Covers(ApplyAll(view, PodRecords("UPDATE", p, Some(was), sets, before)), p))
            <==> !IsMasked(was, p)
  {
    var refs := ToEmit(p, Some(was));
    forall view: View
      ensures ApplyAll(view, PodRecords("UPDATE", p, Some(was), sets, before)) == PutAll(view, p, refs)
    {
      UpsertsPut(view, "UPDATE", p, Owner(p, sets), refs, before);
    }
    if IsMasked(was, p) {
      MaskedDoesNotCover(was, p);
    } else {
      forall view: View | Covers(view, was) ensures Covers(PutAll(view, p, refs), p) {
        UpdateCovers(view, was, p);
      }
    }
  }

  /** When the update's old pod is another incarnation of the same name, only an update that emits every
      container is enough. */
  predicate EmitsEverything(was: Pod, p: Pod) {
    || Containers(p) == []
    || (!SamePodImages(was, p) &&
        (was.phase != p.phase || forall c :: c in Containers(p) ==> !IsUnchanged(ByKey(Containers(was)), c)))
  }

  lemma {:induction false} NothingUnchanged(refs: seq<ContainerRef>, prev: map<string, ContainerRef>)
    requires forall c :: c in refs ==> !IsUnchanged(prev, c)
    ensures Changed(refs, prev) == refs
  {
    if refs != [] {
      NothingUnchanged(refs[..|refs| - 1], prev);
    }
  }

  lemma {:induction false} RecreationRebuilds(was: Pod, p: Pod, sets: ReplicaSets, before: EventID)
    requires was.uid != p.uid && HasUniqueNames(was) && HasUniqueNames(p)
    ensures (forall view: View :: Covers(view, was) ==>
               Covers(ApplyAll(view, PodRecords("UPDATE", p, Some(was), sets, before)), p))
            <==> EmitsEverything(was, p)
  {
    var refs := ToEmit(p, Some(was));
    forall view: View
      ensures ApplyAll(view, PodRecords("UPDATE", p, Some(was), sets, before)) == PutAll(view, p, refs)
    {
      UpsertsPut(view, "UPDATE", p, Owner(p, sets), refs, before);
    }
    if EmitsEverything(was, p) {
      if Containers(p) != [] && was.phase == p.phase {
        NothingUnchanged(Containers(p), ByKey(Containers(was)));
      }
      forall view: View | Covers(view, was) ensures Covers(PutAll(view, p, refs), p) {
        AddCovers(view, p);
      }
    } else {
      RecreationLeavesGap(was, p);
    }
  }

  lemma OtherIncarnationUnknown(was: Pod, p: Pod, c: ContainerRef)
    requires was.uid != p.uid
    ensures KeyOf(p, c) !in StateOf(was)
  {
    PutAllKeys(map[], was, Containers(was));
  }

  lemma SomethingUnemitted(was: Pod, p: Pod) returns (i: nat)
    requires HasUniqueNames(p) && !EmitsEverything(was, p)
    ensures i < |Containers(p)| && KeyOf(p, Containers(p)[i]) !in KeysOf(p, ToEmit(p, Some(was)))
  {
    if SamePodImages(was, p) {
      i := 0;
    } else {
      var prev := ByKey(Containers(was));
      var c :| c in Containers(p) && IsUnchanged(prev, c);
      i :| 0 <= i < |Containers(p)| && Containers(p)[i] == c;
      NotReemitted(p, prev, i);
    }
  }

  lemma RecreationLeavesGap(was: Pod, p: Pod)
    requires was.uid != p.uid && HasUniqueNames(was) && HasUniqueNames(p) && !EmitsEverything(was, p)
    ensures Covers(StateOf(was), was) && !Covers(PutAll(StateOf(was), p, ToEmit(p, Some(was))), p)
  {
    AddCovers(map[], was);
    var i := SomethingUnemitted(was, p);
    OtherIncarnationUnknown(was, p, Containers(p)[i]);
    PutAllKeeps(StateOf(was), p, ToEmit(p, Some(was)), KeyOf(p, Containers(p)[i]));
  }

  // ---- a pod's whole life -------------------------------------------------------------------------

  /** One handler call: the pod it was given, and the lister and id counter at that moment. */
  datatype Call = Call(p: Pod, sets: ReplicaSets, before: EventID)

  function RecordsOf(history: seq<Call>): (rs: seq<ContainerRecord>)
    requires history != []
  {
    var n := |history| - 1;
    if n == 0 then PodRecords("ADD", history[0].p, None, history[0].sets, history[0].before)
    else PodRecords("UPDATE", history[n].p, Some(history[n - 1].p), history[n].sets, history[n].before)
  }

  /** The view after an ADD of the first pod and an UPDATE for each further one. */
  function Replay(view: View, history: seq<Call>): (v: View) {
    if history == [] then view
    else ApplyAll(Replay(view, history[..|history| - 1]), RecordsOf(history))
  }

  ghost predicate IsPodHistory(history: seq<Call>) {
    && history != []
    && (forall i :: 0 <= i < |history| ==> HasUniqueNames(history[i].p) && history[i].p.uid == history[0].p.uid)
    && (forall i :: 0 < i < |history| ==> !IsMasked(history[i - 1].p, history[i].p))
  }

  function EverKeys(history: seq<Call>): (keys: set<Key>) {
    if history == [] then {} else EverKeys(history[..|history| - 1]) + PodKeys(history[|history| - 1].p)
  }

  /** What the last handler call of a history put into the view. */
  lemma LastCallPuts(view: View, history: seq<Call>)
    requires history != []
    ensures var n := |history| - 1;
      var refs := ToEmit(history[n].p, if n == 0 then None else Some(history[n - 1].p));
      && Replay(view, history) == PutAll(Replay(view, history[..n]), history[n].p, refs)
      && KeysOf(history[n].p, refs) <= PodKeys(history[n].p)
  {
    var n := |history| - 1;
    var p, was := history[n].p, if n == 0 then None else Some(history[n - 1].p);
    UpsertsPut(Replay(view, history[..n]), if n == 0 then "ADD" else "UPDATE", p, Owner(p, history[n].sets),
               ToEmit(p, was), history[n].before);
    EmitsOwnKeys(p, was);
  }

  lemma EmitsOwnKeys(p: Pod, was: Option<Pod>)
    ensures KeysOf(p, ToEmit(p, was)) <= PodKeys(p)
  {
    if was.Some? && !SamePodImages(was.value, p) && was.value.phase == p.phase {
      var refs := ToEmit(p, was);
      ChangedIsFilter(Containers(p), ByKey(Containers(was.value)));
      forall i | 0 <= i < |refs| ensures KeyOf(p, refs[i]) in PodKeys(p) {
        assert refs[i] in refs;
      }
    }
  }

  lemma HistoryPrefix(history: seq<Call>)
    requires IsPodHistory(history) && |history| > 1
    ensures IsPodHistory(history[..|history| - 1])
  {
  }

  lemma LastCallCovers(view: View, history: seq<Call>)
    requires IsPodHistory(history)
    requires |history| > 1 ==> Covers(Replay(view, history[..|history| - 1]), history[|history| - 2].p)
    ensures Covers(Replay(view, history), history[|history| - 1].p)
  {
    var n := |history| - 1;
    LastCallPuts(view, history);
    if n == 0 {
      AddCovers(view, history[n].p);
    } else {
      UpdateCovers(Replay(view, history[..n]), history[n - 1].p, history[n].p);
    }
  }

  lemma LastCallKeys(view: View, history: seq<Call>)
    requires history != [] && Covers(Replay(view, history), history[|history| - 1].p)
    ensures Replay(view, history).Keys
         == Replay(view, history[..|history| - 1]).Keys + PodKeys(history[|history| - 1].p)
  {
    var n := |history| - 1;
    LastCallPuts(view, history);
    PutAllKeys(Replay(view, history[..n]), history[n].p,
               ToEmit(history[n].p, if n == 0 then None else Some(history[n - 1].p)));
    CoveredKeys(Replay(view, history), history[n].p);
  }

  /** Replaying a pod's ADD and UPDATEs gives the latest pod's phase, spec and image id for every container it
      has, whether updates were suppressed, partial or forced by a phase change; keys seen are exactly the
      containers the pod ever had. */
  lemma {:induction false} ReplayRebuildsPod(view: View, history: seq<Call>)
    requires IsPodHistory(history)
    ensures Covers(Replay(view, history), history[|history| - 1].p)
    ensures Replay(view, history).Keys == view.Keys + EverKeys(history)
  {
    if |history| > 1 {
      HistoryPrefix(history);
      ReplayRebuildsPod(view, history[..|history| - 1]);
    }
    LastCallCovers(view, history);
    LastCallKeys(view, history);
  }

  lemma CoveredKeys(view: View, p: Pod)
    requires Covers(view, p)
    ensures PodKeys(p) <= view.Keys
  {
  }

  /** The part of the view about one pod. */
  function About(view: View, uid: string): (v: View) {
    map k | k in view && k.podUID == uid :: view[k]
  }

  lemma KeysCarryUID(history: seq<Call>)
    requires IsPodHistory(history)
    ensures forall k :: k in EverKeys(history) ==> k.podUID == history[0].p.uid
    ensures PodKeys(history[|history| - 1].p) <= EverKeys(history)
    decreases |history|
  {
    if |history| > 1 {
      KeysCarryUID(history[..|history| - 1]);
    }
  }

  lemma CoversMeansState(view: View, p: Pod)
    requires HasUniqueNames(p) && Covers(view, p)
    ensures StateOf(p).Keys == PodKeys(p) <= view.Keys
    ensures forall k :: k in StateOf(p) ==> view[k] == StateOf(p)[k]
  {
    PutAllKeys(map[], p, Containers(p));
    AddCovers(map[], p);
    forall k | k in StateOf(p) ensures k in view && view[k] == StateOf(p)[k] {
      var i :| 0 <= i < |Containers(p)| && KeyOf(p, Containers(p)[i]) == k;
    }
  }

  /** For a pod new to the consumer, the replayed part about it is exactly the pod's state if and only if no
      container was ever removed from the pod. */
  lemma {:induction false} ReplayIsExact(view: View, history: seq<Call>)
    requires IsPodHistory(history)
    requires forall k :: k in view ==> k.podUID != history[0].p.uid
    ensures var p := history[|history| - 1].p;
      About(Replay(view, history), p.uid) == StateOf(p) <==> EverKeys(history) == PodKeys(p)
  {
    var p := history[|history| - 1].p;
    ReplayRebuildsPod(view, history);
    KeysCarryUID(history);
    CoversMeansState(Replay(view, history), p);
    assert p.uid == history[0].p.uid;
    PartIsExact(view, Replay(view, history), p.uid, EverKeys(history), StateOf(p));
  }

  lemma PartIsExact(view: View, end: View, uid: string, ever: set<Key>, state: View)
    requires end.Keys == view.Keys + ever && state.Keys <= ever
    requires forall k :: k in view ==> k.podUID != uid
    requires forall k :: k in ever ==> k.podUID == uid
    requires forall k :: k in state ==> end[k] == state[k]
    ensures About(end, uid) == state <==> ever == state.Keys
  {
    assert About(end, uid).Keys == ever;
  }

  // ---- deletion -----------------------------------------------------------------------------------

  lemma {:induction false} DeletesRemove(view: View, p: Pod, owner: (string, string), refs: seq<ContainerRef>,
                                         before: EventID)
    ensures ApplyAll(view, DeleteRecordsOf(p, owner, refs, before)) == view - KeysOf(p, refs)
  {
    if refs == [] {
      assert view - KeysOf(p, refs) == view;
    } else {
      var front, last := refs[..|refs| - 1], refs[|refs| - 1];
      DeletesRemove(view, p, owner, front, before);
      assert refs == front + [last];
      DeleteRecordsSnoc(p, owner, front, last, before);
      var rs := DeleteRecordsOf(p, owner, refs, before);
      assert rs[..|rs| - 1] == DeleteRecordsOf(p, owner, front, before);
      assert KeysOf(p, refs) == KeysOf(p, front) + {KeyOf(p, last)} by {
        assert refs[|front|] == last;
        assert forall i :: 0 <= i < |front| ==> refs[i] == front[i];
      }
    }
  }

  /** After the pod's DELETE records, the view holds nothing about it beyond containers that had been removed
      from the pod earlier; everything about other pods is as before. */
  lemma {:induction false} LifeLeavesNothing(view: View, history: seq<Call>, sets: ReplicaSets, before: EventID)
    requires IsPodHistory(history)
    requires forall k :: k in view ==> k.podUID != history[0].p.uid
    ensures var p := history[|history| - 1].p;
      var end := ApplyAll(Replay(view, history), DeleteRecords(p, sets, before));
      && About(end, p.uid).Keys == EverKeys(history) - PodKeys(p)
      && (forall k :: k in view ==> k in end && end[k] == view[k])
  {
    var p := history[|history| - 1].p;
    ReplayRebuildsPod(view, history);
    KeysCarryUID(history);
    DeletesRemove(Replay(view, history), p, Owner(p, sets), Containers(p), before);
    forall k | k in view ensures k in Replay(view, history) && Replay(view, history)[k] == view[k] {
      ReplayKeepsOthers(view, history, k);
    }
  }

  lemma {:induction false} ReplayKeepsOthers(view: View, history: seq<Call>, k: Key)
    requires k in view && k !in EverKeys(history)
    ensures k in Replay(view, history) && Replay(view, history)[k] == view[k]
  {
    if history != [] {
      var n := |history| - 1;
      ReplayKeepsOthers(view, history[..n], k);
      LastCallPuts(view, history);
      PutAllKeeps(Replay(view, history[..n]), history[n].p,
                  ToEmit(history[n].p, if n == 0 then None else Some(history[n - 1].p)), k);
    }
  }

  // ---- concrete failures --------------------------------------------------------------------------

  function ExamplePod(uid: string, statuses: seq<Status>): (p: Pod) {
    Pod("ns", "pod", uid, "Running", map[], [], [], [Container("x", "a:1"), Container("y", "b:1")], [],
        [], statuses, [])
  }

  /** A masked update: the status moves from container x, without an image, to container y, with one. */
  lemma MaskedExample()
    ensures var was, p := ExamplePod("u", [Status("x", "")]), ExamplePod("u", [Status("y", "sha")]);
      && HasUniqueNames(was) && HasUniqueNames(p) && IsMasked(was, p)
      && ToEmit(p, Some(was)) == [] && !Covers(StateOf(was), p)
  {
    var was, p := ExamplePod("u", [Status("x", "")]), ExamplePod("u", [Status("y", "sha")]);
    assert Containers(was) == [ContainerRef("main", "x", "a:1", ""), ContainerRef("main", "y", "b:1", "")];
    assert StatusImageID([Status("y", "sha")], "x") == "";
    assert Containers(p) == [ContainerRef("main", "x", "a:1", ""), ContainerRef("main", "y", "b:1", "sha")];
    assert p.containers[1].name == "y" && !HasStatus(was.statuses, "y");
    assert IsLate(p.containers, was.statuses, p.statuses);
    MaskedDoesNotCover(was, p);
  }

  /** A recreated pod that looks the same is never announced under its new uid. */
  lemma RecreationExample()
    ensures var was, p := ExamplePod("u1", []), ExamplePod("u2", []);
      && HasUniqueNames(was) && HasUniqueNames(p) && was.uid != p.uid
      && ToEmit(p, Some(was)) == [] && !Covers(StateOf(was), p)
  {
    var was, p := ExamplePod("u1", []), ExamplePod("u2", []);
    assert Containers(p)[0] == ContainerRef("main", "x", "a:1", "");
    RecreationLeavesGap(was, p);
  }
}
