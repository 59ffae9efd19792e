/** What one full snapshot makes of a consumer's inventory (snapshot.go:71-108, 170-244). */
module SnapshotRepair {
  import opened Common
  import opened Images
  import opened Pods
  import opened PodStream
  import opened Ordering
  import opened Snapshots

  /** The consumer's containers, and its other objects by kind and uid. */
  datatype Inventory = Inventory(containers: View, objects: map<(string, string), Obj>)

  /** INITIAL records are stored; a key list removes everything else of its kind. */
  function Store(inv: Inventory, r: Rec): (t: Inventory) {
    match r
    case InitialContainer(k, v) => inv.(containers := inv.containers[k := v])
    case InitialObject(kind, o) => inv.(objects := inv.objects[(kind, o.uid) := o])
    case Keys(_, "Container", keys) => inv.(containers := Pruned(inv.containers, keys))
    case Keys(_, kind, keys) =>
      inv.(objects := map e | e in inv.objects && (e.0 != kind || e.1 in keys) :: inv.objects[e])
    case _ => inv
  }

  function StoreAll(inv: Inventory, rs: seq<Rec>): (t: Inventory) {
    if rs == [] then inv else Store(StoreAll(inv, rs[..|rs| - 1]), rs[|rs| - 1])
  }

  lemma {:induction false} StoreConcat(inv: Inventory, a: seq<Rec>, b: seq<Rec>)
    ensures StoreAll(inv, a + b) == StoreAll(StoreAll(inv, a), b)
  {
    if b == [] {
      assert a + b == a;
    } else {
      assert (a + b)[..|a + b| - 1] == a + b[..|b| - 1];
      StoreConcat(inv, a, b[..|b| - 1]);
    }
  }

  lemma StoreOne(inv: Inventory, rs: seq<Rec>, r: Rec)
    ensures StoreAll(inv, rs + [r]) == Store(StoreAll(inv, rs), r)
  {
    assert (rs + [r])[..|rs|] == rs;
  }

  function Known(inv: Inventory, kind: string, uid: string): (o: Option<Obj>) {
    if (kind, uid) in inv.objects then Some(inv.objects[(kind, uid)]) else None
  }

  // ---- one kind of object -------------------------------------------------------------------------

  ghost predicate DistinctUIDs(objs: seq<Obj>) {
    forall i, j :: 0 <= i < j < |objs| ==> objs[i].uid != objs[j].uid
  }

  /** What a list says about a uid. */
  function Find(objs: seq<Obj>, uid: string): (o: Option<Obj>) {
    if objs == [] then None
    else if objs[|objs| - 1].uid == uid then Some(objs[|objs| - 1])
    else Find(objs[..|objs| - 1], uid)
  }

  lemma {:induction false} FindIsMembership(objs: seq<Obj>, uid: string)
    ensures Find(objs, uid).Some? ==> Find(objs, uid).value in objs && Find(objs, uid).value.uid == uid
    ensures Find(objs, uid) == None ==> forall o :: o in objs ==> o.uid != uid
  {
    if objs != [] {
      FindIsMembership(objs[..|objs| - 1], uid);
      assert objs == objs[..|objs| - 1] + [objs[|objs| - 1]];
    }
  }

  /** A rearrangement says the same about every uid. */
  lemma FindIgnoresOrder(objs: seq<Obj>, sorted: seq<Obj>, uid: string)
    requires multiset(sorted) == multiset(objs) && DistinctUIDs(objs)
    ensures Find(sorted, uid) == Find(objs, uid)
  {
    FindIsMembership(objs, uid);
    FindIsMembership(sorted, uid);
    if Find(objs, uid).Some? {
      MemberOfPermutation(sorted, objs, Find(objs, uid).value);
    }
    if Find(sorted, uid).Some? {
      MemberOfPermutation(sorted, objs, Find(sorted, uid).value);
    }
  }

  lemma {:induction false} UIDsListed(objs: seq<Obj>, uid: string)
    ensures uid in UIDKeys(objs) <==> Find(objs, uid).Some?
  {
    if objs != [] {
      UIDsListed(objs[..|objs| - 1], uid);
      var front := UIDKeys(objs[..|objs| - 1]);
      assert UIDKeys(objs) == front + [objs[|objs| - 1].uid];
    }
  }

  lemma {:induction false} InitialsAreStored(inv: Inventory, kind: string, objs: seq<Obj>, k: string, uid: string)
    ensures var t := StoreAll(inv, ObjectsRendered(kind, objs));
      && t.containers == inv.containers
      && Known(t, k, uid) == if k == kind && Find(objs, uid).Some? then Find(objs, uid) else Known(inv, k, uid)
  {
    if objs != [] {
      var front, last := objs[..|objs| - 1], objs[|objs| - 1];
      InitialsAreStored(inv, kind, front, k, uid);
      assert ObjectsRendered(kind, objs) == ObjectsRendered(kind, front) + [InitialObject(kind, last)];
      StoreOne(inv, ObjectsRendered(kind, front), InitialObject(kind, last));
    }
  }

  /** What the key list at the end of a section leaves of its own and of other kinds. */
  lemma KeysKeep(inv: Inventory, id: string, kind: string, keys: seq<string>, k: string, uid: string)
    requires kind != "Container"
    ensures var t := Store(inv, Keys(id, kind, keys));
      && t.containers == inv.containers
      && Known(t, k, uid) == if k == kind && uid !in keys then None else Known(inv, k, uid)
  {
  }

  lemma StoreSection(inv: Inventory, initials: seq<Rec>, count: Rec, keys: Rec)
    requires count.Counted?
    ensures StoreAll(inv, initials + [count] + [keys]) == Store(StoreAll(inv, initials), keys)
  {
    StoreOne(inv, initials, count);
    StoreOne(inv, initials + [count], keys);
  }

  /** A kind's section replaces exactly that kind by what was listed; a failed listing changes nothing. */
  lemma SectionReplacesKind(inv: Inventory, kind: string, listing: Listing<Obj>, id: string, k: string, uid: string)
    requires kind != "Container" && (listing.Listed? ==> DistinctUIDs(listing.items))
    ensures var t := StoreAll(inv, ObjectSection(kind, listing, id));
      && t.containers == inv.containers
      && Known(t, k, uid) == if k == kind && listing.Listed? then Find(listing.items, uid) else Known(inv, k, uid)
  {
    if listing.Failed? {
      StoreOne(inv, [], ListError(kind));
      assert [] + [ListError(kind)] == [ListError(kind)];
    } else {
      var objs := SortBy(listing.items, LessOf(kind));
      SortPermutes(listing.items, LessOf(kind));
      var initials := ObjectsRendered(kind, objs);
      StoreSection(inv, initials, Counted(kind, |objs|, |initials|), Keys(id, kind, UIDKeys(objs)));
      InitialsAreStored(inv, kind, objs, k, uid);
      KeysKeep(StoreAll(inv, initials), id, kind, UIDKeys(objs), k, uid);
      FindIgnoresOrder(listing.items, objs, uid);
      UIDsListed(objs, uid);
    }
  }

  // ---- containers ---------------------------------------------------------------------------------

  ghost predicate DistinctPods(pods: seq<Pod>) {
    forall i, j :: 0 <= i < j < |pods| ==> pods[i].uid != pods[j].uid
  }

  ghost predicate GoodPods(pods: seq<Pod>) {
    (forall i :: 0 <= i < |pods| ==> HasUniqueNames(pods[i])) && DistinctPods(pods)
  }

  function FindPod(pods: seq<Pod>, uid: string): (p: Option<Pod>) {
    if pods == [] then None
    else if pods[|pods| - 1].uid == uid then Some(pods[|pods| - 1])
    else FindPod(pods[..|pods| - 1], uid)
  }

  lemma {:induction false} FindPodIsMembership(pods: seq<Pod>, uid: string)
    ensures FindPod(pods, uid).Some? ==> FindPod(pods, uid).value in pods && FindPod(pods, uid).value.uid == uid
    ensures FindPod(pods, uid) == None ==> forall p :: p in pods ==> p.uid != uid
  {
    if pods != [] {
      FindPodIsMembership(pods[..|pods| - 1], uid);
      assert pods == pods[..|pods| - 1] + [pods[|pods| - 1]];
    }
  }

  lemma FindPodIgnoresOrder(pods: seq<Pod>, sorted: seq<Pod>, uid: string)
    requires multiset(sorted) == multiset(pods) && GoodPods(pods)
    ensures FindPod(sorted, uid) == FindPod(pods, uid)
  {
    FindPodIsMembership(pods, uid);
    FindPodIsMembership(sorted, uid);
    if FindPod(pods, uid).Some? {
      MemberOfPermutation(sorted, pods, FindPod(pods, uid).value);
    }
    if FindPod(sorted, uid).Some? {
      MemberOfPermutation(sorted, pods, FindPod(sorted, uid).value);
    }
  }

  /** What the listed pods say about a container. */
  function ListedAs(pods: seq<Pod>, k: Key): (v: Option<Value>) {
    ValueIn(FindPod(pods, k.podUID), k)
  }

  lemma {:induction false} InitialsOfPodPut(inv: Inventory, p: Pod, n: nat)
    requires n <= |Containers(p)|
    ensures StoreAll(inv, InitialsOf(p)[..n]) == inv.(containers := PutAll(inv.containers, p, Containers(p)[..n]))
  {
    if n > 0 {
      InitialsOfPodPut(inv, p, n - 1);
      var c := Containers(p)[n - 1];
      assert InitialsOf(p)[..n] == InitialsOf(p)[..n - 1] + [InitialContainer(KeyOf(p, c), ValueOf(p, c))];
      StoreOne(inv, InitialsOf(p)[..n - 1], InitialContainer(KeyOf(p, c), ValueOf(p, c)));
      assert Containers(p)[..n][..n - 1] == Containers(p)[..n - 1];
    }
  }

  lemma PodIsStored(inv: Inventory, p: Pod, k: Key)
    requires HasUniqueNames(p)
    ensures var t := StoreAll(inv, InitialsOf(p));
      && t.objects == inv.objects
      && Seen(t.containers, k) == if ValueIn(Some(p), k).Some? then ValueIn(Some(p), k) else Seen(inv.containers, k)
  {
    var n := |Containers(p)|;
    InitialsOfPodPut(inv, p, n);
    assert InitialsOf(p)[..n] == InitialsOf(p) && Containers(p)[..n] == Containers(p);
    ValueKeys(p, k);
    if k in PodKeys(p) {
      var i :| 0 <= i < n && KeyOf(p, Containers(p)[i]) == k;
      ValueOfContainer(p, i);
      PutAllGives(inv.containers, p, Containers(p), i);
    } else {
      PutAllKeeps(inv.containers, p, Containers(p), k);
    }
  }

  lemma {:induction false} PodsAreStored(inv: Inventory, pods: seq<Pod>, k: Key)
    requires GoodPods(pods)
    ensures var t := StoreAll(inv, PodsRendered(pods));
      && t.objects == inv.objects
      && Seen(t.containers, k) == if ListedAs(pods, k).Some? then ListedAs(pods, k) else Seen(inv.containers, k)
  {
    if pods != [] {
      var front, last := pods[..|pods| - 1], pods[|pods| - 1];
      PodsAreStored(inv, front, k);
      StoreConcat(inv, PodsRendered(front), InitialsOf(last));
      PodIsStored(StoreAll(inv, PodsRendered(front)), last, k);
      ValueKeys(last, k);
      OnlyOwnKeys(last, k);
      FindPodIsMembership(front, k.podUID);
    }
  }

  lemma OnlyOwnKeys(p: Pod, k: Key)
    ensures k in PodKeys(p) ==> k.podUID == p.uid
  {
  }

  predicate IsListedText(pods: seq<Pod>, k: Key, t: string) {
    ListedAs(pods, k).Some? && KeyText(k) == t
  }

  ghost predicate SharesKeyText(pods: seq<Pod>, t: string) {
    exists j :: IsListedText(pods, j, t)
  }

  lemma LastKeys(front: seq<Pod>, last: Pod)
    ensures ContainerKeys(front + [last]) == ContainerKeys(front) + KeysOfPod(last)
  {
    RenderedSnoc(front, last, KeysOfPod);
  }

  lemma {:induction false} KeyTextListed(pods: seq<Pod>, t: string)
    requires DistinctPods(pods)
    ensures t in ContainerKeys(pods) <==> SharesKeyText(pods, t)
  {
    if pods != [] {
      var front, last := pods[..|pods| - 1], pods[|pods| - 1];
      assert pods == front + [last];
      KeyTextListed(front, t);
      LastKeys(front, last);
      PodKeyTexts(last, t);
      forall k ensures IsListedText(pods, k, t) <==> IsListedText(front, k, t) || (k in PodKeys(last) && KeyText(k) == t) {
        ListedSnoc(front, last, k);
      }
    }
  }

  lemma ListedSnoc(front: seq<Pod>, last: Pod, k: Key)
    requires forall i :: 0 <= i < |front| ==> front[i].uid != last.uid
    ensures ListedAs(front + [last], k).Some? <==> ListedAs(front, k).Some? || k in PodKeys(last)
  {
    assert (front + [last])[..|front|] == front;
    ValueKeys(last, k);
    OnlyOwnKeys(last, k);
    FindPodIsMembership(front, k.podUID);
  }

  lemma PodKeyTexts(p: Pod, t: string)
    ensures t in KeysOfPod(p) <==> exists k :: k in PodKeys(p) && KeyText(k) == t
  {
    if t in KeysOfPod(p) {
      var i :| 0 <= i < |Containers(p)| && KeysOfPod(p)[i] == t;
      assert KeyOf(p, Containers(p)[i]) in PodKeys(p);
    }
    if k :| k in PodKeys(p) && KeyText(k) == t {
      var i :| 0 <= i < |Containers(p)| && KeyOf(p, Containers(p)[i]) == k;
      assert KeysOfPod(p)[i] == t;
    }
  }

  lemma ContainerKeysKeep(inv: Inventory, id: string, keys: seq<string>, k: Key)
    ensures var t := Store(inv, Keys(id, "Container", keys));
      && t.objects == inv.objects
      && Seen(t.containers, k) == if KeyText(k) in keys then Seen(inv.containers, k) else None
  {
  }

  lemma ListedIgnoresOrder(pods: seq<Pod>, sorted: seq<Pod>, k: Key)
    requires GoodPods(pods) && multiset(sorted) == multiset(pods)
    ensures ListedAs(sorted, k) == ListedAs(pods, k)
    ensures SharesKeyText(sorted, KeyText(k)) <==> SharesKeyText(pods, KeyText(k))
  {
    forall j ensures ListedAs(sorted, j) == ListedAs(pods, j) {
      FindPodIgnoresOrder(pods, sorted, j.podUID);
    }
    forall j ensures IsListedText(sorted, j, KeyText(k)) <==> IsListedText(pods, j, KeyText(k)) {
    }
  }

  /** After the container section, a container is as listed; one that is not listed is left only if its
      pod uid and name read the same as those of a listed container. */
  lemma ContainerSectionStores(inv: Inventory, listing: Listing<Pod>, sets: ReplicaSets, id: string, k: Key)
    requires listing.Listed? ==> GoodPods(listing.items)
    ensures var t := StoreAll(inv, ContainerSection(listing, sets, id));
      && t.objects == inv.objects
      && Seen(t.containers, k) == AfterContainerSection(inv.containers, listing, k)
  {
    if listing.Failed? {
      StoreOne(inv, [], ListError("pods"));
      assert [] + [ListError("pods")] == [ListError("pods")];
    } else {
      ListedSectionStores(inv, listing.items, sets, id, k);
    }
  }

  lemma ListedSectionStores(inv: Inventory, items: seq<Pod>, sets: ReplicaSets, id: string, k: Key)
    requires GoodPods(items)
    ensures var t := StoreAll(inv, ContainerSection(Listed(items), sets, id));
      && t.objects == inv.objects
      && Seen(t.containers, k) == AfterContainerSection(inv.containers, Listed(items), k)
  {
    var pods := SortBy(items, PodOrder(sets));
    SortKeepsPodsGood(items, sets);
    SortedSectionStores(inv, pods, id, k);
    ListedIgnoresOrder(items, pods, k);
  }

  lemma SortKeepsPodsGood(pods: seq<Pod>, sets: ReplicaSets)
    requires GoodPods(pods)
    ensures GoodPods(SortBy(pods, PodOrder(sets))) && multiset(SortBy(pods, PodOrder(sets))) == multiset(pods)
  {
    SortPermutes(pods, PodOrder(sets));
    SortedPodsAreGood(pods, SortBy(pods, PodOrder(sets)));
  }

  ghost function AfterContainerSection(view: View, listing: Listing<Pod>, k: Key): (v: Option<Value>) {
    if listing.Failed? then Seen(view, k)
    else if ListedAs(listing.items, k).Some? then ListedAs(listing.items, k)
    else if SharesKeyText(listing.items, KeyText(k)) then Seen(view, k) else None
  }

  lemma SortedSectionStores(inv: Inventory, pods: seq<Pod>, id: string, k: Key)
    requires GoodPods(pods)
    ensures var rs := PodsRendered(pods);
      var t := StoreAll(inv, rs + [Counted("Pod", |pods|, |rs|)] + [Keys(id, "Container", ContainerKeys(pods))]);
      && t.objects == inv.objects
      && Seen(t.containers, k) == AfterContainerSection(inv.containers, Listed(pods), k)
  {
    var rs := PodsRendered(pods);
    StoreSection(inv, rs, Counted("Pod", |pods|, |rs|), Keys(id, "Container", ContainerKeys(pods)));
    PodsAreStored(inv, pods, k);
    KeyTextListed(pods, KeyText(k));
    ContainerKeysKeep(StoreAll(inv, rs), id, ContainerKeys(pods), k);
    assert ListedAs(pods, k).Some? ==> IsListedText(pods, k, KeyText(k));
  }

  lemma SortedPodsAreGood(pods: seq<Pod>, sorted: seq<Pod>)
    requires GoodPods(pods) && multiset(sorted) == multiset(pods)
    ensures GoodPods(sorted)
  {
    forall i | 0 <= i < |sorted| ensures HasUniqueNames(sorted[i]) {
      MemberOfPermutation(sorted, pods, sorted[i]);
    }
    KeysStayDistinct(pods, sorted, (p: Pod) => p.uid);
  }

  // ---- the whole snapshot -------------------------------------------------------------------------

  ghost predicate GoodSections(sections: seq<Section>) {
    && (forall i, j :: 0 <= i < j < |sections| ==> sections[i].kind != sections[j].kind)
    && (forall i :: 0 <= i < |sections| ==> sections[i].kind != "Container")
    && (forall i :: 0 <= i < |sections| && sections[i].listing.Listed? ==> DistinctUIDs(sections[i].listing.items))
  }

  /** What a snapshot's section for kind k listed: None without such a section or when its listing failed. */
  function ListedOf(sections: seq<Section>, k: string): (items: Option<seq<Obj>>) {
    if sections == [] then None else
      var last := sections[|sections| - 1];
      if last.kind != k then ListedOf(sections[..|sections| - 1], k)
      else if last.listing.Listed? then Some(last.listing.items) else None
  }

  lemma {:induction false} NotListedBefore(sections: seq<Section>, k: string)
    requires forall i :: 0 <= i < |sections| ==> sections[i].kind != k
    ensures ListedOf(sections, k) == None
  {
    if sections != [] {
      NotListedBefore(sections[..|sections| - 1], k);
    }
  }

  lemma {:induction false} SectionsReplace(inv: Inventory, sections: seq<Section>, id: string, k: string, uid: string)
    requires GoodSections(sections)
    ensures var t := StoreAll(inv, SectionRecords(sections, id));
      && t.containers == inv.containers
      && Known(t, k, uid) == if ListedOf(sections, k).Some? then Find(ListedOf(sections, k).value, uid)
                             else Known(inv, k, uid)
  {
    if sections != [] {
      var front, last := sections[..|sections| - 1], sections[|sections| - 1];
      SectionsReplace(inv, front, id, k, uid);
      assert SectionRecords(sections, id) == SectionRecords(front, id) + ObjectSection(last.kind, last.listing, id);
      StoreConcat(inv, SectionRecords(front, id), ObjectSection(last.kind, last.listing, id));
      SectionReplacesKind(StoreAll(inv, SectionRecords(front, id)), last.kind, last.listing, id, k, uid);
      if last.kind == k {
        NotListedBefore(front, k);
      }
    }
  }

  lemma EnvelopeStoresNothing(inv: Inventory, id: string, snapshotType: string, body: seq<Rec>)
    ensures StoreAll(inv, [Begin(id, snapshotType)] + body + [End(id)]) == StoreAll(inv, body)
  {
    StoreOne(inv, [Begin(id, snapshotType)] + body, End(id));
    StoreConcat(inv, [Begin(id, snapshotType)], body);
    StoreOne(inv, [], Begin(id, snapshotType));
    assert [] + [Begin(id, snapshotType)] == [Begin(id, snapshotType)];
  }

  ghost function AfterPods(view: View, pods: Option<Listing<Pod>>, k: Key): (v: Option<Value>) {
    if pods == None then Seen(view, k) else AfterContainerSection(view, pods.value, k)
  }

  /** One full snapshot, not interleaved with live events, takes any inventory to exactly the listed objects
      for each kind whose listing succeeded, and leaves every other kind as it was. */
  lemma SnapshotRepairs(inv: Inventory, rs: Resources, sets: ReplicaSets, id: string, snapshotType: string,
                        k: string, uid: string, key: Key)
    requires GoodSections(Sections(rs))
    requires rs.pods.Some? && rs.pods.value.Listed? ==> GoodPods(rs.pods.value.items)
    ensures var t := StoreAll(inv, FullSnapshot(rs, sets, id, snapshotType));
      && Known(t, k, uid) == (if ListedOf(Sections(rs), k).Some? then Find(ListedOf(Sections(rs), k).value, uid)
                              else Known(inv, k, uid))
      && Seen(t.containers, key) == AfterPods(inv.containers, rs.pods, key)
  {
    var held := StoreAll(inv, PodRecordsOf(rs.pods, sets, id));
    SnapshotIsItsSections(inv, rs, sets, id, snapshotType);
    PodRecordsStore(inv, rs.pods, sets, id, key);
    SectionsReplace(held, Sections(rs), id, k, uid);
  }

  lemma PodRecordsStore(inv: Inventory, pods: Option<Listing<Pod>>, sets: ReplicaSets, id: string, key: Key)
    requires pods.Some? && pods.value.Listed? ==> GoodPods(pods.value.items)
    ensures var t := StoreAll(inv, PodRecordsOf(pods, sets, id));
      t.objects == inv.objects && Seen(t.containers, key) == AfterPods(inv.containers, pods, key)
  {
    if pods != None {
      ContainerSectionStores(inv, pods.value, sets, id, key);
    }
  }

  // ---- the whole snapshot, told by the resources --------------------------------------------------

  predicate IsBuiltIn(kind: string) {
    kind in {"Service", "EndpointSlice", "Ingress", "IngressClass", "Container"}
  }

  ghost predicate HasDistinctUIDs(listing: Option<Listing<Obj>>) {
    listing.Some? && listing.value.Listed? ==> DistinctUIDs(listing.value.items)
  }

  /** Discovered kinds are pairwise different and none is a built-in one; uids are unique within a kind. */
  ghost predicate GoodResources(rs: Resources) {
    var found := rs.gatewayAPI + rs.traefik;
    && (forall i, j :: 0 <= i < j < |found| ==> found[i].kind != found[j].kind)
    && (forall i :: 0 <= i < |found| ==> !IsBuiltIn(found[i].kind) && DistinctUIDs(found[i].items))
    && HasDistinctUIDs(rs.services) && HasDistinctUIDs(rs.endpointSlices)
    && HasDistinctUIDs(rs.ingresses) && HasDistinctUIDs(rs.ingressClasses)
    && (rs.pods.Some? && rs.pods.value.Listed? ==> GoodPods(rs.pods.value.items))
  }

  function BuiltIns(rs: Resources): (s: seq<Section>) {
    Given("Service", rs.services) + Given("EndpointSlice", rs.endpointSlices) + Given("Ingress", rs.ingresses)
    + Given("IngressClass", rs.ingressClasses)
  }

  /** All sections are of different kinds, with distinct uids, and built-in exactly as `builtIn` says. */
  ghost predicate AreSeparate(sections: seq<Section>, kinds: set<string>) {
    && (forall i, j :: 0 <= i < j < |sections| ==> sections[i].kind != sections[j].kind)
    && (forall i :: 0 <= i < |sections| ==> sections[i].kind in kinds)
    && (forall i :: 0 <= i < |sections| && sections[i].listing.Listed? ==> DistinctUIDs(sections[i].listing.items))
  }

  lemma SeparateConcat(a: seq<Section>, b: seq<Section>, kindsA: set<string>, kindsB: set<string>)
    requires AreSeparate(a, kindsA) && AreSeparate(b, kindsB) && kindsA !! kindsB
    ensures AreSeparate(a + b, kindsA + kindsB)
  {
  }

  lemma BuiltInsAreSeparate(rs: Resources)
    requires GoodResources(rs)
    ensures AreSeparate(BuiltIns(rs), {"Service"} + {"EndpointSlice"} + {"Ingress"} + {"IngressClass"})
  {
    var a, b := Given("Service", rs.services), Given("EndpointSlice", rs.endpointSlices);
    var c, d := Given("Ingress", rs.ingresses), Given("IngressClass", rs.ingressClasses);
    SeparateConcat(a, b, {"Service"}, {"EndpointSlice"});
    SeparateConcat(a + b, c, {"Service"} + {"EndpointSlice"}, {"Ingress"});
    SeparateConcat(a + b + c, d, {"Service"} + {"EndpointSlice"} + {"Ingress"}, {"IngressClass"});
  }

  function KindsOf(ds: seq<Dynamic>): (kinds: set<string>) {
    set i | 0 <= i < |ds| :: ds[i].kind
  }

  lemma SectionsAreSeparate(rs: Resources)
    requires GoodResources(rs)
    ensures GoodSections(Sections(rs))
  {
    BuiltInsAreSeparate(rs);
    var found := rs.gatewayAPI + rs.traefik;
    assert AreSeparate(DynamicSections(found), KindsOf(found));
    SeparateConcat(BuiltIns(rs), DynamicSections(found), {"Service"} + {"EndpointSlice"} + {"Ingress"} + {"IngressClass"},
                   KindsOf(found));
    assert DynamicSections(found) == DynamicSections(rs.gatewayAPI) + DynamicSections(rs.traefik);
    assert Sections(rs) == BuiltIns(rs) + DynamicSections(found);
  }

  lemma {:induction false} ListedIn(sections: seq<Section>, i: nat)
    requires GoodSections(sections) && i < |sections|
    ensures ListedOf(sections, sections[i].kind)
         == if sections[i].listing.Listed? then Some(sections[i].listing.items) else None
  {
    if i < |sections| - 1 {
      ListedIn(sections[..|sections| - 1], i);
    }
  }

  /** What a lister gave, if it gave anything. */
  function ItemsOf<T>(listing: Option<Listing<T>>): (items: Option<seq<T>>) {
    if listing.Some? && listing.value.Listed? then Some(listing.value.items) else None
  }

  /** Where a built-in kind's section is, if it has one. */
  lemma GivenIsListed(sections: seq<Section>, before: seq<Section>, kind: string, listing: Option<Listing<Obj>>,
                      after: seq<Section>)
    requires GoodSections(sections) && sections == before + Given(kind, listing) + after
    requires listing == None ==> forall s :: s in before + after ==> s.kind != kind
    ensures ListedOf(sections, kind) == ItemsOf(listing)
  {
    if listing.Some? {
      assert sections[|before|] == Section(kind, listing.value);
      ListedIn(sections, |before|);
    } else {
      NotListedBefore(sections, kind);
    }
  }

  /** The objects of a kind that a consumer ends up with: the listed ones, or, without a listing, those it had. */
  ghost predicate IsRepaired(inv: Inventory, t: Inventory, kind: string, items: Option<seq<Obj>>) {
    forall uid :: Known(t, kind, uid) == if items.Some? then Find(items.value, uid) else Known(inv, kind, uid)
  }

  lemma FoundAreForeign(rs: Resources, kind: string)
    requires GoodResources(rs) && IsBuiltIn(kind)
    ensures forall s :: s in DynamicSections(rs.gatewayAPI) + DynamicSections(rs.traefik) ==> s.kind != kind
  {
    var found := rs.gatewayAPI + rs.traefik;
    assert DynamicSections(rs.gatewayAPI) + DynamicSections(rs.traefik) == DynamicSections(found);
    forall s | s in DynamicSections(found) ensures s.kind != kind {
      var i :| 0 <= i < |found| && DynamicSections(found)[i] == s;
      assert !IsBuiltIn(found[i].kind);
    }
  }

  lemma Associate<T>(a: seq<T>, b: seq<T>, c: seq<T>, d: seq<T>, e: seq<T>, f: seq<T>)
    ensures var all := a + b + c + d + e + f;
      && all == [] + a + (b + c + d + (e + f))
      && all == a + b + (c + d + (e + f))
      && all == (a + b) + c + (d + (e + f))
      && all == (a + b + c) + d + (e + f)
  {
  }

  /** The sections, cut at each built-in kind. */
  lemma SectionsSplit(rs: Resources)
    ensures var a, b := Given("Service", rs.services), Given("EndpointSlice", rs.endpointSlices);
      var c, d := Given("Ingress", rs.ingresses), Given("IngressClass", rs.ingressClasses);
      var found := DynamicSections(rs.gatewayAPI) + DynamicSections(rs.traefik);
      && Sections(rs) == [] + a + (b + c + d + found)
      && Sections(rs) == a + b + (c + d + found)
      && Sections(rs) == (a + b) + c + (d + found)
      && Sections(rs) == (a + b + c) + d + found
  {
    Associate(Given("Service", rs.services), Given("EndpointSlice", rs.endpointSlices), Given("Ingress", rs.ingresses),
              Given("IngressClass", rs.ingressClasses), DynamicSections(rs.gatewayAPI), DynamicSections(rs.traefik));
  }

  lemma ServicesAreListed(rs: Resources)
    requires GoodResources(rs)
    ensures ListedOf(Sections(rs), "Service") == ItemsOf(rs.services)
  {
    SectionsAreSeparate(rs);
    var found := DynamicSections(rs.gatewayAPI) + DynamicSections(rs.traefik);
    var before: seq<Section> := [];
    var after := Given("EndpointSlice", rs.endpointSlices) + Given("Ingress", rs.ingresses)
                 + Given("IngressClass", rs.ingressClasses) + found;
    FoundAreForeign(rs, "Service");
    SectionsSplit(rs);
    GivenIsListed(Sections(rs), before, "Service", rs.services, after);
  }

  lemma EndpointSlicesAreListed(rs: Resources)
    requires GoodResources(rs)
    ensures ListedOf(Sections(rs), "EndpointSlice") == ItemsOf(rs.endpointSlices)
  {
    SectionsAreSeparate(rs);
    var found := DynamicSections(rs.gatewayAPI) + DynamicSections(rs.traefik);
    var before: seq<Section> := Given("Service", rs.services);
    var after := Given("Ingress", rs.ingresses) + Given("IngressClass", rs.ingressClasses) + found;
    FoundAreForeign(rs, "EndpointSlice");
    SectionsSplit(rs);
    GivenIsListed(Sections(rs), before, "EndpointSlice", rs.endpointSlices, after);
  }

  lemma IngressesAreListed(rs: Resources)
    requires GoodResources(rs)
    ensures ListedOf(Sections(rs), "Ingress") == ItemsOf(rs.ingresses)
  {
    SectionsAreSeparate(rs);
    var found := DynamicSections(rs.gatewayAPI) + DynamicSections(rs.traefik);
    var before: seq<Section> := Given("Service", rs.services) + Given("EndpointSlice", rs.endpointSlices);
    var after := Given("IngressClass", rs.ingressClasses) + found;
    FoundAreForeign(rs, "Ingress");
    SectionsSplit(rs);
    GivenIsListed(Sections(rs), before, "Ingress", rs.ingresses, after);
  }

  lemma IngressClassesAreListed(rs: Resources)
    requires GoodResources(rs)
    ensures ListedOf(Sections(rs), "IngressClass") == ItemsOf(rs.ingressClasses)
  {
    SectionsAreSeparate(rs);
    var found := DynamicSections(rs.gatewayAPI) + DynamicSections(rs.traefik);
    var before: seq<Section> :=
      Given("Service", rs.services) + Given("EndpointSlice", rs.endpointSlices) + Given("Ingress", rs.ingresses);
    var after := found;
    FoundAreForeign(rs, "IngressClass");
    SectionsSplit(rs);
    GivenIsListed(Sections(rs), before, "IngressClass", rs.ingressClasses, after);
  }

  lemma FoundAreListed(rs: Resources, i: nat)
    requires GoodResources(rs) && i < |rs.gatewayAPI + rs.traefik|
    ensures var d := (rs.gatewayAPI + rs.traefik)[i]; ListedOf(Sections(rs), d.kind) == Some(d.items)
  {
    SectionsAreSeparate(rs);
    var found, builtIns := rs.gatewayAPI + rs.traefik, BuiltIns(rs);
    assert Sections(rs) == builtIns + DynamicSections(found);
    assert Sections(rs)[|builtIns| + i] == Section(found[i].kind, Listed(found[i].items));
    ListedIn(Sections(rs), |builtIns| + i);
  }

  lemma OthersAreNotListed(rs: Resources, kind: string)
    requires GoodResources(rs) && !IsBuiltIn(kind)
    requires forall i :: 0 <= i < |rs.gatewayAPI| ==> rs.gatewayAPI[i].kind != kind
    requires forall i :: 0 <= i < |rs.traefik| ==> rs.traefik[i].kind != kind
    ensures ListedOf(Sections(rs), kind) == None
  {
    BuiltInsAreSeparate(rs);
    var found := DynamicSections(rs.gatewayAPI) + DynamicSections(rs.traefik);
    assert Sections(rs) == BuiltIns(rs) + found;
    NotListedBefore(Sections(rs), kind);
  }

  lemma KindIsRepaired(inv: Inventory, rs: Resources, sets: ReplicaSets, id: string, snapshotType: string, kind: string)
    requires GoodResources(rs)
    ensures IsRepaired(inv, StoreAll(inv, FullSnapshot(rs, sets, id, snapshotType)), kind, ListedOf(Sections(rs), kind))
  {
    SectionsAreSeparate(rs);
    forall uid
      ensures Known(StoreAll(inv, FullSnapshot(rs, sets, id, snapshotType)), kind, uid)
           == if ListedOf(Sections(rs), kind).Some? then Find(ListedOf(Sections(rs), kind).value, uid)
              else Known(inv, kind, uid)
    {
      SnapshotRepairs(inv, rs, sets, id, snapshotType, kind, uid, Key("", "", ""));
    }
  }

  /** The kinds that every cluster has are brought to exactly what their listers gave; one without a lister or
      whose listing failed is left alone. */
  ghost predicate BuiltInsRepaired(inv: Inventory, t: Inventory, rs: Resources) {
    && IsRepaired(inv, t, "Service", ItemsOf(rs.services))
    && IsRepaired(inv, t, "EndpointSlice", ItemsOf(rs.endpointSlices))
    && IsRepaired(inv, t, "Ingress", ItemsOf(rs.ingresses))
    && IsRepaired(inv, t, "IngressClass", ItemsOf(rs.ingressClasses))
  }

  /** So is every discovered kind. */
  ghost predicate DiscoveredRepaired(inv: Inventory, t: Inventory, ds: seq<Dynamic>) {
    forall i :: 0 <= i < |ds| ==> IsRepaired(inv, t, ds[i].kind, Some(ds[i].items))
  }

  /** A kind that is not covered by the snapshot. */
  ghost predicate IsUncovered(rs: Resources, kind: string) {
    && !IsBuiltIn(kind)
    && (forall i :: 0 <= i < |rs.gatewayAPI| ==> rs.gatewayAPI[i].kind != kind)
    && (forall i :: 0 <= i < |rs.traefik| ==> rs.traefik[i].kind != kind)
  }

  lemma BuiltInsAreRepaired(inv: Inventory, rs: Resources, sets: ReplicaSets, id: string, snapshotType: string)
    requires GoodResources(rs)
    ensures BuiltInsRepaired(inv, StoreAll(inv, FullSnapshot(rs, sets, id, snapshotType)), rs)
  {
    ServicesAreListed(rs);
    EndpointSlicesAreListed(rs);
    IngressesAreListed(rs);
    IngressClassesAreListed(rs);
    KindIsRepaired(inv, rs, sets, id, snapshotType, "Service");
    KindIsRepaired(inv, rs, sets, id, snapshotType, "EndpointSlice");
    KindIsRepaired(inv, rs, sets, id, snapshotType, "Ingress");
    KindIsRepaired(inv, rs, sets, id, snapshotType, "IngressClass");
  }

  lemma DiscoveredAreRepaired(inv: Inventory, rs: Resources, sets: ReplicaSets, id: string, snapshotType: string)
    requires GoodResources(rs)
    ensures var t := StoreAll(inv, FullSnapshot(rs, sets, id, snapshotType));
      DiscoveredRepaired(inv, t, rs.gatewayAPI) && DiscoveredRepaired(inv, t, rs.traefik)
  {
    var t := StoreAll(inv, FullSnapshot(rs, sets, id, snapshotType));
    forall i | 0 <= i < |rs.gatewayAPI| ensures IsRepaired(inv, t, rs.gatewayAPI[i].kind, Some(rs.gatewayAPI[i].items)) {
      FoundAreListed(rs, i);
      KindIsRepaired(inv, rs, sets, id, snapshotType, rs.gatewayAPI[i].kind);
    }
    forall i | 0 <= i < |rs.traefik| ensures IsRepaired(inv, t, rs.traefik[i].kind, Some(rs.traefik[i].items)) {
      FoundAreListed(rs, |rs.gatewayAPI| + i);
      KindIsRepaired(inv, rs, sets, id, snapshotType, rs.traefik[i].kind);
    }
  }

  lemma OthersAreKept(inv: Inventory, rs: Resources, sets: ReplicaSets, id: string, snapshotType: string, kind: string)
    requires GoodResources(rs) && IsUncovered(rs, kind)
    ensures IsRepaired(inv, StoreAll(inv, FullSnapshot(rs, sets, id, snapshotType)), kind, None)
  {
    OthersAreNotListed(rs, kind);
    KindIsRepaired(inv, rs, sets, id, snapshotType, kind);
  }

  lemma ContainersAreRepaired(inv: Inventory, rs: Resources, sets: ReplicaSets, id: string, snapshotType: string, key: Key)
    requires GoodResources(rs)
    ensures Seen(StoreAll(inv, FullSnapshot(rs, sets, id, snapshotType)).containers, key)
         == AfterPods(inv.containers, rs.pods, key)
  {
    SectionsAreSeparate(rs);
    SnapshotRepairs(inv, rs, sets, id, snapshotType, "", "", key);
  }

  /** One full snapshot, not interleaved with live events, told by the listers it was given: every kind of
      object is brought to exactly what its lister gave, or left alone without one, and so are the kinds the
      snapshot does not cover and the containers. */
  lemma SnapshotRepairsEveryKind(inv: Inventory, rs: Resources, sets: ReplicaSets, id: string, snapshotType: string)
    requires GoodResources(rs)
    ensures var t := StoreAll(inv, FullSnapshot(rs, sets, id, snapshotType));
      && BuiltInsRepaired(inv, t, rs)
      && DiscoveredRepaired(inv, t, rs.gatewayAPI) && DiscoveredRepaired(inv, t, rs.traefik)
      && (forall kind :: IsUncovered(rs, kind) ==> IsRepaired(inv, t, kind, None))
      && (forall key :: Seen(t.containers, key) == AfterPods(inv.containers, rs.pods, key))
  {
    BuiltInsAreRepaired(inv, rs, sets, id, snapshotType);
    DiscoveredAreRepaired(inv, rs, sets, id, snapshotType);
    forall kind | IsUncovered(rs, kind)
      ensures IsRepaired(inv, StoreAll(inv, FullSnapshot(rs, sets, id, snapshotType)), kind, None)
    {
      OthersAreKept(inv, rs, sets, id, snapshotType, kind);
    }
    forall key
      ensures Seen(StoreAll(inv, FullSnapshot(rs, sets, id, snapshotType)).containers, key)
           == AfterPods(inv.containers, rs.pods, key)
    {
      ContainersAreRepaired(inv, rs, sets, id, snapshotType, key);
    }
  }

  lemma SnapshotIsItsSections(inv: Inventory, rs: Resources, sets: ReplicaSets, id: string, snapshotType: string)
    ensures StoreAll(inv, FullSnapshot(rs, sets, id, snapshotType))
         == StoreAll(StoreAll(inv, PodRecordsOf(rs.pods, sets, id)), SectionRecords(Sections(rs), id))
  {
    var pods, rest := PodRecordsOf(rs.pods, sets, id), SectionRecords(Sections(rs), id);
    Bracketed([Begin(id, snapshotType)], pods, rest, [End(id)]);
    EnvelopeStoresNothing(inv, id, snapshotType, pods + rest);
    StoreConcat(inv, pods, rest);
  }

  lemma Bracketed(a: seq<Rec>, b: seq<Rec>, c: seq<Rec>, d: seq<Rec>)
    ensures a + b + c + d == a + (b + c) + d
  {
  }

  /** A container the consumer held that is not listed, but whose pod uid and name read like a listed one's. */
  ghost predicate IsLingering(view: View, pods: seq<Pod>, k: Key) {
    k in view && ListedAs(pods, k) == None && SharesKeyText(pods, KeyText(k))
  }

  /** For containers the repair is exact if and only if nothing lingers: the key list leaves out the kind. */
  lemma ContainerRepairIsExact(inv: Inventory, rs: Resources, sets: ReplicaSets, id: string, snapshotType: string)
    requires GoodSections(Sections(rs))
    requires rs.pods.Some? && rs.pods.value.Listed? && GoodPods(rs.pods.value.items)
    ensures var t, pods := StoreAll(inv, FullSnapshot(rs, sets, id, snapshotType)), rs.pods.value.items;
      (forall k :: Seen(t.containers, k) == ListedAs(pods, k))
      <==> !exists k :: IsLingering(inv.containers, pods, k)
  {
    var t, pods := StoreAll(inv, FullSnapshot(rs, sets, id, snapshotType)), rs.pods.value.items;
    forall k
      ensures IsLingering(inv.containers, pods, k) <==> Seen(t.containers, k) != ListedAs(pods, k)
    {
      SnapshotRepairs(inv, rs, sets, id, snapshotType, "", "", k);
    }
  }

  /** With names free of '/', as Kubernetes has them, only a container that moved to another kind within the
      same pod can linger. */
  lemma LingeringIsKindChange(view: View, pods: seq<Pod>, k: Key)
    requires IsLingering(view, pods, k) && '/' !in k.name
    requires forall j :: ListedAs(pods, j).Some? ==> '/' !in j.name
    ensures exists j :: ListedAs(pods, j).Some? && j.podUID == k.podUID && j.name == k.name && j.kind != k.kind
  {
    var j :| IsListedText(pods, j, KeyText(k));
    TextSplits(j);
    TextSplits(k);
    assert ListedAs(pods, j).Some? && j.podUID == k.podUID && j.name == k.name;
    assert j != k;
  }

  const HELD := Key("u", "init", "x")
  const BECAME := Key("u", "main", "x")

  function MovedPod(): (p: Pod) {
    Pod("ns", "pod", "u", "Running", map[], [], [], [Container("x", "a:1")], [], [], [], [])
  }

  lemma MovedPodIs()
    ensures HasUniqueNames(MovedPod()) && FindPod([MovedPod()], "u") == Some(MovedPod())
    ensures PodKeys(MovedPod()) == {BECAME} && KeyText(HELD) == KeyText(BECAME)
  {
    var pod := MovedPod();
    assert Containers(pod) == [ContainerRef("main", "x", "a:1", "")];
    assert KeyOf(pod, Containers(pod)[0]) == BECAME;
  }

  /** A consumer that holds container x of pod u as an init container keeps it when the cluster has x as a
      main container. */
  lemma LingeringExample(sets: ReplicaSets, id: string, snapshotType: string, v: Value)
    ensures var inv := Inventory(map[HELD := v], map[]);
      var rs := Resources(Some(Listed([MovedPod()])), None, None, None, None, [], []);
      && IsLingering(inv.containers, [MovedPod()], HELD)
      && Seen(StoreAll(inv, FullSnapshot(rs, sets, id, snapshotType)).containers, HELD) == Some(v)
  {
    var rs := Resources(Some(Listed([MovedPod()])), None, None, None, None, [], []);
    MovedPodIs();
    ValueKeys(MovedPod(), BECAME);
    ValueKeys(MovedPod(), HELD);
    assert IsListedText([MovedPod()], BECAME, KeyText(HELD));
    assert Sections(rs) == [];
    SnapshotRepairs(Inventory(map[HELD := v], map[]), rs, sets, id, snapshotType, "", "", HELD);
  }

  lemma TextSplits(k: Key)
    requires '/' !in k.name
    ensures var at := LastIndex(KeyText(k), '/');
      at == |k.podUID| && KeyText(k)[..at] == k.podUID && KeyText(k)[at + 1..] == k.name
  {
    assert KeyText(k) == k.podUID + ("/" + k.name);
    LastIndexOfConcat(k.podUID, "/" + k.name, '/');
    LastIndexOfConcat("/", k.name, '/');
    LastIndexFound(k.name, '/');
    Halves(k.podUID, '/', k.name);
  }
}
