/** Full snapshots as written (snapshot.go:71-108, 161-244, informer.go:64-73, pod.go:9-27).
    Event ids and the payload fields the consumer's repair does not depend on are left out of the records. */
module Snapshots {
  import opened Common
  import opened Pods
  import opened PodStream
  import opened Ordering

  /** A listed object of any kind but Pod. */
  datatype Obj = Obj(namespace: string, name: string, uid: string, body: string)

  datatype Rec =
    | Begin(snapshotID: string, snapshotType: string)
    | InitialContainer(k: Key, v: Value)
    | InitialObject(kind: string, o: Obj)
    | Counted(logKind: string, cached: nat, emitted: nat)
    | ListError(logKind: string)
    | Keys(id: string, targetKind: string, keys: seq<string>)
    | End(endID: string)

  /** The result of a lister call. */
  datatype Listing<T> = Listed(items: seq<T>) | Failed

  datatype Dynamic = Dynamic(kind: string, items: seq<Obj>)

  /** The informers of a snapshot with what they list now; None for a nil informer. */
  datatype Resources = Resources(
    pods: Option<Listing<Pod>>, services: Option<Listing<Obj>>, endpointSlices: Option<Listing<Obj>>,
    ingresses: Option<Listing<Obj>>, ingressClasses: Option<Listing<Obj>>,
    gatewayAPI: seq<Dynamic>, traefik: seq<Dynamic>)

  predicate NamespacedLess(a: Obj, b: Obj) {
    NsNameLess(a.namespace, a.name, b.namespace, b.name)
  }

  predicate NameLess(a: Obj, b: Obj) {
    StrLess(a.name, b.name)
  }

  function LessOf(kind: string): (less: (Obj, Obj) -> bool) {
    if kind == "IngressClass" then NameLess else NamespacedLess
  }

  // ---- what a snapshot consists of ----------------------------------------------------------------

  function KeyText(k: Key): (t: string) {
    k.podUID + "/" + k.name
  }

  /** What a consumer keeps of its containers when it reads a key list. */
  function Pruned(view: View, keys: seq<string>): (v: View) {
    map k | k in view && KeyText(k) in keys :: view[k]
  }

  function InitialsOf(p: Pod): (rs: seq<Rec>)
    ensures |rs| == |Containers(p)|
  {
    seq(|Containers(p)|, i requires 0 <= i < |Containers(p)| =>
      InitialContainer(KeyOf(p, Containers(p)[i]), ValueOf(p, Containers(p)[i])))
  }

  function KeysOfPod(p: Pod): (keys: seq<string>)
    ensures |keys| == |Containers(p)|
  {
    seq(|Containers(p)|, i requires 0 <= i < |Containers(p)| => KeyText(KeyOf(p, Containers(p)[i])))
  }

  function Rendered<T, R>(items: seq<T>, render: T -> seq<R>): (rs: seq<R>) {
    if items == [] then [] else Rendered(items[..|items| - 1], render) + render(items[|items| - 1])
  }

  function PodsRendered(pods: seq<Pod>): (rs: seq<Rec>) {
    Rendered(pods, InitialsOf)
  }

  function ContainerKeys(pods: seq<Pod>): (keys: seq<string>) {
    Rendered(pods, KeysOfPod)
  }

  function InitialsOfObject(kind: string): (render: Obj -> seq<Rec>) {
    (o: Obj) => [InitialObject(kind, o)]
  }

  function UIDOf(): (key: Obj -> seq<string>) {
    (o: Obj) => [o.uid]
  }

  function ObjectsRendered(kind: string, objs: seq<Obj>): (rs: seq<Rec>) {
    Rendered(objs, InitialsOfObject(kind))
  }

  function UIDKeys(objs: seq<Obj>): (keys: seq<string>) {
    Rendered(objs, UIDOf())
  }

  function ContainerSection(listing: Listing<Pod>, sets: ReplicaSets, id: string): (rs: seq<Rec>) {
    if listing.Failed? then [ListError("pods")] else
      var pods := SortBy(listing.items, PodOrder(sets));
      PodsRendered(pods) + [Counted("Pod", |pods|, |PodsRendered(pods)|)] + [Keys(id, "Container", ContainerKeys(pods))]
  }

  function ObjectSection(kind: string, listing: Listing<Obj>, id: string): (rs: seq<Rec>) {
    if listing.Failed? then [ListError(kind)] else
      var objs := SortBy(listing.items, LessOf(kind));
      ObjectsRendered(kind, objs) + [Counted(kind, |objs|, |ObjectsRendered(kind, objs)|)] + [Keys(id, kind, UIDKeys(objs))]
  }

  /** One kind to be listed. */
  datatype Section = Section(kind: string, listing: Listing<Obj>)

  function Given(kind: string, listing: Option<Listing<Obj>>): (s: seq<Section>) {
    if listing == None then [] else [Section(kind, listing.value)]
  }

  function DynamicSections(ds: seq<Dynamic>): (s: seq<Section>) {
    seq(|ds|, i requires 0 <= i < |ds| => Section(ds[i].kind, Listed(ds[i].items)))
  }

  function Sections(rs: Resources): (s: seq<Section>) {
    Given("Service", rs.services) + Given("EndpointSlice", rs.endpointSlices) + Given("Ingress", rs.ingresses)
    + Given("IngressClass", rs.ingressClasses) + DynamicSections(rs.gatewayAPI) + DynamicSections(rs.traefik)
  }

  function SectionWriter(id: string): (render: Section -> seq<Rec>) {
    (s: Section) => ObjectSection(s.kind, s.listing, id)
  }

  function SectionRecords(sections: seq<Section>, id: string): (rs: seq<Rec>) {
    Rendered(sections, SectionWriter(id))
  }

  function PodRecordsOf(pods: Option<Listing<Pod>>, sets: ReplicaSets, id: string): (rs: seq<Rec>) {
    if pods == None then [] else ContainerSection(pods.value, sets, id)
  }

  function FullSnapshot(rs: Resources, sets: ReplicaSets, id: string, snapshotType: string): (recs: seq<Rec>) {
    [Begin(id, snapshotType)] + PodRecordsOf(rs.pods, sets, id) + SectionRecords(Sections(rs), id) + [End(id)]
  }

  // ---- the emitting code --------------------------------------------------------------------------

  class Writer {
    var out: seq<Rec>

    constructor ()
      ensures out == []
    {
      out := [];
    }

    /** Sorts the caller's slice in place, emits its elements and logs the counts. */
    method DumpSorted<T>(kind: string, items: Slice<T>, less: (T, T) -> bool, render: T -> seq<Rec>)
      modifies this, items
      ensures items.elems == SortBy(old(items.elems), less)
      ensures out == old(out) + Rendered(items.elems, render)
                     + [Counted(kind, |items.elems|, |Rendered(items.elems, render)|)]
    {
      items.Sort(less);
      var emitted := 0;
      for i := 0 to |items.elems|
        invariant items.elems == SortBy(old(items.elems), less)
        invariant out == old(out) + Rendered(items.elems[..i], render)
        invariant emitted == |Rendered(items.elems[..i], render)|
      {
        RenderedStep(old(out), items.elems, i, render);
        var rs := render(items.elems[i]);
        out := out + rs;
        emitted := emitted + |rs|;
      }
      assert items.elems[..|items.elems|] == items.elems;
      out := out + [Counted(kind, |items.elems|, emitted)];
    }

    method EmitSnapshotKeys(id: string, targetKind: string, keys: seq<string>)
      modifies this
      ensures out == old(out) + [Keys(id, targetKind, keys)]
    {
      out := out + [Keys(id, targetKind, keys)];
    }

    method CollectKeys(pods: seq<Pod>) returns (keys: seq<string>)
      ensures keys == ContainerKeys(pods)
    {
      keys := [];
      for i := 0 to |pods|
        invariant keys == ContainerKeys(pods[..i])
      {
        assert pods[..i + 1][..i] == pods[..i];
        var cs := CollectContainers(pods[i]);
        for j := 0 to |cs|
          invariant keys == ContainerKeys(pods[..i]) + KeysOfPod(pods[i])[..j]
        {
          keys := keys + [pods[i].uid + "/" + cs[j].name];
        }
      }
      assert pods[..|pods|] == pods;
    }

    method CollectUIDs(objs: seq<Obj>) returns (keys: seq<string>)
      ensures keys == UIDKeys(objs)
    {
      keys := [];
      for i := 0 to |objs|
        invariant keys == UIDKeys(objs[..i])
      {
        assert objs[..i + 1][..i] == objs[..i];
        keys := keys + [objs[i].uid];
      }
      assert objs[..|objs|] == objs;
    }

    /** The keys are collected from the slice DumpSorted has sorted. */
    method EmitContainerSnapshot(listing: Listing<Pod>, sets: ReplicaSets, id: string)
      modifies this
      ensures out == old(out) + ContainerSection(listing, sets, id)
    {
      if listing.Failed? {
        out := out + [ListError("pods")];
        return;
      }
      var pods := new Slice(listing.items);
      DumpSorted("Pod", pods, PodOrder(sets), InitialsOf);
      ghost var sorted := SortBy(listing.items, PodOrder(sets));
      assert pods.elems == sorted;
      assert out == old(out) + PodsRendered(sorted) + [Counted("Pod", |sorted|, |PodsRendered(sorted)|)];
      var keys := CollectKeys(pods.elems);
      EmitSnapshotKeys(id, "Container", keys);
      Regroup(old(out), PodsRendered(sorted), [Counted("Pod", |sorted|, |PodsRendered(sorted)|)], [Keys(id, "Container", keys)]);
    }

    method EmitObjectSnapshot(kind: string, listing: Listing<Obj>, id: string)
      modifies this
      ensures out == old(out) + ObjectSection(kind, listing, id)
    {
      if listing.Failed? {
        out := out + [ListError(kind)];
        return;
      }
      var objs := new Slice(listing.items);
      DumpSorted(kind, objs, LessOf(kind), InitialsOfObject(kind));
      var keys := CollectUIDs(objs.elems);
      EmitSnapshotKeys(id, kind, keys);
    }

    /** `done` sections follow `start` in the output; these two methods add further ones. */
    method EmitGiven(kind: string, listing: Option<Listing<Obj>>, id: string,
                     ghost start: seq<Rec>, ghost done: seq<Section>)
      requires out == start + SectionRecords(done, id)
      modifies this
      ensures out == start + SectionRecords(done + Given(kind, listing), id)
    {
      if listing != None {
        EmitObjectSnapshot(kind, listing.value, id);
        SectionsSnoc(start, done, Section(kind, listing.value), id);
      } else {
        assert done + [] == done;
      }
    }

    method EmitDynamic(ds: seq<Dynamic>, id: string, ghost start: seq<Rec>, ghost done: seq<Section>)
      requires out == start + SectionRecords(done, id)
      modifies this
      ensures out == start + SectionRecords(done + DynamicSections(ds), id)
    {
      assert done + [] == done;
      for i := 0 to |ds|
        invariant out == start + SectionRecords(done + DynamicSections(ds[..i]), id)
      {
        EmitObjectSnapshot(ds[i].kind, Listed(ds[i].items), id);
        SectionsSnoc(start, done + DynamicSections(ds[..i]), Section(ds[i].kind, Listed(ds[i].items)), id);
        DynamicSnoc(done, ds, i);
      }
      assert ds[..|ds|] == ds;
    }

    method EmitFullSnapshot(rs: Resources, sets: ReplicaSets, id: string, snapshotType: string)
      modifies this
      ensures out == old(out) + FullSnapshot(rs, sets, id, snapshotType)
    {
      out := out + [Begin(id, snapshotType)];
      if rs.pods != None {
        EmitContainerSnapshot(rs.pods.value, sets, id);
      }
      ghost var start, done := out, [];
      assert start == old(out) + ([Begin(id, snapshotType)] + PodRecordsOf(rs.pods, sets, id));
      EmitGiven("Service", rs.services, id, start, done);
      done := done + Given("Service", rs.services);
      EmitGiven("EndpointSlice", rs.endpointSlices, id, start, done);
      done := done + Given("EndpointSlice", rs.endpointSlices);
      EmitGiven("Ingress", rs.ingresses, id, start, done);
      done := done + Given("Ingress", rs.ingresses);
      EmitGiven("IngressClass", rs.ingressClasses, id, start, done);
      done := done + Given("IngressClass", rs.ingressClasses);
      EmitDynamic(rs.gatewayAPI, id, start, done);
      done := done + DynamicSections(rs.gatewayAPI);
      EmitDynamic(rs.traefik, id, start, done);
      done := done + DynamicSections(rs.traefik);
      assert done == Sections(rs);
      out := out + [End(id)];
      Regroup(old(out), [Begin(id, snapshotType)] + PodRecordsOf(rs.pods, sets, id), SectionRecords(done, id), [End(id)]);
    }
  }

  lemma Regroup<T>(a: seq<T>, b: seq<T>, c: seq<T>, d: seq<T>)
    ensures a + b + c + d == a + (b + c + d)
  {
  }

  lemma RenderedStep<T, R>(start: seq<R>, items: seq<T>, i: nat, render: T -> seq<R>)
    requires i < |items|
    ensures Rendered(items[..i + 1], render) == Rendered(items[..i], render) + render(items[i])
    ensures start + Rendered(items[..i + 1], render) == start + Rendered(items[..i], render) + render(items[i])
  {
    assert items[..i + 1][..i] == items[..i];
  }

  lemma RenderedSnoc<T, R>(items: seq<T>, last: T, render: T -> seq<R>)
    ensures Rendered(items + [last], render) == Rendered(items, render) + render(last)
  {
    assert (items + [last])[..|items|] == items;
  }

  lemma SectionsSnoc(start: seq<Rec>, done: seq<Section>, s: Section, id: string)
    ensures start + SectionRecords(done + [s], id)
         == start + SectionRecords(done, id) + ObjectSection(s.kind, s.listing, id)
  {
    RenderedSnoc(done, s, SectionWriter(id));
    assert start + (SectionRecords(done, id) + ObjectSection(s.kind, s.listing, id))
        == start + SectionRecords(done, id) + ObjectSection(s.kind, s.listing, id);
  }

  lemma DynamicSnoc(done: seq<Section>, ds: seq<Dynamic>, i: nat)
    requires i < |ds|
    ensures done + DynamicSections(ds[..i + 1])
         == done + DynamicSections(ds[..i]) + [Section(ds[i].kind, Listed(ds[i].items))]
  {
  }

  // ---- keys match what was emitted ----------------------------------------------------------------

  /** The identity under which a record's object appears in a key list. */
  function Identity(r: Rec): (t: string) {
    match r
    case InitialContainer(k, _) => KeyText(k)
    case InitialObject(_, o) => o.uid
    case _ => ""
  }

  ghost predicate Identifies(keys: seq<string>, rs: seq<Rec>) {
    |keys| == |rs| && forall i :: 0 <= i < |rs| ==> keys[i] == Identity(rs[i])
  }

  lemma {:induction false} RenderedTogether<T>(items: seq<T>, records: T -> seq<Rec>, keys: T -> seq<string>)
    requires forall x :: x in items ==> Identifies(keys(x), records(x))
    ensures Identifies(Rendered(items, keys), Rendered(items, records))
  {
    if items != [] {
      RenderedTogether(items[..|items| - 1], records, keys);
    }
  }

  /** INITIAL records of one kind; None for containers. */
  ghost predicate AreInitials(kind: Option<string>, rs: seq<Rec>) {
    forall i :: 0 <= i < |rs| ==>
      if kind == None then rs[i].InitialContainer? else rs[i].InitialObject? && rs[i].kind == kind.value
  }

  lemma {:induction false} RenderedAreInitials<T>(items: seq<T>, records: T -> seq<Rec>, kind: Option<string>)
    requires forall x :: x in items ==> AreInitials(kind, records(x))
    ensures AreInitials(kind, Rendered(items, records))
  {
    if items != [] {
      RenderedAreInitials(items[..|items| - 1], records, kind);
    }
  }

  /** INITIAL records of one kind only, a count of exactly these, and a key list that names them one by one in
      the order they were written. */
  ghost predicate IsSectionOf(section: seq<Rec>, rs: seq<Rec>, keys: seq<string>, kind: Option<string>,
                              logKind: string, target: string, cached: nat, id: string)
  {
    && section == rs + [Counted(logKind, cached, |rs|)] + [Keys(id, target, keys)]
    && AreInitials(kind, rs) && Identifies(keys, rs)
  }

  lemma ObjectRecords(kind: string, objs: seq<Obj>)
    ensures var rs := ObjectsRendered(kind, objs);
      AreInitials(Some(kind), rs) && Identifies(UIDKeys(objs), rs) && |rs| == |objs|
  {
    RenderedTogether(objs, InitialsOfObject(kind), UIDOf());
    RenderedAreInitials(objs, InitialsOfObject(kind), Some(kind));
    OneEach(kind, objs);
  }

  lemma ContainerRecords(pods: seq<Pod>)
    ensures AreInitials(None, PodsRendered(pods)) && Identifies(ContainerKeys(pods), PodsRendered(pods))
  {
    RenderedTogether(pods, InitialsOf, KeysOfPod);
    RenderedAreInitials(pods, InitialsOf, None);
  }

  lemma SameLength<T>(items: seq<T>, less: (T, T) -> bool)
    ensures |SortBy(items, less)| == |items|
  {
    SortPermutes(items, less);
  }

  lemma ObjectKeysMatch(kind: string, items: seq<Obj>, id: string)
    ensures var objs := SortBy(items, LessOf(kind));
      && IsSectionOf(ObjectSection(kind, Listed(items), id), ObjectsRendered(kind, objs), UIDKeys(objs), Some(kind),
                     kind, kind, |items|, id)
      && |ObjectsRendered(kind, objs)| == |items|
  {
    SameLength(items, LessOf(kind));
    ObjectRecords(kind, SortBy(items, LessOf(kind)));
  }

  lemma ContainerKeysMatch(items: seq<Pod>, sets: ReplicaSets, id: string)
    ensures var pods := SortBy(items, PodOrder(sets));
      IsSectionOf(ContainerSection(Listed(items), sets, id), PodsRendered(pods), ContainerKeys(pods), None,
                  "Pod", "Container", |items|, id)
  {
    SameLength(items, PodOrder(sets));
    ContainerRecords(SortBy(items, PodOrder(sets)));
  }

  /** Every section is of this form, whatever was listed. */
  lemma KeysMatchRecords(kind: string, listing: Listing<Obj>, pods: Listing<Pod>, sets: ReplicaSets, id: string)
    requires listing.Listed? && pods.Listed?
    ensures exists rs, keys ::
      && IsSectionOf(ObjectSection(kind, listing, id), rs, keys, Some(kind), kind, kind, |listing.items|, id)
      && |rs| == |listing.items|
    ensures exists rs, keys ::
      IsSectionOf(ContainerSection(pods, sets, id), rs, keys, None, "Pod", "Container", |pods.items|, id)
  {
    ObjectKeysMatch(kind, listing.items, id);
    ContainerKeysMatch(pods.items, sets, id);
  }

  lemma {:induction false} OneEach(kind: string, objs: seq<Obj>)
    ensures |ObjectsRendered(kind, objs)| == |objs|
  {
    if objs != [] {
      OneEach(kind, objs[..|objs| - 1]);
    }
  }

  // ---- independence of the informers' list order ---------------------------------------------------

  ghost predicate DistinctNamesIn(kind: string, objs: seq<Obj>) {
    forall a, b | a in objs && b in objs ::
      a.name == b.name && (kind == "IngressClass" || a.namespace == b.namespace) ==> a == b
  }

  lemma NamespacedIsStrict(a: Obj, b: Obj)
    ensures NamespacedLess(a, b) ==> !NamespacedLess(b, a)
    ensures a.namespace != b.namespace || a.name != b.name ==> NamespacedLess(a, b) || NamespacedLess(b, a)
  {
    StrLessIsStrict(a.namespace, b.namespace);
    StrLessIsStrict(a.name, b.name);
  }

  lemma NamespacedIsTransitive(a: Obj, b: Obj, c: Obj)
    requires NamespacedLess(a, b) && NamespacedLess(b, c)
    ensures NamespacedLess(a, c)
  {
    StrLessIsStrict(a.namespace, c.namespace);
    if a.namespace == b.namespace == c.namespace {
      StrLessIsTransitive(a.name, b.name, c.name);
    } else if a.namespace != b.namespace && b.namespace != c.namespace {
      StrLessIsTransitive(a.namespace, b.namespace, c.namespace);
      StrLessIsStrict(a.namespace, b.namespace);
    }
  }

  function ObjectSortKey(kind: string, o: Obj): (key: seq<string>) {
    if kind == "IngressClass" then [o.name] else [o.namespace, o.name]
  }

  /** Objects are ordered by namespace and then name, ingress classes by name. */
  lemma ObjectOrderIsKeyLess(kind: string, a: Obj, b: Obj)
    ensures LessOf(kind)(a, b) <==> KeyLess(ObjectSortKey(kind, a), ObjectSortKey(kind, b))
  {
    KeyLessUnfolds(a.namespace, [a.name], b.namespace, [b.name]);
    KeyLessUnfolds(a.name, [], b.name, []);
    StrLessIsStrict(a.name, b.name);
    assert [a.namespace] + [a.name] == [a.namespace, a.name] && [b.namespace] + [b.name] == [b.namespace, b.name];
    assert [a.name] + [] == [a.name] && [b.name] + [] == [b.name];
  }

  /** Every kind's order is a strict total order on objects with distinct names (within a namespace). */
  lemma ObjectOrderIsTotal(kind: string, objs: seq<Obj>)
    requires DistinctNamesIn(kind, objs)
    ensures IsTotalOn(LessOf(kind), objs)
  {
    forall x: Obj, y: Obj
      ensures LessOf(kind)(x, y) ==> !LessOf(kind)(y, x)
      ensures x in objs && y in objs && x != y ==> LessOf(kind)(x, y) || LessOf(kind)(y, x)
    {
      NamespacedIsStrict(x, y);
      StrLessIsStrict(x.name, y.name);
    }
    forall x: Obj, y: Obj, z: Obj | LessOf(kind)(x, y) && LessOf(kind)(y, z) ensures LessOf(kind)(x, z) {
      if kind == "IngressClass" {
        StrLessIsTransitive(x.name, y.name, z.name);
      } else {
        NamespacedIsTransitive(x, y, z);
      }
    }
  }

  /** The records of a kind are the same for every order in which the informer may return its objects, and
      are those of any sorted arrangement. */
  lemma SectionsIgnoreListOrder(kind: string, a: seq<Obj>, b: seq<Obj>, p: seq<Pod>, q: seq<Pod>,
                                sets: ReplicaSets, id: string)
    requires DistinctNamesIn(kind, a) && multiset(a) == multiset(b)
    requires DistinctPodNames(p) && multiset(p) == multiset(q)
    ensures ObjectSection(kind, Listed(a), id) == ObjectSection(kind, Listed(b), id)
    ensures ContainerSection(Listed(p), sets, id) == ContainerSection(Listed(q), sets, id)
    ensures IsSorted(SortBy(a, LessOf(kind)), LessOf(kind)) && multiset(SortBy(a, LessOf(kind))) == multiset(a)
    ensures IsSorted(SortBy(p, PodOrder(sets)), PodOrder(sets)) && multiset(SortBy(p, PodOrder(sets))) == multiset(p)
  {
    ObjectOrderIsTotal(kind, a);
    SortPermutes(a, LessOf(kind));
    SortSorts(a, LessOf(kind));
    SortIgnoresInputOrder(a, b, SortBy(a, LessOf(kind)), LessOf(kind));
    PodLessIsTotal(sets, p);
    SortPermutes(p, PodOrder(sets));
    SortSorts(p, PodOrder(sets));
    SortIgnoresInputOrder(p, q, SortBy(p, PodOrder(sets)), PodOrder(sets));
  }
}
