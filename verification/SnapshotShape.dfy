/** The outline of a full snapshot: its envelope and the order of its key lists (snapshot.go:71-108). */
module SnapshotShape {
  import opened Common
  import opened Pods
  import opened Ordering
  import opened Snapshots

  /** Records between the brackets of snapshot `id`. */
  ghost predicate AreInside(recs: seq<Rec>, id: string) {
    forall i :: 0 <= i < |recs| ==> !recs[i].Begin? && !recs[i].End? && (recs[i].Keys? ==> recs[i].id == id)
  }

  lemma {:induction false} RenderedInside<T>(items: seq<T>, render: T -> seq<Rec>, id: string)
    requires forall x :: x in items ==> AreInside(render(x), id)
    ensures AreInside(Rendered(items, render), id)
  {
    if items != [] {
      RenderedInside(items[..|items| - 1], render, id);
    }
  }

  lemma ContainersInside(listing: Listing<Pod>, sets: ReplicaSets, id: string)
    ensures AreInside(ContainerSection(listing, sets, id), id)
  {
    if listing.Listed? {
      RenderedInside(SortBy(listing.items, PodOrder(sets)), InitialsOf, id);
    }
  }

  lemma ObjectsInside(kind: string, listing: Listing<Obj>, id: string)
    ensures AreInside(ObjectSection(kind, listing, id), id)
  {
    if listing.Listed? {
      RenderedInside(SortBy(listing.items, LessOf(kind)), InitialsOfObject(kind), id);
    }
  }

  lemma PodsInside(pods: Option<Listing<Pod>>, sets: ReplicaSets, id: string)
    ensures AreInside(PodRecordsOf(pods, sets, id), id)
  {
    if pods.Some? {
      ContainersInside(pods.value, sets, id);
    }
  }

  lemma SectionsInside(sections: seq<Section>, id: string)
    ensures AreInside(SectionRecords(sections, id), id)
  {
    forall s ensures AreInside(SectionWriter(id)(s), id) {
      ObjectsInside(s.kind, s.listing, id);
    }
    RenderedInside(sections, SectionWriter(id), id);
  }

  lemma Brackets(first: Rec, pods: seq<Rec>, rest: seq<Rec>, last: Rec)
    ensures var recs := [first] + pods + rest + [last];
      |recs| >= 2 && recs[0] == first && recs[|recs| - 1] == last && recs[1..|recs| - 1] == pods + rest
  {
  }

  /** A snapshot begins and ends with its own brackets, has no others, and all its key lists carry its id. */
  lemma SnapshotIsBracketed(rs: Resources, sets: ReplicaSets, id: string, snapshotType: string)
    ensures var recs := FullSnapshot(rs, sets, id, snapshotType);
      && |recs| >= 2 && recs[0] == Begin(id, snapshotType) && recs[|recs| - 1] == End(id)
      && AreInside(recs[1..|recs| - 1], id)
  {
    PodsInside(rs.pods, sets, id);
    SectionsInside(Sections(rs), id);
    Brackets(Begin(id, snapshotType), PodRecordsOf(rs.pods, sets, id), SectionRecords(Sections(rs), id), End(id));
  }

  // ---- the order of the key lists -----------------------------------------------------------------

  function Targets(recs: seq<Rec>): (kinds: seq<string>) {
    if recs == [] then [] else
      Targets(recs[..|recs| - 1]) + if recs[|recs| - 1].Keys? then [recs[|recs| - 1].targetKind] else []
  }

  lemma {:induction false} TargetsOfConcat(a: seq<Rec>, b: seq<Rec>)
    ensures Targets(a + b) == Targets(a) + Targets(b)
  {
    if b == [] {
      assert a + b == a;
    } else {
      assert (a + b)[..|a + b| - 1] == a + b[..|b| - 1];
      TargetsOfConcat(a, b[..|b| - 1]);
    }
  }

  lemma {:induction false} NoTargets(recs: seq<Rec>)
    requires forall i :: 0 <= i < |recs| ==> !recs[i].Keys?
    ensures Targets(recs) == []
  {
    if recs != [] {
      NoTargets(recs[..|recs| - 1]);
    }
  }

  lemma TargetOfOne(r: Rec)
    ensures Targets([r]) == if r.Keys? then [r.targetKind] else []
  {
    assert [r][..0] == [];
  }

  lemma TargetOfSection(initials: seq<Rec>, count: Rec, keys: Rec)
    requires (forall i :: 0 <= i < |initials| ==> !initials[i].Keys?) && count.Counted? && keys.Keys?
    ensures Targets(initials + [count] + [keys]) == [keys.targetKind]
  {
    NoTargets(initials);
    TargetOfOne(count);
    TargetOfOne(keys);
    TargetsOfConcat(initials, [count]);
    TargetsOfConcat(initials + [count], [keys]);
  }

  /** A kind that is listed has one key list; one whose listing failed leaves an error and nothing else. */
  lemma ObjectTarget(kind: string, listing: Listing<Obj>, id: string)
    ensures Targets(ObjectSection(kind, listing, id)) == if listing.Listed? then [kind] else []
    ensures listing.Failed? ==> |ObjectSection(kind, listing, id)| == 1 && ObjectSection(kind, listing, id)[0].ListError?
  {
    if listing.Listed? {
      ObjectKeysMatch(kind, listing.items, id);
      var objs := SortBy(listing.items, LessOf(kind));
      var initials := ObjectsRendered(kind, objs);
      TargetOfSection(initials, Counted(kind, |objs|, |initials|), Keys(id, kind, UIDKeys(objs)));
    } else {
      TargetOfOne(ListError(kind));
    }
  }

  lemma ContainerTarget(listing: Listing<Pod>, sets: ReplicaSets, id: string)
    ensures Targets(ContainerSection(listing, sets, id)) == if listing.Listed? then ["Container"] else []
    ensures listing.Failed? ==> |ContainerSection(listing, sets, id)| == 1 && ContainerSection(listing, sets, id)[0].ListError?
  {
    if listing.Listed? {
      ContainerKeysMatch(listing.items, sets, id);
      var pods := SortBy(listing.items, PodOrder(sets));
      var initials := PodsRendered(pods);
      TargetOfSection(initials, Counted("Pod", |pods|, |initials|), Keys(id, "Container", ContainerKeys(pods)));
    } else {
      TargetOfOne(ListError("pods"));
    }
  }

  /** The kinds of the sections that were listed. */
  function ListedKinds(sections: seq<Section>): (kinds: seq<string>) {
    if sections == [] then [] else
      ListedKinds(sections[..|sections| - 1])
      + if sections[|sections| - 1].listing.Listed? then [sections[|sections| - 1].kind] else []
  }

  lemma {:induction false} SectionTargets(sections: seq<Section>, id: string)
    ensures Targets(SectionRecords(sections, id)) == ListedKinds(sections)
  {
    if sections != [] {
      var front, last := sections[..|sections| - 1], sections[|sections| - 1];
      SectionTargets(front, id);
      ObjectTarget(last.kind, last.listing, id);
      TargetsOfConcat(SectionRecords(front, id), ObjectSection(last.kind, last.listing, id));
      assert SectionRecords(sections, id) == SectionRecords(front, id) + ObjectSection(last.kind, last.listing, id);
    }
  }

  lemma {:induction false} KindsOfConcat(a: seq<Section>, b: seq<Section>)
    ensures ListedKinds(a + b) == ListedKinds(a) + ListedKinds(b)
  {
    if b == [] {
      assert a + b == a;
    } else {
      assert (a + b)[..|a + b| - 1] == a + b[..|b| - 1];
      KindsOfConcat(a, b[..|b| - 1]);
    }
  }

  /** A kind's place in the order, taken only if it was listed. */
  function IfListed<T>(kind: string, listing: Option<Listing<T>>): (kinds: seq<string>) {
    if listing.Some? && listing.value.Listed? then [kind] else []
  }

  lemma GivenKind(kind: string, listing: Option<Listing<Obj>>)
    ensures ListedKinds(Given(kind, listing)) == IfListed(kind, listing)
  {
    if listing.Some? {
      assert Given(kind, listing)[..0] == [];
    }
  }

  function FoundKinds(ds: seq<Dynamic>): (kinds: seq<string>) {
    seq(|ds|, i requires 0 <= i < |ds| => ds[i].kind)
  }

  lemma {:induction false} DynamicKinds(ds: seq<Dynamic>)
    ensures ListedKinds(DynamicSections(ds)) == FoundKinds(ds)
  {
    if ds != [] {
      DynamicKinds(ds[..|ds| - 1]);
      assert DynamicSections(ds)[..|ds| - 1] == DynamicSections(ds[..|ds| - 1]);
    }
  }

  lemma KindsInOrder(rs: Resources)
    ensures ListedKinds(Sections(rs))
         == IfListed("Service", rs.services) + IfListed("EndpointSlice", rs.endpointSlices)
            + IfListed("Ingress", rs.ingresses) + IfListed("IngressClass", rs.ingressClasses)
            + FoundKinds(rs.gatewayAPI) + FoundKinds(rs.traefik)
  {
    DynamicKinds(rs.gatewayAPI);
    DynamicKinds(rs.traefik);
    var a, b := Given("Service", rs.services), Given("EndpointSlice", rs.endpointSlices);
    var c, d := Given("Ingress", rs.ingresses), Given("IngressClass", rs.ingressClasses);
    var e, f := DynamicSections(rs.gatewayAPI), DynamicSections(rs.traefik);
    GivenKind("Service", rs.services);
    GivenKind("EndpointSlice", rs.endpointSlices);
    GivenKind("Ingress", rs.ingresses);
    GivenKind("IngressClass", rs.ingressClasses);
    KindsOfConcat(a, b);
    KindsOfConcat(a + b, c);
    KindsOfConcat(a + b + c, d);
    KindsOfConcat(a + b + c + d, e);
    KindsOfConcat(a + b + c + d + e, f);
  }

  lemma EmptyAround<T>(pods: seq<T>, rest: seq<T>)
    ensures [] + pods + rest + [] == pods + rest
  {
  }

  lemma EnvelopeTargets(first: Rec, pods: seq<Rec>, rest: seq<Rec>, last: Rec)
    requires !first.Keys? && !last.Keys?
    ensures Targets([first] + pods + rest + [last]) == Targets(pods) + Targets(rest)
  {
    TargetOfOne(first);
    TargetOfOne(last);
    TargetsOfConcat([first], pods);
    TargetsOfConcat([first] + pods, rest);
    TargetsOfConcat([first] + pods + rest, [last]);
    EmptyAround(Targets(pods), Targets(rest));
  }

  lemma PodTargets(pods: Option<Listing<Pod>>, sets: ReplicaSets, id: string)
    ensures Targets(PodRecordsOf(pods, sets, id)) == IfListed("Container", pods)
  {
    if pods.Some? {
      ContainerTarget(pods.value, sets, id);
    }
  }

  /** A snapshot's key lists come in one order: containers, services, endpoint slices, ingresses, ingress
      classes, then the discovered kinds in the order of discovery; exactly one for each kind that was listed. */
  lemma KeyListsComeInOrder(rs: Resources, sets: ReplicaSets, id: string, snapshotType: string)
    ensures Targets(FullSnapshot(rs, sets, id, snapshotType))
         == IfListed("Container", rs.pods)
            + (IfListed("Service", rs.services) + IfListed("EndpointSlice", rs.endpointSlices)
               + IfListed("Ingress", rs.ingresses) + IfListed("IngressClass", rs.ingressClasses)
               + FoundKinds(rs.gatewayAPI) + FoundKinds(rs.traefik))
  {
    var pods, rest := PodRecordsOf(rs.pods, sets, id), SectionRecords(Sections(rs), id);
    EnvelopeTargets(Begin(id, snapshotType), pods, rest, End(id));
    PodTargets(rs.pods, sets, id);
    SectionTargets(Sections(rs), id);
    KindsInOrder(rs);
  }
}
