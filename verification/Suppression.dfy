/** What the one-directional comparison of image ids decides (pod.go:82-156). */
module Suppression {
  import opened Common
  import opened Pods

  predicate HasStatus(list: seq<Status>, name: string) {
    exists i :: 0 <= i < |list| && list[i].name == name
  }

  /** A container without any status before has a resolved image after. */
  predicate IsLate(containers: seq<Container>, before: seq<Status>, after: seq<Status>) {
    exists i :: 0 <= i < |containers| &&
      !HasStatus(before, containers[i].name) && StatusImageID(after, containers[i].name) != ""
  }

  predicate HasLateStatus(a: Pod, b: Pod) {
    || IsLate(b.initContainers, a.initStatuses, b.initStatuses)
    || IsLate(b.containers, a.statuses, b.statuses)
    || IsLate(b.ephemeralContainers, a.ephemeralStatuses, b.ephemeralStatuses)
  }

  lemma HasStatusCons(list: seq<Status>, name: string)
    requires list != []
    ensures HasStatus(list, name) <==> list[0].name == name || HasStatus(list[1..], name)
  {
    if HasStatus(list, name) && list[0].name != name {
      var i :| 0 <= i < |list| && list[i].name == name;
      assert list[1..][i - 1].name == name;
    }
  }

  /** Position i holds the first status of that name. */
  predicate IsFirstStatus(list: seq<Status>, name: string, i: int) {
    0 <= i < |list| && list[i].name == name && forall k :: 0 <= k < i ==> list[k].name != name
  }

  /** The lookup finds the image id of the first status of that name, and "" when there is none. */
  lemma {:induction false} LookupIsFirst(list: seq<Status>, name: string)
    ensures if HasStatus(list, name)
            then exists i :: IsFirstStatus(list, name, i) && list[i].imageID == StatusImageID(list, name)
            else StatusImageID(list, name) == ""
  {
    if list != [] {
      HasStatusCons(list, name);
      if list[0].name != name {
        LookupIsFirst(list[1..], name);
        if HasStatus(list, name) {
          var i :| IsFirstStatus(list[1..], name, i) && list[1..][i].imageID == StatusImageID(list[1..], name);
          assert IsFirstStatus(list, name, i + 1);
        }
      } else {
        assert IsFirstStatus(list, name, 0);
      }
    }
  }

  lemma SameIDsAgreeWhereReported(a: seq<Status>, b: seq<Status>, name: string)
    requires SameImageIDs(a, b) && HasStatus(a, name)
    ensures StatusImageID(a, name) == StatusImageID(b, name)
  {
    LookupIsFirst(a, name);
  }

  lemma SameRefsUnlessLate(kind: string, ca: seq<Container>, cb: seq<Container>, a: seq<Status>, b: seq<Status>)
    requires SameContainers(ca, cb) && SameImageIDs(a, b)
    ensures RefsOf(kind, ca, a) == RefsOf(kind, cb, b) <==> !IsLate(cb, a, b)
  {
    forall i | 0 <= i < |cb|
      ensures StatusImageID(a, cb[i].name) == StatusImageID(b, cb[i].name)
              <==> HasStatus(a, cb[i].name) || StatusImageID(b, cb[i].name) == ""
    {
      LookupIsFirst(a, cb[i].name);
      if HasStatus(a, cb[i].name) {
        SameIDsAgreeWhereReported(a, b, cb[i].name);
      }
    }
    if IsLate(cb, a, b) {
      var i :| 0 <= i < |cb| && !HasStatus(a, cb[i].name) && StatusImageID(b, cb[i].name) != "";
      assert RefsOf(kind, ca, a)[i].id != RefsOf(kind, cb, b)[i].id;
    } else {
      assert forall i :: 0 <= i < |cb| ==> RefsOf(kind, ca, a)[i] == RefsOf(kind, cb, b)[i];
    }
  }

  lemma ConcatInjective<T>(a: seq<T>, b: seq<T>, x: seq<T>, y: seq<T>)
    requires |a| == |x|
    ensures a + b == x + y <==> a == x && b == y
  {
    assert (a + b)[..|a|] == a && (a + b)[|a|..] == b;
    assert (x + y)[..|x|] == x && (x + y)[|x|..] == y;
  }

  /** Pods that compare as the same have the same containers exactly when no container went from "no status"
      to a resolved image. */
  lemma SuppressionIsSoundUnlessLate(a: Pod, b: Pod)
    requires SamePodImages(a, b)
    ensures Containers(a) == Containers(b) <==> !HasLateStatus(a, b)
  {
    SameRefsUnlessLate("init", a.initContainers, b.initContainers, a.initStatuses, b.initStatuses);
    SameRefsUnlessLate("main", a.containers, b.containers, a.statuses, b.statuses);
    SameRefsUnlessLate("ephemeral", a.ephemeralContainers, b.ephemeralContainers,
                       a.ephemeralStatuses, b.ephemeralStatuses);
    var ai, bi := RefsOf("init", a.initContainers, a.initStatuses), RefsOf("init", b.initContainers, b.initStatuses);
    var am, bm := RefsOf("main", a.containers, a.statuses), RefsOf("main", b.containers, b.statuses);
    var ae := RefsOf("ephemeral", a.ephemeralContainers, a.ephemeralStatuses);
    var be := RefsOf("ephemeral", b.ephemeralContainers, b.ephemeralStatuses);
    ConcatInjective(ai + am, ae, bi + bm, be);
    ConcatInjective(ai, am, bi, bm);
  }

  // ---- pigeonhole ---------------------------------------------------------------------------------

  ghost predicate DistinctNames(list: seq<Status>) {
    forall i, j :: 0 <= i < j < |list| ==> list[i].name != list[j].name
  }

  function Names(list: seq<Status>): (names: set<string>)
    ensures forall n :: n in names <==> HasStatus(list, n)
  {
    set i | 0 <= i < |list| :: list[i].name
  }

  lemma DistinctSnoc(list: seq<Status>, last: Status)
    ensures DistinctNames(list + [last]) <==> DistinctNames(list) && !HasStatus(list, last.name)
  {
    var all := list + [last];
    assert all[|list|] == last;
    assert forall i :: 0 <= i < |list| ==> all[i] == list[i];
    if DistinctNames(all) {
      forall i, j | 0 <= i < j < |list| ensures list[i].name != list[j].name {
        assert all[i].name != all[j].name;
      }
    }
  }

  lemma {:induction false} NameCount(list: seq<Status>)
    ensures |Names(list)| <= |list|
    ensures DistinctNames(list) <==> |Names(list)| == |list|
  {
    if list == [] {
      assert Names(list) == {};
    } else {
      var front, last := list[..|list| - 1], list[|list| - 1];
      assert list == front + [last];
      NameCount(front);
      DistinctSnoc(front, last);
      NamesSnoc(front, last);
    }
  }

  lemma NamesSnoc(list: seq<Status>, last: Status)
    ensures Names(list + [last]) == Names(list) + {last.name}
    ensures |Names(list + [last])| == |Names(list)| + if HasStatus(list, last.name) then 0 else 1
  {
    var all := list + [last];
    assert all[|list|] == last;
    assert forall i :: 0 <= i < |list| ==> all[i] == list[i];
    assert Names(all) == Names(list) + {last.name};
  }

  lemma SubsetOfSameSize<T>(a: set<T>, b: set<T>)
    requires a <= b && |a| >= |b|
    ensures a == b
  {
    assert b == a + (b - a);
  }

  /** If statuses are only ever added, and each name is reported once, equal lengths leave no room for a new
      name: nothing is late. */
  lemma GrowingStatusesAreNotLate(containers: seq<Container>, before: seq<Status>, after: seq<Status>)
    requires SameImageIDs(before, after)
    requires DistinctNames(before) && Names(before) <= Names(after)
    ensures !IsLate(containers, before, after)
  {
    NameCount(before);
    NameCount(after);
    SubsetOfSameSize(Names(before), Names(after));
    forall i | 0 <= i < |containers| && !HasStatus(before, containers[i].name)
      ensures StatusImageID(after, containers[i].name) == ""
    {
      assert containers[i].name !in Names(after);
      LookupIsFirst(after, containers[i].name);
    }
  }

  predicate HasContainer(containers: seq<Container>, name: string) {
    exists i :: 0 <= i < |containers| && containers[i].name == name
  }

  /** One status for each container, and none for anything else. */
  ghost predicate ReportsExactly(list: seq<Status>, containers: seq<Container>) {
    && DistinctNames(list)
    && (forall i :: 0 <= i < |list| ==> HasContainer(containers, list[i].name))
    && (forall i :: 0 <= i < |containers| ==> HasStatus(list, containers[i].name))
  }

  ghost predicate FullyReported(p: Pod) {
    && ReportsExactly(p.initStatuses, p.initContainers)
    && ReportsExactly(p.statuses, p.containers)
    && ReportsExactly(p.ephemeralStatuses, p.ephemeralContainers)
  }

  lemma SameRefsSameIDs(kind: string, ca: seq<Container>, cb: seq<Container>, a: seq<Status>, b: seq<Status>)
    requires ReportsExactly(a, ca) && ReportsExactly(b, cb)
    ensures SameContainers(ca, cb) && SameImageIDs(a, b) <==> RefsOf(kind, ca, a) == RefsOf(kind, cb, b)
  {
    if SameContainers(ca, cb) && SameImageIDs(a, b) {
      SameRefsUnlessLate(kind, ca, cb, a, b);
    }
    if RefsOf(kind, ca, a) == RefsOf(kind, cb, b) {
      SameRefsSameContainers(kind, ca, cb, a, b);
      SameNamesSameLength(ca, cb, a, b);
      forall i | 0 <= i < |a| ensures a[i].imageID == StatusImageID(b, a[i].name) {
        DistinctLookup(a, i);
        var k :| 0 <= k < |ca| && ca[k].name == a[i].name;
        assert RefsOf(kind, ca, a)[k].id == RefsOf(kind, cb, b)[k].id;
      }
    }
  }

  lemma SameRefsSameContainers(kind: string, ca: seq<Container>, cb: seq<Container>, a: seq<Status>, b: seq<Status>)
    requires RefsOf(kind, ca, a) == RefsOf(kind, cb, b)
    ensures SameContainers(ca, cb)
  {
    forall i | 0 <= i < |ca| ensures ca[i].name == cb[i].name && ca[i].image == cb[i].image {
      assert RefsOf(kind, ca, a)[i] == RefsOf(kind, cb, b)[i];
    }
  }

  lemma SameNamesSameLength(ca: seq<Container>, cb: seq<Container>, a: seq<Status>, b: seq<Status>)
    requires ReportsExactly(a, ca) && ReportsExactly(b, cb) && SameContainers(ca, cb)
    ensures |a| == |b|
  {
    assert forall n :: HasContainer(ca, n) <==> HasContainer(cb, n);
    assert forall n :: HasStatus(a, n) <==> HasContainer(ca, n);
    assert forall n :: HasStatus(b, n) <==> HasContainer(cb, n);
    assert Names(a) == Names(b);
    NameCount(a);
    NameCount(b);
  }

  lemma DistinctLookup(list: seq<Status>, i: nat)
    requires DistinctNames(list) && i < |list|
    ensures StatusImageID(list, list[i].name) == list[i].imageID
  {
    LookupIsFirst(list, list[i].name);
  }

  /** With every container reported exactly once, the comparison decides equality of phase and images; so it
      is an equivalence although it looks at one side's statuses only. */
  lemma SamePodImagesDecidesEquality(a: Pod, b: Pod)
    requires FullyReported(a) && FullyReported(b)
    ensures SamePodImages(a, b) <==> a.phase == b.phase && Containers(a) == Containers(b)
  {
    SameRefsSameIDs("init", a.initContainers, b.initContainers, a.initStatuses, b.initStatuses);
    SameRefsSameIDs("main", a.containers, b.containers, a.statuses, b.statuses);
    SameRefsSameIDs("ephemeral", a.ephemeralContainers, b.ephemeralContainers,
                    a.ephemeralStatuses, b.ephemeralStatuses);
    if a.phase == b.phase && Containers(a) == Containers(b) {
      SameContainersByKind(a, b);
    }
  }

  ghost predicate AllOfKind(refs: seq<ContainerRef>, kind: string) {
    forall i :: 0 <= i < |refs| ==> refs[i].kind == kind
  }

  lemma KindsSeparate(a: seq<ContainerRef>, b: seq<ContainerRef>, x: seq<ContainerRef>, y: seq<ContainerRef>,
                      kind: string)
    requires a + b == x + y && AllOfKind(a, kind) && AllOfKind(x, kind)
    requires forall i :: 0 <= i < |b| ==> b[i].kind != kind
    requires forall i :: 0 <= i < |y| ==> y[i].kind != kind
    ensures a == x && b == y
  {
    var i := Min(|a|, |x|);
    if i < |a + b| {
      assert (a + b)[i] == (x + y)[i];
    }
    assert |a + b| == |x + y|;
    assert |a| == |x|;
    ConcatInjective(a, b, x, y);
  }

  lemma SameContainersByKind(a: Pod, b: Pod)
    requires Containers(a) == Containers(b)
    ensures RefsOf("init", a.initContainers, a.initStatuses) == RefsOf("init", b.initContainers, b.initStatuses)
    ensures RefsOf("main", a.containers, a.statuses) == RefsOf("main", b.containers, b.statuses)
    ensures RefsOf("ephemeral", a.ephemeralContainers, a.ephemeralStatuses)
         == RefsOf("ephemeral", b.ephemeralContainers, b.ephemeralStatuses)
  {
    var ai, bi := RefsOf("init", a.initContainers, a.initStatuses), RefsOf("init", b.initContainers, b.initStatuses);
    var am, bm := RefsOf("main", a.containers, a.statuses), RefsOf("main", b.containers, b.statuses);
    var ae := RefsOf("ephemeral", a.ephemeralContainers, a.ephemeralStatuses);
    var be := RefsOf("ephemeral", b.ephemeralContainers, b.ephemeralStatuses);
    assert ai + am + ae == ai + (am + ae) && bi + bm + be == bi + (bm + be);
    KindsSeparate(ai, am + ae, bi, bm + be, "init");
    KindsSeparate(am, ae, bm, be, "main");
  }

  lemma {:induction false} SamePodImagesIsEquivalence(a: Pod, b: Pod, c: Pod)
    requires FullyReported(a) && FullyReported(b) && FullyReported(c)
    ensures SamePodImages(a, a)
    ensures SamePodImages(a, b) ==> SamePodImages(b, a)
    ensures SamePodImages(a, b) && SamePodImages(b, c) ==> SamePodImages(a, c)
  {
    SamePodImagesDecidesEquality(a, a);
    SamePodImagesDecidesEquality(a, b);
    SamePodImagesDecidesEquality(b, a);
    SamePodImagesDecidesEquality(b, c);
    SamePodImagesDecidesEquality(a, c);
  }
}
