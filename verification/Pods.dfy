/** Pods, their containers and the records emitted for them (pod.go). */
module Pods {
  import opened Common
  import opened Records
  import opened Images

  datatype OwnerRef = OwnerRef(kind: string, name: string, controller: Option<bool>)
  datatype Container = Container(name: string, image: string)
  datatype Status = Status(name: string, imageID: string)

  datatype Pod = Pod(
    namespace: string, name: string, uid: string, phase: string,
    labels: map<string, string>, owners: seq<OwnerRef>,
    initContainers: seq<Container>, containers: seq<Container>, ephemeralContainers: seq<Container>,
    initStatuses: seq<Status>, statuses: seq<Status>, ephemeralStatuses: seq<Status>)

  /** The ReplicaSet lister: owner references by (namespace, name). None when there is no lister. */
  type ReplicaSets = Option<map<(string, string), seq<OwnerRef>>>

  /** A container with the image it asks for and the image it got. */
  datatype ContainerRef = ContainerRef(kind: string, name: string, spec: string, id: string)

  // ---- owner --------------------------------------------------------------------------------------

  predicate IsController(o: OwnerRef) {
    o.controller == Some(true)
  }

  /** The first controlling owner's (kind, name), or `otherwise`. */
  function FirstController(owners: seq<OwnerRef>, otherwise: (string, string)): (o: (string, string)) {
    if owners == [] then otherwise
    else if IsController(owners[0]) then (owners[0].kind, owners[0].name)
    else FirstController(owners[1..], otherwise)
  }

  function DirectOwner(p: Pod): (o: (string, string)) {
    var o := FirstController(p.owners, ("-", "-"));
    if o.0 == "-" && |p.owners| > 0 then (p.owners[0].kind, p.owners[0].name) else o
  }

  function Owner(p: Pod, sets: ReplicaSets): (o: (string, string)) {
    var direct := DirectOwner(p);
    if direct.0 == "ReplicaSet" && sets.Some? && (p.namespace, direct.1) in sets.value
    then FirstController(sets.value[(p.namespace, direct.1)], direct)
    else direct
  }

  method ControllerOf(owners: seq<OwnerRef>, otherwise: (string, string)) returns (kind: string, name: string)
    ensures (kind, name) == FirstController(owners, otherwise)
  {
    kind, name := otherwise.0, otherwise.1;
    for i := 0 to |owners|
      invariant (kind, name) == otherwise
      invariant FirstController(owners, otherwise) == FirstController(owners[i..], otherwise)
    {
      if IsController(owners[i]) {
        kind, name := owners[i].kind, owners[i].name;
        return;
      }
    }
  }

  method PodOwner(p: Pod, sets: ReplicaSets) returns (kind: string, name: string)
    ensures (kind, name) == Owner(p, sets)
  {
    kind, name := ControllerOf(p.owners, ("-", "-"));
    if kind == "-" && |p.owners| > 0 {
      kind, name := p.owners[0].kind, p.owners[0].name;
    }
    if kind == "ReplicaSet" && sets.Some? {
      if (p.namespace, name) in sets.value {
        kind, name := ControllerOf(sets.value[(p.namespace, name)], (kind, name));
      }
    }
  }

  predicate IsFirstController(owners: seq<OwnerRef>, i: int) {
    && 0 <= i < |owners| && owners[i].controller == Some(true)
    && forall k :: 0 <= k < i ==> owners[k].controller != Some(true)
  }

  lemma {:induction false} FirstControllerIsFirst(owners: seq<OwnerRef>, otherwise: (string, string))
    ensures forall i :: IsFirstController(owners, i) ==>
              FirstController(owners, otherwise) == (owners[i].kind, owners[i].name)
    ensures (forall i :: 0 <= i < |owners| ==> owners[i].controller != Some(true)) ==>
              FirstController(owners, otherwise) == otherwise
  {
    if owners != [] && !IsController(owners[0]) {
      FirstControllerIsFirst(owners[1..], otherwise);
      forall i | IsFirstController(owners, i)
        ensures FirstController(owners, otherwise) == (owners[i].kind, owners[i].name)
      {
        assert IsFirstController(owners[1..], i - 1);
      }
    }
  }

  /** The owners of the ReplicaSet that owns the pod directly, as far as the lister knows it. */
  function SetOwners(p: Pod, sets: ReplicaSets, name: string): (owners: Option<seq<OwnerRef>>) {
    if sets.Some? && (p.namespace, name) in sets.value then Some(sets.value[(p.namespace, name)]) else None
  }

  /** The first controller, or the first owner when none controls; "-" stands for no kind. */
  ghost predicate IsDirectOwner(owners: seq<OwnerRef>, i: int) {
    && 0 <= i < |owners|
    && ((IsFirstController(owners, i) && owners[i].kind != "-")
        || (i == 0 && forall k :: IsFirstController(owners, k) ==> owners[k].kind == "-"))
  }

  lemma {:induction false} SomeFirstController(owners: seq<OwnerRef>)
    ensures (exists k :: IsFirstController(owners, k)) || forall k :: 0 <= k < |owners| ==> owners[k].controller != Some(true)
  {
    if owners != [] {
      var front := owners[..|owners| - 1];
      SomeFirstController(front);
      if k :| IsFirstController(front, k) {
        assert IsFirstController(owners, k);
      } else {
        assert IsController(owners[|owners| - 1]) ==> IsFirstController(owners, |owners| - 1);
      }
    }
  }

  /** Who owns a pod: nobody; else its direct owner, whichever that is. A ReplicaSet
      that is listed and has a controller of its own is never the answer: its first controller is. */
  lemma OwnerIsController(p: Pod, sets: ReplicaSets, i: nat)
    requires p.owners == [] || IsDirectOwner(p.owners, i)
    ensures p.owners == [] ==> Owner(p, sets) == ("-", "-")
    ensures p.owners != [] ==>
      var direct := p.owners[i];
      var above := if direct.kind == "ReplicaSet" then SetOwners(p, sets, direct.name) else None;
      && (above == None ==> Owner(p, sets) == (direct.kind, direct.name))
      && (above.Some? ==> forall j :: IsFirstController(above.value, j) ==>
            Owner(p, sets) == (above.value[j].kind, above.value[j].name))
      && (above.Some? && (forall j :: 0 <= j < |above.value| ==> above.value[j].controller != Some(true)) ==>
            Owner(p, sets) == (direct.kind, direct.name))
  {
    FirstControllerIsFirst(p.owners, ("-", "-"));
    SomeFirstController(p.owners);
    var direct := DirectOwner(p);
    if direct.0 == "ReplicaSet" && SetOwners(p, sets, direct.1).Some? {
      FirstControllerIsFirst(SetOwners(p, sets, direct.1).value, direct);
    }
  }

  // ---- containers ---------------------------------------------------------------------------------

  function StatusImageID(list: seq<Status>, name: string): (id: string) {
    if list == [] then "" else if list[0].name == name then list[0].imageID else StatusImageID(list[1..], name)
  }

  function RefsOf(kind: string, containers: seq<Container>, statuses: seq<Status>): (refs: seq<ContainerRef>)
    ensures |refs| == |containers|
  {
    seq(|containers|, i requires 0 <= i < |containers| =>
      ContainerRef(kind, containers[i].name, containers[i].image, StatusImageID(statuses, containers[i].name)))
  }

  function Containers(p: Pod): (refs: seq<ContainerRef>) {
    RefsOf("init", p.initContainers, p.initStatuses) + RefsOf("main", p.containers, p.statuses)
    + RefsOf("ephemeral", p.ephemeralContainers, p.ephemeralStatuses)
  }

  method LookUpImageID(list: seq<Status>, name: string) returns (id: string)
    ensures id == StatusImageID(list, name)
  {
    for i := 0 to |list|
      invariant StatusImageID(list, name) == StatusImageID(list[i..], name)
    {
      if list[i].name == name {
        return list[i].imageID;
      }
    }
    return "";
  }

  method AppendRefs(out: seq<ContainerRef>, kind: string, containers: seq<Container>, statuses: seq<Status>)
      returns (refs: seq<ContainerRef>)
    ensures refs == out + RefsOf(kind, containers, statuses)
  {
    refs := out;
    for i := 0 to |containers|
      invariant refs == out + RefsOf(kind, containers, statuses)[..i]
    {
      var id := LookUpImageID(statuses, containers[i].name);
      refs := refs + [ContainerRef(kind, containers[i].name, containers[i].image, id)];
    }
  }

  method CollectContainers(p: Pod) returns (out: seq<ContainerRef>)
    ensures out == Containers(p)
  {
    out := AppendRefs([], "init", p.initContainers, p.initStatuses);
    out := AppendRefs(out, "main", p.containers, p.statuses);
    out := AppendRefs(out, "ephemeral", p.ephemeralContainers, p.ephemeralStatuses);
  }

  // ---- suppression --------------------------------------------------------------------------------

  predicate SameContainers(a: seq<Container>, b: seq<Container>) {
    |a| == |b| && forall i :: 0 <= i < |a| ==> a[i].name == b[i].name && a[i].image == b[i].image
  }

  predicate SameImageIDs(a: seq<Status>, b: seq<Status>) {
    |a| == |b| && forall i :: 0 <= i < |a| ==> a[i].imageID == StatusImageID(b, a[i].name)
  }

  predicate SamePodImages(a: Pod, b: Pod) {
    && a.phase == b.phase
    && SameContainers(a.initContainers, b.initContainers)
    && SameContainers(a.containers, b.containers)
    && SameContainers(a.ephemeralContainers, b.ephemeralContainers)
    && SameImageIDs(a.initStatuses, b.initStatuses)
    && SameImageIDs(a.statuses, b.statuses)
    && SameImageIDs(a.ephemeralStatuses, b.ephemeralStatuses)
  }

  method CompareImageIDs(a: seq<Status>, b: seq<Status>) returns (same: bool)
    ensures same <==> SameImageIDs(a, b)
  {
    if |a| != |b| {
      return false;
    }
    for i := 0 to |a|
      invariant forall k :: 0 <= k < i ==> a[k].imageID == StatusImageID(b, a[k].name)
    {
      var id := LookUpImageID(b, a[i].name);
      if a[i].imageID != id {
        return false;
      }
    }
    return true;
  }

  // ---- records ------------------------------------------------------------------------------------

  datatype ContainerRecord =
    | Upsert(event: string, eventID: EventID, namespace: string, podUID: string, podPhase: string,
             ownerKind: string, owner: string, pod: string, podLabels: map<string, string>,
             containerKind: string, container: string, registry: string, image: string, tag: string,
             digest: string, imageSpec: string, imageID: string)
    | Delete(eventID: EventID, namespace: string, podUID: string, ownerKind: string, owner: string,
             pod: string, containerKind: string, container: string)

  function UpsertRecord(event: string, id: EventID, p: Pod, owner: (string, string), c: ContainerRef):
    (r: ContainerRecord)
  {
    var parts := Split(c.spec, c.id);
    var (image, registry) := SplitName(parts.repo);
    Upsert(event, id, p.namespace, p.uid, p.phase, owner.0, owner.1, p.name, p.labels,
           c.kind, c.name, registry, image, parts.tag, parts.digest, c.spec, c.id)
  }

  function DeleteRecord(id: EventID, p: Pod, owner: (string, string), c: ContainerRef): (r: ContainerRecord) {
    Delete(id, p.namespace, p.uid, owner.0, owner.1, p.name, c.kind, c.name)
  }

  /** The key of EmitPod's map of old containers. */
  function MapKey(c: ContainerRef): (k: string) {
    c.kind + "/" + c.name
  }

  function ByKey(refs: seq<ContainerRef>): (m: map<string, ContainerRef>)
    ensures forall k :: k in m <==> exists i :: 0 <= i < |refs| && MapKey(refs[i]) == k
    ensures forall k :: k in m ==> m[k] in refs && MapKey(m[k]) == k
  {
    if refs == [] then map[]
    else ByKey(refs[..|refs| - 1])[MapKey(refs[|refs| - 1]) := refs[|refs| - 1]]
  }

  predicate IsUnchanged(prev: map<string, ContainerRef>, c: ContainerRef) {
    MapKey(c) in prev && prev[MapKey(c)].spec == c.spec && prev[MapKey(c)].id == c.id
  }

  function Changed(refs: seq<ContainerRef>, prev: map<string, ContainerRef>): (r: seq<ContainerRef>) {
    if refs == [] then []
    else Changed(refs[..|refs| - 1], prev)
         + if IsUnchanged(prev, refs[|refs| - 1]) then [] else [refs[|refs| - 1]]
  }

  /** The containers the emitting loop picks, given the map of old ones if there is one. */
  function Picked(refs: seq<ContainerRef>, prev: Option<map<string, ContainerRef>>): (r: seq<ContainerRef>) {
    if prev.Some? then Changed(refs, prev.value) else refs
  }

  lemma PickedSnoc(refs: seq<ContainerRef>, c: ContainerRef, prev: Option<map<string, ContainerRef>>)
    ensures Picked(refs + [c], prev)
         == Picked(refs, prev) + if prev.Some? && IsUnchanged(prev.value, c) then [] else [c]
  {
    assert (refs + [c])[..|refs|] == refs;
  }

  /** The containers a call of EmitPod emits, in order. */
  function ToEmit(p: Pod, oldP: Option<Pod>): (refs: seq<ContainerRef>) {
    if oldP.Some? && SamePodImages(oldP.value, p) then []
    else if oldP.Some? && oldP.value.phase == p.phase then Changed(Containers(p), ByKey(Containers(oldP.value)))
    else Containers(p)
  }

  /** The records of a call of EmitPod that starts with the id counter at `before`. */
  function PodRecords(event: string, p: Pod, oldP: Option<Pod>, sets: ReplicaSets, before: EventID):
    (rs: seq<ContainerRecord>)
    ensures |rs| == |ToEmit(p, oldP)|
  {
    UpsertRecords(event, p, Owner(p, sets), ToEmit(p, oldP), before)
  }

  function UpsertRecords(event: string, p: Pod, owner: (string, string), refs: seq<ContainerRef>,
                         before: EventID): (rs: seq<ContainerRecord>)
    ensures |rs| == |refs|
  {
    seq(|refs|, i requires 0 <= i < |refs| => UpsertRecord(event, IDAfter(before, i + 1), p, owner, refs[i]))
  }

  function DeleteRecordsOf(p: Pod, owner: (string, string), refs: seq<ContainerRef>, before: EventID):
    (rs: seq<ContainerRecord>)
    ensures |rs| == |refs|
  {
    seq(|refs|, i requires 0 <= i < |refs| => DeleteRecord(IDAfter(before, i + 1), p, owner, refs[i]))
  }

  function DeleteRecords(p: Pod, sets: ReplicaSets, before: EventID): (rs: seq<ContainerRecord>) {
    DeleteRecordsOf(p, Owner(p, sets), Containers(p), before)
  }

  method IndexByKey(refs: seq<ContainerRef>) returns (m: map<string, ContainerRef>)
    ensures m == ByKey(refs)
  {
    m := map[];
    for i := 0 to |refs|
      invariant m == ByKey(refs[..i])
    {
      assert refs[..i + 1][..i] == refs[..i];
      m := m[refs[i].kind + "/" + refs[i].name := refs[i]];
    }
    assert refs[..|refs|] == refs;
  }

  /** The record stream of one process, as written by the emitting functions. */
  class Emitter {
    const counter: EventCounter
    var out: seq<ContainerRecord>

    constructor (counter: EventCounter)
      ensures this.counter == counter && out == []
    {
      this.counter, out := counter, [];
    }

    method EmitUpsert(event: string, p: Pod, owner: (string, string), c: ContainerRef)
      modifies this, counter
      ensures counter.value == IDAfter(old(counter.value), 1)
      ensures out == old(out) + [UpsertRecord(event, counter.value, p, owner, c)]
    {
      var fullRepo, tag, digest := SplitImage(c.spec, c.id);
      var image, registry := SplitImageName(fullRepo);
      var id := counter.NextEventID();
      out := out + [Upsert(event, id, p.namespace, p.uid, p.phase, owner.0, owner.1, p.name, p.labels,
                           c.kind, c.name, registry, image, tag, digest, c.spec, c.id)];
    }

    method EmitPod(event: string, p: Pod, oldP: Option<Pod>, sets: ReplicaSets) returns (emitted: nat)
      modifies this, counter
      ensures out == old(out) + PodRecords(event, p, oldP, sets, old(counter.value))
      ensures emitted == |ToEmit(p, oldP)| && counter.value == IDAfter(old(counter.value), emitted)
    {
      emitted := 0;
      if oldP.Some? && SamePodImages(oldP.value, p) {
        return;
      }
      var ok, on := PodOwner(p, sets);
      var cur := CollectContainers(p);
      var phaseChanged := oldP.Some? && oldP.value.phase != p.phase;
      var prev: Option<map<string, ContainerRef>> := None;
      if oldP.Some? && !phaseChanged {
        var before := CollectContainers(oldP.value);
        var byKey := IndexByKey(before);
        prev := Some(byKey);
      }
      emitted := EmitChanged(event, p, (ok, on), cur, prev);
    }

    method EmitChanged(event: string, p: Pod, owner: (string, string), cur: seq<ContainerRef>,
                       prev: Option<map<string, ContainerRef>>) returns (emitted: nat)
      modifies this, counter
      ensures emitted == |Picked(cur, prev)| && counter.value == IDAfter(old(counter.value), emitted)
      ensures out == old(out) + UpsertRecords(event, p, owner, Picked(cur, prev), old(counter.value))
    {
      emitted := 0;
      for i := 0 to |cur|
        invariant emitted == |Picked(cur[..i], prev)| && counter.value == IDAfter(old(counter.value), emitted)
        invariant out == old(out) + UpsertRecords(event, p, owner, Picked(cur[..i], prev), old(counter.value))
      {
        var c := cur[i];
        assert cur[..i + 1] == cur[..i] + [c];
        PickedSnoc(cur[..i], c, prev);
        if prev.Some? {
          if MapKey(c) in prev.value && prev.value[MapKey(c)].spec == c.spec && prev.value[MapKey(c)].id == c.id {
            continue;
          }
        }
        EmitUpsert(event, p, owner, c);
        UpsertsGrow(old(out), event, p, owner, Picked(cur[..i], prev), c, old(counter.value));
        emitted := emitted + 1;
      }
      assert cur[..|cur|] == cur;
    }

    method EmitPodDelete(p: Pod, sets: ReplicaSets)
      modifies this, counter
      ensures out == old(out) + DeleteRecords(p, sets, old(counter.value))
      ensures counter.value == IDAfter(old(counter.value), |Containers(p)|)
    {
      var ok, on := PodOwner(p, sets);
      var cur := CollectContainers(p);
      for i := 0 to |cur|
        invariant counter.value == IDAfter(old(counter.value), i)
        invariant out == old(out) + DeleteRecordsOf(p, (ok, on), cur[..i], old(counter.value))
      {
        assert cur[..i + 1] == cur[..i] + [cur[i]];
        IDAfterOneMore(old(counter.value), i);
        DeleteRecordsSnoc(p, (ok, on), cur[..i], cur[i], old(counter.value));
        var id := counter.NextEventID();
        out := out + [Delete(id, p.namespace, p.uid, ok, on, p.name, cur[i].kind, cur[i].name)];
      }
      assert cur[..|cur|] == cur;
    }
  }

  lemma AgreeUpToLast<T>(all: seq<T>, front: seq<T>)
    requires |all| == |front| + 1 && forall i :: 0 <= i < |front| ==> all[i] == front[i]
    ensures all == front + [all[|front|]]
  {
  }

  lemma UpsertRecordsSnoc(event: string, p: Pod, owner: (string, string), refs: seq<ContainerRef>,
                          c: ContainerRef, before: EventID)
    ensures UpsertRecords(event, p, owner, refs + [c], before)
         == UpsertRecords(event, p, owner, refs, before)
            + [UpsertRecord(event, IDAfter(before, |refs| + 1), p, owner, c)]
  {
    var all, front := UpsertRecords(event, p, owner, refs + [c], before), UpsertRecords(event, p, owner, refs, before);
    forall i | 0 <= i < |refs| ensures all[i] == front[i] {
      assert (refs + [c])[i] == refs[i];
    }
    AgreeUpToLast(all, front);
  }

  lemma UpsertsGrow(start: seq<ContainerRecord>, event: string, p: Pod, owner: (string, string),
                    refs: seq<ContainerRef>, c: ContainerRef, before: EventID)
    ensures IDAfter(IDAfter(before, |refs|), 1) == IDAfter(before, |refs| + 1)
    ensures start + UpsertRecords(event, p, owner, refs, before)
              + [UpsertRecord(event, IDAfter(before, |refs| + 1), p, owner, c)]
         == start + UpsertRecords(event, p, owner, refs + [c], before)
  {
    IDAfterOneMore(before, |refs|);
    UpsertRecordsSnoc(event, p, owner, refs, c, before);
  }

  lemma DeleteRecordsSnoc(p: Pod, owner: (string, string), refs: seq<ContainerRef>, c: ContainerRef, before: EventID)
    ensures DeleteRecordsOf(p, owner, refs + [c], before)
         == DeleteRecordsOf(p, owner, refs, before) + [DeleteRecord(IDAfter(before, |refs| + 1), p, owner, c)]
  {
  }
}
