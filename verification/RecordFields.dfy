/** What the emitted container records say, field by field, and which containers they are for
    (pod.go:82-104, 159-223). */
module RecordFields {
  import opened Common
  import opened Records
  import opened Images
  import opened Pods
  import opened Suppression
  import opened PodStream

  // ---- containers ---------------------------------------------------------------------------------

  /** The image id of the first status of that name; none without such a status. */
  ghost predicate IsReportedID(statuses: seq<Status>, name: string, id: string) {
    if exists i :: IsFirstStatus(statuses, name, i)
    then exists i :: IsFirstStatus(statuses, name, i) && statuses[i].imageID == id
    else id == ""
  }

  ghost predicate IsRefTo(c: ContainerRef, kind: string, of: Container, statuses: seq<Status>) {
    c.kind == kind && c.name == of.name && c.spec == of.image && IsReportedID(statuses, of.name, c.id)
  }

  lemma LookupIsReported(statuses: seq<Status>, name: string)
    ensures IsReportedID(statuses, name, StatusImageID(statuses, name))
  {
    LookupIsFirst(statuses, name);
    if i :| IsFirstStatus(statuses, name, i) {
      assert HasStatus(statuses, name);
    }
  }

  /** A pod's containers: first its init containers, then its main ones, then its ephemeral ones, each under its
      own label with its own status list. */
  lemma ContainersAreLabelled(p: Pod, k: nat)
    requires k < |Containers(p)|
    ensures |Containers(p)| == |p.initContainers| + |p.containers| + |p.ephemeralContainers|
    ensures var c, main := Containers(p)[k], |p.initContainers|;
      var ephemeral := main + |p.containers|;
      if k < main then IsRefTo(c, "init", p.initContainers[k], p.initStatuses)
      else if k < ephemeral then IsRefTo(c, "main", p.containers[k - main], p.statuses)
      else IsRefTo(c, "ephemeral", p.ephemeralContainers[k - ephemeral], p.ephemeralStatuses)
  {
    var name := Containers(p)[k].name;
    LookupIsReported(p.initStatuses, name);
    LookupIsReported(p.statuses, name);
    LookupIsReported(p.ephemeralStatuses, name);
  }

  // ---- which containers ---------------------------------------------------------------------------

  /** `some` are the elements of `all` at the ascending positions `at`. */
  predicate AreAt(some: seq<ContainerRef>, all: seq<ContainerRef>, at: seq<int>) {
    && |at| == |some| && (forall i, j :: 0 <= i < j < |at| ==> at[i] < at[j])
    && forall i :: 0 <= i < |at| ==> 0 <= at[i] < |all| && some[i] == all[at[i]]
  }

  lemma {:induction false} ChangedPositions(refs: seq<ContainerRef>, prev: map<string, ContainerRef>)
      returns (at: seq<int>)
    ensures AreAt(Changed(refs, prev), refs, at)
  {
    at := [];
    if refs != [] {
      at := ChangedPositions(refs[..|refs| - 1], prev);
      if !IsUnchanged(prev, refs[|refs| - 1]) {
        at := at + [|refs| - 1];
      }
    }
  }

  /** Records are written in the order of the pod's containers. */
  lemma EmittedInOrder(p: Pod, was: Option<Pod>) returns (at: seq<int>)
    ensures AreAt(ToEmit(p, was), Containers(p), at)
  {
    if was.Some? && SamePodImages(was.value, p) {
      at := [];
    } else if was.Some? && was.value.phase == p.phase {
      at := ChangedPositions(Containers(p), ByKey(Containers(was.value)));
    } else {
      at := seq(|Containers(p)|, i => i);
    }
  }

  lemma UnchangedIsSame(p: Pod, was: Pod, c: ContainerRef)
    requires HasUniqueNames(was) && c in Containers(p)
    ensures IsUnchanged(ByKey(Containers(was)), c) <==> c in Containers(was)
  {
    var prev := ByKey(Containers(was));
    var i :| 0 <= i < |Containers(p)| && Containers(p)[i] == c;
    if c in Containers(was) {
      var j :| 0 <= j < |Containers(was)| && Containers(was)[j] == c;
      OnlyOneOfKey(was, prev[MapKey(c)], c);
    }
    if IsUnchanged(prev, c) {
      UnchangedWasThere(p, was, i);
    }
  }

  lemma OnlyOneOfKey(was: Pod, d: ContainerRef, c: ContainerRef)
    requires HasUniqueNames(was) && d in Containers(was) && c in Containers(was) && MapKey(d) == MapKey(c)
    ensures d == c
  {
    var i :| 0 <= i < |Containers(was)| && Containers(was)[i] == d;
    var j :| 0 <= j < |Containers(was)| && Containers(was)[j] == c;
    ContainerKinds(was, i);
    ContainerKinds(was, j);
    MapKeyIsInjective(d, c);
  }

  /** Records are written for no more than what changed: for all containers of a new pod or of one whose phase
      changed, else for those that differ from the old pod's, and for none of a pod that compares as the same. */
  lemma EmitsExactlyChanges(p: Pod, was: Pod, c: ContainerRef)
    requires HasUniqueNames(was)
    ensures ToEmit(p, None) == Containers(p)
    ensures c in ToEmit(p, Some(was)) <==>
      && c in Containers(p) && (was.phase != p.phase || c !in Containers(was)) && !SamePodImages(was, p)
  {
    ChangedIsFilter(Containers(p), ByKey(Containers(was)));
    if c in Containers(p) {
      UnchangedIsSame(p, was, c);
    }
  }

  // ---- fields -------------------------------------------------------------------------------------

  /** How spec and resolved image id of c are read as a repository, a tag and a digest. */
  ghost predicate IsReading(c: ContainerRef, repo: string, tag: string, digest: string) {
    && (forall parts :: IsReadable(parts) && Print(parts) == c.spec && (parts.digest != "" || '@' !in c.id) ==>
          parts == Parts(repo, tag, digest))
    && (forall parts, from, of :: IsReadable(parts) && Print(parts) == c.spec && parts.digest == "" && Resolves(c.id, from, of) ==>
          && tag == parts.tag && digest == of
          && repo == if ('/' in parts.repo && '.' in parts.repo) || from == "" then parts.repo else from)
  }

  lemma SplitIsReading(c: ContainerRef)
    ensures var parts := Split(c.spec, c.id); IsReading(c, parts.repo, parts.tag, parts.digest)
  {
    forall parts | IsReadable(parts) && Print(parts) == c.spec && (parts.digest != "" || '@' !in c.id)
      ensures parts == Split(c.spec, c.id)
    {
      PrintedStandsAlone(parts, c.id);
    }
    forall parts, from, of |
        IsReadable(parts) && Print(parts) == c.spec && parts.digest == "" && Resolves(c.id, from, of)
      ensures Split(c.spec, c.id)
           == Parts(if ('/' in parts.repo && '.' in parts.repo) || from == "" then parts.repo else from, parts.tag, of)
    {
      SplitInvertsPrint(parts);
      ResolvedReferenceCompletes(c.spec, c.id, from, of);
    }
  }

  /** Image, registry, tag and digest are read off the spec and the resolved image id. */
  ghost predicate TellsImage(r: ContainerRecord, c: ContainerRef)
    requires r.Upsert?
  {
    exists repo :: IsSplitAtHost(repo, r.image, r.registry) && IsReading(c, repo, r.tag, r.digest)
  }

  predicate TellsOwner(r: ContainerRecord, p: Pod, sets: ReplicaSets) {
    (r.ownerKind, r.owner) == Owner(p, sets)
  }

  /** Every record of a call: its label, its id, the pod's and the container's own fields, and the image. */
  lemma PodRecordsTell(event: string, p: Pod, was: Option<Pod>, sets: ReplicaSets, before: EventID, i: nat)
    requires i < |ToEmit(p, was)|
    ensures |PodRecords(event, p, was, sets, before)| == |ToEmit(p, was)|
    ensures var r, c := PodRecords(event, p, was, sets, before)[i], ToEmit(p, was)[i];
      && r.Upsert? && r.event == event && r.eventID == (before + i + 1) % 0x1_0000_0000_0000_0000
      && r.namespace == p.namespace && r.pod == p.name && r.podUID == p.uid && r.podPhase == p.phase
      && r.podLabels == p.labels && TellsOwner(r, p, sets)
      && r.containerKind == c.kind && r.container == c.name && r.imageSpec == c.spec && r.imageID == c.id
      && TellsImage(r, c)
  {
    RecordTellsImage(PodRecords(event, p, was, sets, before)[i], ToEmit(p, was)[i]);
  }

  lemma RecordTellsImage(r: ContainerRecord, c: ContainerRef)
    requires r.Upsert?
    requires var parts := Split(c.spec, c.id);
      (r.image, r.registry) == SplitName(parts.repo) && r.tag == parts.tag && r.digest == parts.digest
    ensures TellsImage(r, c)
  {
    var repo := Split(c.spec, c.id).repo;
    NameSplitsAtHost(repo);
    SplitIsReading(c);
    assert IsSplitAtHost(repo, r.image, r.registry) && IsReading(c, repo, r.tag, r.digest);
  }

  lemma DeleteRecordsTell(p: Pod, sets: ReplicaSets, before: EventID, i: nat)
    requires i < |Containers(p)|
    ensures |DeleteRecords(p, sets, before)| == |Containers(p)|
    ensures var r, c := DeleteRecords(p, sets, before)[i], Containers(p)[i];
      && r.Delete? && r.eventID == (before + i + 1) % 0x1_0000_0000_0000_0000
      && r.namespace == p.namespace && r.pod == p.name && r.podUID == p.uid && TellsOwner(r, p, sets)
      && r.containerKind == c.kind && r.container == c.name
  {
  }
}
