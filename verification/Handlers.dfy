/** The pod event handlers behind the gate (informer.go:10-62, main.go:163-166) and what the start-up machine
    delivers. */
module Handlers {
  import opened Common
  import opened Records
  import opened Pods
  import opened Startup
  import Ordering
  import RecordFields

  /** What the informer hands to a handler; a tombstone stands for an object whose deletion was missed. */
  datatype Object = APod(p: Pod) | Tombstone(last: Object) | Other

  datatype Delivery = Added(obj: Object) | Updated(oldObj: Object, newObj: Object) | Deleted(obj: Object)

  function AsPod(obj: Object): (p: Option<Pod>) {
    if obj.APod? then Some(obj.p) else None
  }

  /** A tombstone is unwrapped once. */
  function ExtractDeleted(obj: Object): (p: Option<Pod>)
    ensures forall q: Pod :: p == Some(q) <==> obj == APod(q) || obj == Tombstone(APod(q))
  {
    match obj
    case Tombstone(last) => AsPod(last)
    case _ => AsPod(obj)
  }

  /** What a handler call writes, with the gate open or not. */
  function HandlerRecords(open: bool, d: Delivery, sets: ReplicaSets, before: EventID): (rs: seq<ContainerRecord>) {
    if !open then [] else
      match d
      case Added(APod(p)) => PodRecords("ADD", p, None, sets, before)
      case Updated(oldObj, APod(p)) => PodRecords("UPDATE", p, AsPod(oldObj), sets, before)
      case Deleted(obj) => if ExtractDeleted(obj).Some? then DeleteRecords(ExtractDeleted(obj).value, sets, before) else []
      case _ => []
  }

  class PodHandlers {
    const emitter: Emitter
    var synced: bool

    constructor (emitter: Emitter)
      ensures this.emitter == emitter && !synced
    {
      this.emitter, synced := emitter, false;
    }

    method OnAdd(obj: Object, sets: ReplicaSets)
      modifies emitter, emitter.counter
      ensures emitter.out == old(emitter.out) + HandlerRecords(synced, Added(obj), sets, old(emitter.counter.value))
    {
      if !synced {
        return;
      }
      if obj.APod? {
        var _ := emitter.EmitPod("ADD", obj.p, None, sets);
      }
    }

    method OnUpdate(oldObj: Object, newObj: Object, sets: ReplicaSets)
      modifies emitter, emitter.counter
      ensures emitter.out
           == old(emitter.out) + HandlerRecords(synced, Updated(oldObj, newObj), sets, old(emitter.counter.value))
    {
      if !synced {
        return;
      }
      if !newObj.APod? {
        return;
      }
      var _ := emitter.EmitPod("UPDATE", newObj.p, AsPod(oldObj), sets);
    }

    method OnDelete(obj: Object, sets: ReplicaSets)
      modifies emitter, emitter.counter
      ensures emitter.out == old(emitter.out) + HandlerRecords(synced, Deleted(obj), sets, old(emitter.counter.value))
    {
      if !synced {
        return;
      }
      var p := ExtractDeleted(obj);
      if p == None {
        return;
      }
      emitter.EmitPodDelete(p.value, sets);
    }
  }

  /** The calls by which the informer may announce a notification. */
  predicate Announces(d: Delivery, n: Note) {
    match (n.before, n.after)
    case (None, Some(p)) => d == Added(APod(p))
    case (Some(q), Some(p)) => d == Updated(APod(q), APod(p))
    case (Some(q), None) => d == Deleted(APod(q)) || d == Deleted(Tombstone(APod(q)))
    case (None, None) => false
  }

  function Facts(rs: seq<ContainerRecord>): (fs: seq<Fact>)
    ensures |fs| == |rs|
  {
    seq(|rs|, i requires 0 <= i < |rs| => FactOf(rs[i]))
  }

  /** Whatever ids and owners they carry, the records of the handlers are, fact for fact, the lines that the
      start-up machine has the delivery write, and none while the gate is closed. */
  lemma {:induction false} HandlersWriteDeliveries(s: State, d: Delivery, sets: ReplicaSets, before: EventID)
    requires s.live == [] && s.queue != [] && Announces(d, s.queue[0])
    ensures Facts(HandlerRecords(s.open, d, sets, before)) == Delivered(s).live
  {
    var n := s.queue[0];
    if s.open && n.after.Some? {
      FactsOfRecords(if n.before.Some? then "UPDATE" else "ADD", n.after.value, n.before, sets, before);
    } else if s.open {
      FactsOfRecords("", n.before.value, None, sets, before);
    }
  }

  /** An ADD's records are labelled ADD, an UPDATE's UPDATE, and a delete writes DELETE records only. */
  lemma RecordsAreLabelled(d: Delivery, sets: ReplicaSets, before: EventID, r: ContainerRecord)
    requires r in HandlerRecords(true, d, sets, before)
    ensures match d
      case Added(_) => r.Upsert? && r.event == "ADD"
      case Updated(_, _) => r.Upsert? && r.event == "UPDATE"
      case Deleted(_) => r.Delete?
  {
  }

  /** An update whose old object is not a pod reports every container of the new one, as for a new pod but
      labelled UPDATE. */
  lemma OddOldObject(oldObj: Object, p: Pod, sets: ReplicaSets, before: EventID, i: nat)
    requires !oldObj.APod? && i < |Containers(p)|
    ensures var rs := HandlerRecords(true, Updated(oldObj, APod(p)), sets, before);
      && |rs| == |Containers(p)| && rs[i].Upsert? && rs[i].event == "UPDATE" && rs[i].podUID == p.uid
      && rs[i].containerKind == Containers(p)[i].kind && rs[i].container == Containers(p)[i].name
  {
    assert HandlerRecords(true, Updated(oldObj, APod(p)), sets, before) == PodRecords("UPDATE", p, None, sets, before);
    RecordFields.PodRecordsTell("UPDATE", p, None, sets, before, i);
  }

  /** Objects that are not pods are ignored. */
  lemma OddObjectsAreIgnored(obj: Object, oldObj: Object, sets: ReplicaSets, before: EventID)
    requires !obj.APod?
    ensures HandlerRecords(true, Added(obj), sets, before) == []
    ensures HandlerRecords(true, Updated(oldObj, obj), sets, before) == []
    ensures HandlerRecords(true, Deleted(Other), sets, before) == []
  {
  }

  // ---- the snapshot's container section -----------------------------------------------------------

  /** An INITIAL record states fact f. */
  predicate States(r: Snapshots.Rec, f: Fact) {
    f.Put? && r == Snapshots.InitialContainer(f.k, f.v)
  }

  lemma {:induction false} InitialsState(pods: seq<Pod>)
    ensures var rs, fs := Snapshots.PodsRendered(pods), InitialFacts(pods);
      |rs| == |fs| && forall i :: 0 <= i < |rs| ==> States(rs[i], fs[i])
  {
    if pods != [] {
      var front, last := pods[..|pods| - 1], pods[|pods| - 1];
      InitialsState(front);
      assert Snapshots.PodsRendered(pods) == Snapshots.PodsRendered(front) + Snapshots.InitialsOf(last);
      assert InitialFacts(pods) == InitialFacts(front) + Puts(last, Containers(last));
    }
  }

  lemma SortedIsListing(items: seq<Pod>, store: Store, sets: ReplicaSets)
    requires IsListing(items, store)
    ensures IsListing(Ordering.SortBy(items, Ordering.PodOrder(sets)), store)
  {
    var pods := Ordering.SortBy(items, Ordering.PodOrder(sets));
    Ordering.SortPermutes(items, Ordering.PodOrder(sets));
    Ordering.KeysStayDistinct(items, pods, (p: Pod) => p.uid);
    forall i | 0 <= i < |pods| ensures LookUp(store, pods[i].uid) == Some(pods[i]) {
      Ordering.MemberOfPermutation(pods, items, pods[i]);
    }
    forall uid | uid in store ensures exists i :: 0 <= i < |pods| && pods[i].uid == uid {
      var i :| 0 <= i < |items| && items[i].uid == uid;
      Ordering.MemberOfPermutation(pods, items, items[i]);
    }
  }

  /** INITIAL records for these facts, in order, then a count and the key list. */
  ghost predicate IsSection(recs: seq<Snapshots.Rec>, facts: seq<Fact>, id: string, keys: seq<string>) {
    && |recs| == |facts| + 2
    && (forall i :: 0 <= i < |facts| ==> States(recs[i], facts[i]))
    && recs[|facts|].Counted?
    && recs[|facts| + 1] == Snapshots.Keys(id, "Container", keys)
  }

  lemma SectionStates(items: seq<Pod>, sets: ReplicaSets, id: string)
    ensures var pods := Ordering.SortBy(items, Ordering.PodOrder(sets));
      IsSection(Snapshots.ContainerSection(Snapshots.Listed(items), sets, id), InitialFacts(pods), id,
                Snapshots.ContainerKeys(pods))
  {
    InitialsState(Ordering.SortBy(items, Ordering.PodOrder(sets)));
  }

  /** The container section that the code writes for a listing is, fact for fact, what the machine writes once
      it has listed the sorted pods: the INITIAL lines and, after a count, the key list. */
  lemma {:induction false} SectionIsListing(s: State, items: seq<Pod>, sets: ReplicaSets, id: string)
    requires IsListing(items, s.store)
    ensures var pods := Ordering.SortBy(items, Ordering.PodOrder(sets));
      var listed := JustListed(s, pods).snapshots[|s.snapshots|];
      && IsListing(pods, s.store)
      && IsSection(Snapshots.ContainerSection(Snapshots.Listed(items), sets, id), listed.pending, id, listed.keys)
  {
    SortedIsListing(items, s.store, sets);
    SectionStates(items, sets, id);
  }
}
