# A verified model of the SCAM collector's record pipeline

SCAM watches a Kubernetes cluster and writes one JSON record per line; every record is also captured in a
bounded buffer and pushed to a server, SPAM, which rebuilds the cluster's state from the records. This project
models that pipeline in Dafny: how a record gets an id, is buffered, dropped, sent, put back and acknowledged;
which records a pod produces over its life; what start-up and snapshots write; and what a consumer that applies
the records ends up with.

`dafny verify dfyconfig.toml` checks everything.

| files | subject |
|---|---|
| `Records`, `LineCapture`, `PushProtocol`, `PushInvariants`, `PushSafety`, `AckBookkeeping`, `PushTiming`, `SpuriousReconcile`, `ReconcileTrigger`, `PushLoop` | the push buffer and the push loop |
| `Pods`, `Suppression`, `PodStream`, `RecordFields` | the records of a pod, field by field, and what replaying them gives |
| `Handlers`, `Startup`, `StartupView`, `StartupFailures` | the start-up gate, snapshots and live events, interleaved line by line |
| `Ordering`, `Snapshots`, `SnapshotShape`, `SnapshotRepair` | full snapshots, their outline and how they repair a consumer |
| `Images`, `Discovery`, `Backends`, `Heartbeat` | image references, API discovery, backends and their index, heartbeats |

## How the model is built

Code that updates state in the original is a class or a method here (`LineCapture`, `PushLoop`, `EventCounter`,
`Emitter`, `PodHandlers`, `Writer`, `Slice`, `HeartbeatLoop`, and the loops). Each is proved equal to a specification function,
and the guarantees are lemmas about those functions and about the runs of two state machines:

- `PushProtocol` is the push loop as steps: a writer's line, a tick, an acknowledged or failed batch, the unsent
  tail put back, the id comparison, a reconcile's end, shutdown. Writes may fall between any two steps. Every
  captured line carries its position in a log, so that records are told apart even when their text is equal.
  `PushLoops.PushLoop` is the code itself; its ghost field `history` is the run of the machine it has performed,
  and its real fields equal the machine's state after that run. Its `OnTick` takes the lines other
  goroutines log while a flush is out and those of the snapshot it triggers; `WritesCommuteWithReplies` shows
  that it does not matter among which replies a line falls, and the machine's theorems hold for every placement.
- `Startup` is start-up as steps: a change commits to the informer's store and queues a notification; a goroutine
  delivers notifications in order, dropping them while the gate is closed; main opens the gate, lists the store,
  writes INITIAL lines and then the key list of what it listed. After this first snapshot any number of further
  ones do the same, at once if need be: the periodic loop and the push loop's reconcile share no lock. Each
  written line is a step of its own. `HandlersWriteDeliveries` and `SectionIsListing` tie these lines to the records of
  the handlers and of a snapshot, and `ViewIsConsumed` ties the machine's view to a consumer of full records.

## Assumptions, stated as hypotheses

- Container names are unique within a kind of container of one pod (`HasUniqueNames`).
- An update's old and new pod have one uid. Without it the exact condition is given (`RecreationRebuilds`).
- No container goes unnoticed from "no status" to a resolved image (`IsMasked`). This is exactly what the
  comparison needs (`UpdateRebuilds`), and it follows when statuses are only ever added, each name once
  (`GrowingStatusesAreNotLate`), or when every container is reported exactly once (`SamePodImagesDecidesEquality`).
- Updates do not remove containers from a pod, as Kubernetes has it (`ChangesKeepContainers`, for
  `NewestWinsExactly` only).
- The consumer stores what a record says and, on a key list, drops the containers it does not name.
- The informer commits to its store before it calls a handler, and calls handlers in order.
- A push that is not acknowledged was not stored by the server.
- Sort orders are compared with owner lookups fixed, on objects with distinct namespace and name.

## Where the code does not do what it means to do

Each point is proved, by a concrete run or input, by the exact condition for the general case, or by both.

- The push back-off never grows: it is counted down to 0 before each retry, so `NextBackoff`'s doubling is
  unreachable, and no tick is ever skipped (`BackoffNeverGrows`, against `BackoffDoubles` for the function alone).
- Ids begin at 1 again in every process, while the server reports the highest id it holds for the cluster. After
  a restart every delivered flush therefore counts as drift until the new ids have reached the old maximum
  (`ReconcileAfterRestart`, `EveryFlushDriftsAfterRestart`).
- `lastPushedEventID` ignores what a failed flush delivered, so a reconcile can fire although nothing was lost
  (`ReconcileWithoutLoss`). Against a server that keeps what it gets these two
  are the only causes: `MismatchExactlyAboveCompleteFlushes` for any ids, and
  `MismatchExactlyOnRestartOrUnstampedFlush` for ids that ascend in the order of capture, which writers on
  different goroutines do not guarantee. A server that has lost records is always noticed (`LossIsNoticed`).
- `sameImageIDs` looks at one side only and can suppress a real change (`MaskedExample`).
- An update whose old object is an earlier pod of the same name may announce nothing under the new uid
  (`RecreationExample`).
- An INITIAL line written after a live line for the same container wins with the older value, and brings a
  deleted pod back (`StaleInitialWins`, `DeletedPodIsResurrected`). A pod added after the listing and announced
  before the key list is dropped by that list (`AddedPodIsPruned`), and of two snapshots that overlap, the older
  one's key list drops what the newer one has stored (`OlderListPrunes`). Each stays so until the next snapshot
  or event. Exactly when: `NewestWinsExactly`. The comment at `cmd/scam/main.go:303-308` expects at worst a duplicate.
- The container key list leaves out the container kind, so an inventory that holds a container under another
  kind keeps it through a repair (`LingeringExample`; exactly when: `ContainerRepairIsExact`,
  `LingeringIsKindChange`). Kubernetes allows a name only once among all containers of a pod, so the cluster
  itself does not bring such an inventory about.
- Index keys are `namespace/name`; the index answers a query correctly for every store exactly when the queried
  text has one reading (`ReferencedIsScan`). Names of real services always do.
- The heartbeat wait shrinks after the first failure when the configured interval is above 15 minutes
  (`BackoffNeverShrinks`), and wraps around from 2^62 ns on (`BackoffIsCappedDoubling`).
- `.docs/architecture.md:24` says EndpointSlices are not watched and `.docs/architecture.md:49-60` that ClusterIP
  services nothing routes to are not emitted. The code watches and emits both; nothing calls `ServiceReferenced`.
  The model follows the code.

## Model

| member | source | states |
|---|---|---|
| Records.ScanMaxEventID | internal/collector/push.go:150-165 | The loop returns the maximum id; a record that does not parse or has no id counts as 0 |
| Records.MaxIDIsMaximum | internal/collector/push.go:147-165 | That maximum bounds every record's id and is 0 or some record's id |
| Records.EventCounter.NextEventID | internal/collector/eventid.go:9-16 | The counter advances by one, modulo 2^64, and returns the new value |
| LineCaptures.TrimSpaceIsMaximal | internal/collector/push.go:46-47 | Trimming removes exactly the leading and trailing white space |
| LineCaptures.WhiteSpaceIsUnicodes | internal/collector/push.go:46 | What counts as white space, by code point |
| LineCaptures.CapturedExactly | internal/collector/push.go:46-54 | A line is captured iff its first character that is not white space is '{', and then with its id and its text trimmed at both ends |
| LineCaptures.LineCapture.Write | internal/collector/push.go:44-57 | A line is captured iff its trimmed text starts with '{'; the buffer becomes the newest 10,000; the writer's own result is returned |
| LineCaptures.LineCapture.Flush | internal/collector/push.go:59-65 | Returns all that was buffered and leaves the buffer empty |
| LineCaptures.LineCapture.Rebuffer | internal/collector/push.go:67-75 | Puts records in front of what arrived since and keeps the newest 10,000 |
| PushInvariants.RunKeepsLog | internal/collector/push.go:44-75 | In every reachable state the delivered, in-flight and buffered records are the slices of one log that the phase says |
| PushSafety.BufferIsLogSuffix | internal/collector/push.go:44-75 | In every reachable state the buffer is the log from the cursor on, or from the end of the flush in flight, less what the bound pushed out |
| PushSafety.StepsRefineLog | internal/collector/push.go:103-145 | Every step refines an append-only log with one cursor: it appends one line, trimmed and with its id, or delivers the next stretch of at most 2,000, or changes nothing; a skip needs 10,000 newer records |
| PushSafety.RunConserves | internal/collector/push.go:103-129 | Over every run each record occurs as often in the log as in delivered, in flight, buffered, dropped and abandoned together |
| PushSafety.EveryRecordInOnePlace | internal/collector/push.go:103-129 | Each captured record is in exactly one of the five places, once |
| PushSafety.DeliveryIsInOrder | internal/collector/push.go:171-188 | Delivered records are captured ones, in strictly increasing log position: no duplicates, no reordering |
| PushSafety.DropsNeedTenThousandNewer | internal/collector/push.go:44-75 | A dropped record has at least 10,000 newer ones in the log |
| AckBookkeeping.HighWaterMark | internal/collector/push.go:130-132 | lastPushedEventID is 0 or a delivered record's id, never above the highest delivered id, and never falls |
| ReconcileTrigger.ReconcileFiresExactly | internal/collector/push.go:130-142 | Whatever the server acknowledges, a delivered flush starts a reconcile iff there is a trigger, no triggered snapshot finished within five minutes, and the acknowledged id is positive and not the highest id of the completely delivered flushes |
| ReconcileTrigger.LossIsNoticed | internal/collector/push.go:77-82 | A server that names a lower id than was delivered is noticed |
| ReconcileTrigger.ReconcileAfterLoss | internal/collector/push.go:130-142 | A run for every n: records 1 to n are delivered, the server answers with less, and a reconcile starts |
| AckBookkeeping.MismatchExactlyAboveCompleteFlushes | internal/collector/push.go:118-142 | Against a server that reports the highest id it holds, a delivered flush counts as drift iff an earlier process or an earlier partly failed flush gave it an id above all ids of the complete flushes |
| AckBookkeeping.EveryFlushDriftsAfterRestart | internal/collector/eventid.go:5-9 | While all delivered ids are below the one left by earlier processes, every delivered flush counts as drift |
| AckBookkeeping.MismatchExactlyOnRestartOrUnstampedFlush | internal/collector/push.go:118-142 | When the ids that records carry ascend in capture order, drift is seen iff the server holds a higher id from an earlier process, or the delivered flush carried no id and an earlier partly failed flush delivered one above the mark |
| SpuriousReconcile.ReconcileAfterRestart | internal/collector/eventid.go:5-9 | For every id above 1 left by an earlier process, a run in which nothing fails, the one record arrives, and a reconcile fires |
| SpuriousReconcile.ReconcileWithoutLoss | internal/collector/push.go:118-142 | A run of 2,000 records with distinct ascending ids and one operational line, in which all arrive in order and once, and a reconcile fires |
| PushTiming.BackoffDoubles | internal/collector/push.go:355-364 | NextBackoff iterated n times from 0 is min(30s * 2^(n-1), 5min) |
| PushTiming.BackoffNeverGrows | internal/collector/push.go:110-129 | In every reachable state the back-off is 0 or 30s, every failure announces 30s, and every tick flushes |
| PushTiming.ReconcileRateBound | internal/collector/push.go:97-142 | Whatever the server acknowledges, at most T / 5min + 1 reconciles start in a window of length T |
| PushLoops.PushAll | internal/collector/push.go:171-188 | The batch loop returns the highest acknowledgement, the unsent tail and the outcome of the recursive specification |
| PushLoops.BatchesPartitionInput | internal/collector/push.go:167-188 | The batches sent are nonempty, at most 2,000 long, and concatenate with what was never sent to the input; the unsent tail starts at the failed batch |
| PushLoops.RequestCount | internal/collector/push.go:171-188 | No more requests than the input's length over 2,000 rounded up: five for a full buffer |
| PushLoops.FlushTakesFiveRequests | internal/collector/push.go:44-65 | In every state the code can reach, a flush takes at most five requests |
| PushLoops.LastSeenIsHighest | internal/collector/push.go:171-188 | The reported acknowledgement is the highest of the acknowledged batches |
| PushLoops.PushIsARun | internal/collector/push.go:171-188 | A push of the flushed records is a run of the machine that ends with that outcome |
| PushLoops.WritesCommuteWithReplies | internal/collector/push.go:44-57 | A write and a reply give the same state in either order |
| PushLoops.PushLoop.Log | internal/collector/push.go:44-57 | A written line is one Write step of the machine |
| PushLoops.PushLoop.OnTick | internal/collector/push.go:109-143 | A tick of the code performs exactly the steps the machine prescribes and fires a snapshot iff the machine does |
| PushLoops.PushLoop.PushFlushed | internal/collector/push.go:118-142 | After a flush: the batches, then either the tail put back or the ids compared |
| PushLoops.PushLoop.PutUnsentBack | internal/collector/push.go:119-128 | Rebuffering and the new back-off are the machine's PutBack step |
| PushLoops.PushLoop.CompareIDs | internal/collector/push.go:130-142 | The high-water mark, the mismatch test and the cooldown are the machine's Compare step |
| PushLoops.PushLoop.OnShutdown | internal/collector/push.go:104-108 | Shutdown flushes once, pushes, and gives up what is not delivered |
| PushLoops.CodeBufferIsLogSuffix | internal/collector/push.go:44-75 | The code's own buffer is, between ticks, the captured log from the cursor on, less what the bound pushed out |
| Pods.PodOwner | internal/collector/pod.go:48-73 | The controlling owner, else the first, with a ReplicaSet replaced by its own controller |
| Pods.OwnerIsController | internal/collector/pod.go:44-73 | Nobody, or the direct owner; and when that is a listed ReplicaSet with a controller of its own, always that controller |
| Pods.CollectContainers | internal/collector/pod.go:82-95 | Init, main and ephemeral containers in order, each with the image id of its first status |
| RecordFields.ContainersAreLabelled | internal/collector/pod.go:82-104 | Position by position: init, main, ephemeral, each under its own label with its own name, image and first reported image id |
| Pods.LookUpImageID | internal/collector/pod.go:97-104 | The first status of that name, or nothing |
| Pods.CompareImageIDs | internal/collector/pod.go:139-156 | The loop decides the one-sided comparison |
| Pods.Emitter.EmitPod | internal/collector/pod.go:159-205 | Writes exactly the upsert records of the containers to report, ids counted on from the shared counter |
| Pods.Emitter.EmitChanged | internal/collector/pod.go:183-203 | The loop skips exactly the containers whose spec and image id are unchanged |
| Pods.Emitter.EmitPodDelete | internal/collector/pod.go:208-223 | Writes one DELETE record per container |
| RecordFields.PodRecordsTell | internal/collector/pod.go:159-205 | Every record EmitPod appends carries its label, the next id, the pod's and the container's own fields and the owner, and image, registry, tag and digest as read off spec and resolved reference |
| RecordFields.DeleteRecordsTell | internal/collector/pod.go:208-223 | Every DELETE record carries the next id and the pod's and the container's own fields |
| RecordFields.EmitsExactlyChanges | internal/collector/pod.go:159-205 | A new pod reports all containers, an update exactly those that differ, all when the phase changed, none when the pods compare as the same |
| RecordFields.EmittedInOrder | internal/collector/pod.go:183-203 | The reported containers are a subsequence of the pod's |
| Suppression.SuppressionIsSoundUnlessLate | internal/collector/pod.go:107-156 | Pods that compare as the same have equal containers iff no container went from no status to a resolved image |
| Suppression.GrowingStatusesAreNotLate | internal/collector/pod.go:139-156 | By pigeonhole, statuses that only grow and name each container once leave nothing late |
| Suppression.SamePodImagesDecidesEquality | internal/collector/pod.go:82-156 | With every container reported exactly once, the comparison holds iff phases and containers are equal |
| Suppression.SamePodImagesIsEquivalence | internal/collector/pod.go:107-156 | Hence it is reflexive, symmetric and transitive |
| PodStream.UpdateRebuilds | internal/collector/pod.go:159-205 | An update keeps every correct view correct iff it is not masked |
| PodStream.RecreationRebuilds | internal/collector/pod.go:159-205 | An update across two incarnations does so iff it reports every container |
| PodStream.ReplayRebuildsPod | internal/collector/pod.go:159-205 | Replaying an ADD and any updates gives the latest phase, spec and image id of every container |
| PodStream.ReplayIsExact | internal/collector/pod.go:159-205 | The replayed part about a pod is its state iff no container was ever removed from it |
| PodStream.LifeLeavesNothing | internal/collector/pod.go:208-223 | After the DELETE records nothing is left but containers removed earlier, and other pods are untouched |
| PodStream.MaskedExample | internal/collector/pod.go:139-156 | A concrete update that is wrongly suppressed |
| PodStream.RecreationExample | internal/collector/pod.go:107-137 | A concrete recreated pod that is never announced |
| Handlers.ExtractDeleted | internal/collector/informer.go:51-62 | The pod of a delete is the object itself or what a tombstone wraps, once; anything else is ignored |
| Handlers.PodHandlers.OnAdd | internal/collector/informer.go:23-30 | Writes the records of an ADD, or nothing while the gate is closed |
| Handlers.PodHandlers.OnUpdate | internal/collector/informer.go:31-41 | Writes the records of an UPDATE against the old pod, or against none when the old object is not a pod |
| Handlers.PodHandlers.OnDelete | internal/collector/informer.go:42-47 | Writes the DELETE records of the extracted pod, if any |
| Handlers.HandlersWriteDeliveries | internal/collector/informer.go:18-49 | The handlers' records are, fact for fact, the lines the start-up machine has a delivery write |
| Handlers.RecordsAreLabelled | internal/collector/informer.go:23-47 | Records are labelled by the handler that wrote them |
| Handlers.OddOldObject | internal/collector/informer.go:31-41 | An update from something that is no pod reports every container of the new pod |
| Handlers.OddObjectsAreIgnored | internal/collector/informer.go:23-47 | Objects that are no pods are ignored |
| Handlers.SectionIsListing | internal/collector/pod.go:9-27 | The container section of a snapshot is, fact for fact, what the start-up machine writes once it has listed the sorted pods, key list included |
| Startup.ViewIsConsumed | internal/collector/pod.go:9-27 | The machine's view is what a consumer of the full records and key lists ends up with |
| Startup.EveryFinalStateIsWritten | cmd/scam/main.go:303-311 | In every interleaving, when all is quiet, each container's final phase, spec and image id has been written |
| StartupView.NewestWinsExactly | cmd/scam/main.go:303-322 | After any number of snapshots, overlapping or not, the consumer's view is exactly the cluster's state iff each container whose newest line is an INITIAL line has not changed since that listing, each whose newest line is a key list that leaves it out is gone, and none held at the start is without any line |
| StartupFailures.StaleInitialWins | cmd/scam/main.go:303-311 | A complete run in which the INITIAL line overwrites the newer value for good |
| StartupFailures.DeletedPodIsResurrected | cmd/scam/main.go:303-311 | A complete run in which the INITIAL line brings a deleted pod back |
| StartupFailures.AddedPodIsPruned | internal/collector/pod.go:19-26 | A complete run in which the key list drops a pod that was added after the listing and announced before the list |
| StartupFailures.OlderListPrunes | cmd/scam/main.go:312-322 | A complete run in which an older snapshot's key list drops a pod that a newer, complete one listed and named |
| Ordering.PodLessIsTotal | internal/collector/pod.go:29-42 | The pod order is a strict total order on pods with distinct namespace and name |
| Ordering.StrLessIsFirstDifference | internal/collector/helpers.go:8-15 | Strings are ordered by their first difference, the shorter first |
| Ordering.PodLessIsKeyLess | internal/collector/pod.go:29-42 | Pods are ordered by namespace, owner kind, owner and name, in that order |
| Ordering.SortIgnoresInputOrder | internal/collector/informer.go:64-73 | Under a strict total order, any two sorted arrangements of the same objects are equal |
| Ordering.Slice.Sort | internal/collector/informer.go:66-67 | The list is sorted in place |
| Snapshots.Writer.DumpSorted | internal/collector/informer.go:64-73 | Sorts the caller's list in place, writes its records in order, then the counts of objects and records |
| Snapshots.Writer.EmitContainerSnapshot | internal/collector/pod.go:9-27 | Writes the container section, or only the error when listing fails |
| Snapshots.Writer.EmitObjectSnapshot | internal/collector/snapshot.go:162-244 | Writes another kind's section, or only the error when listing fails |
| Snapshots.Writer.EmitFullSnapshot | internal/collector/snapshot.go:71-108 | Writes begin, the sections of all present kinds in order, and end |
| Snapshots.KeysMatchRecords | internal/collector/snapshot.go:162-244 | A section is INITIAL records of its kind only, their count, and a key list that names them one by one in emission order |
| Snapshots.ObjectOrderIsKeyLess | internal/collector/helpers.go:8-32 | Objects are ordered by namespace and then name, ingress classes by name |
| SnapshotShape.SnapshotIsBracketed | internal/collector/snapshot.go:71-108 | A snapshot is enclosed in its own begin and end records, and all its key lists carry its id |
| SnapshotShape.KeyListsComeInOrder | internal/collector/snapshot.go:82-103 | One key list for each kind that was listed, in the order containers, services, endpoint slices, ingresses, ingress classes, discovered kinds |
| SnapshotShape.ObjectTarget | internal/collector/snapshot.go:170-180 | A listing that failed leaves one error record and no key list |
| Snapshots.ObjectOrderIsTotal | internal/collector/helpers.go:8-32 | Each kind's order is a strict total order on distinctly named objects |
| Snapshots.SectionsIgnoreListOrder | internal/collector/snapshot.go:170-234 | A section is the same for every order in which the informer returns the objects, and is sorted |
| SnapshotRepair.SnapshotRepairs | internal/collector/snapshot.go:71-108 | One snapshot takes any inventory to the listed objects of each listed kind and leaves a kind whose listing failed as it was |
| SnapshotRepair.SnapshotRepairsEveryKind | internal/collector/snapshot.go:71-108 | Told by the listers: services, endpoint slices, ingresses, ingress classes and every discovered kind end up exactly as listed, or untouched without a listing; kinds not covered stay |
| SnapshotRepair.ContainerRepairIsExact | internal/collector/pod.go:9-27 | For containers the repair is exact iff no container lingers whose pod uid and name a listed one shares |
| SnapshotRepair.LingeringIsKindChange | internal/collector/pod.go:20-27 | Only a container that changed its kind within the pod can linger |
| SnapshotRepair.LingeringExample | internal/collector/pod.go:20-27 | A concrete inventory in which a container under another kind survives the repair |
| Images.ColonAfter | internal/collector/image.go:32-39 | The position of the first colon after an index, or -1 |
| Images.SplitSpec | internal/collector/image.go:7-20 | The steps on the spec give the recursive specification's three parts |
| Images.SplitImage | internal/collector/image.go:7-30 | With the resolved reference, the completed parts |
| Images.SpecStandsAlone | internal/collector/image.go:18-20 | A spec pinned to a digest is read as it stands whatever was resolved; so is any spec when the resolved reference has no digest |
| Images.SplitInvertsPrint | internal/collector/image.go:7-39 | Splitting a printed reference gives its parts back iff it is readable: separators occur only where the printer puts them |
| Images.ResolvedReferenceCompletes | internal/collector/image.go:18-29 | For a spec without a digest, a resolved reference supplies it and, unless the spec names a registry, the repository |
| Images.SplitImageName | internal/collector/image.go:42-54 | The name split at the first slash when the first segment looks like a host |
| Images.NameSplitsAtHost | internal/collector/image.go:42-54 | Exactly when a name has a registry, told by its characters, and what the image is then |
| Images.NameRejoins | internal/collector/image.go:42-54 | Registry and image join to the full name, up to one "library/" of docker.io; without a registry the image is the full name |
| Images.JoinedNameSplits | internal/collector/image.go:42-54 | A host-like first segment is always taken as the registry |
| Discovery.Consider | internal/collector/gatewayapi.go:40-49 | Going through one answer keeps, per wanted resource, the highest-ranked candidate so far |
| Discovery.ChosenIsHighest | internal/collector/gatewayapi.go:40-49 | The chosen candidate serves the resource and no other that does ranks higher |
| Discovery.OrderDoesNotMatter | internal/collector/gatewayapi.go:25-50 | For any iteration order over versions the choice is v1, else v1beta1, else v1alpha2 |
| Discovery.DiscoverGatewayAPI | internal/collector/gatewayapi.go:20-58 | The result lists exactly the best served version of each wanted resource, strictly sorted, for any iteration order |
| Discovery.ListsIsUnique | internal/collector/gatewayapi.go:52-57 | There is only one such list |
| Discovery.DiscoverTraefik | internal/collector/traefik.go:20-57 | The same for Traefik |
| Discovery.TraefikChoice | internal/collector/traefik.go:25-49 | The newer group wins; within a group v1 wins over v1alpha1 |
| DiscoveredKinds.DiscoveredResourcesAreGood | internal/collector/gatewayapi.go:260-276 | Whatever is discovered, a snapshot's kinds are pairwise different, none the containers', so no key list prunes another section |
| Backends.Int32 | internal/collector/helpers.go:51-54 | A port or weight is cut to 32 bits, congruent modulo 2^32 |
| Backends.CollectRouteBackends | internal/collector/gatewayapi.go:235-258 | All references of a route in order, skipping what is not a map |
| Backends.RefsAreEntries | internal/collector/gatewayapi.go:235-258 | They are all entries that are maps, rule by rule in order, each field taken over and numbers cut to 32 bits |
| Backends.RouteBackends | internal/collector/refs.go:78-105 | The second traversal gives the targets of the very references the first one collects |
| Backends.TargetsAreServiceRefs | internal/collector/refs.go:89-101 | Targets are the subsequence of exactly the named references whose kind is Service or left out, with the reference's namespace or, when left out, the route's |
| Backends.IngressBackends | internal/collector/refs.go:57-76 | The default backend and then each path's, when it is a named service |
| Backends.IngressRefsAreBackends | internal/collector/refs.go:57-76 | An Ingress refers to its default backend first and then to every path's backend in order |
| Backends.BackendTargetsToKeys | internal/collector/refs.go:40-55 | The keys without repetition |
| Backends.DistinctKeepsElements | internal/collector/refs.go:45-53 | Removing repetitions keeps exactly the elements |
| Backends.DistinctKeepsFirstOccurrences | internal/collector/refs.go:45-53 | Each once, in the order of first occurrences |
| Backends.RefreshBackendServices | internal/collector/refs.go:107-129 | Emits the services found for the targets without repetition; nothing without a lister |
| Backends.RefreshesEachOnce | internal/collector/refs.go:107-129 | Each existing target is emitted exactly once, in the order of first mention, and nothing else is |
| BackendIndex.TargetsAreMentions | internal/collector/refs.go:57-105 | The targets indexed and refreshed for an Ingress or a route are exactly those its own fields mention |
| BackendIndex.BackendKeys | internal/collector/refs.go:30-38 | The registered key functions give the distinct keys of the object's targets |
| BackendIndex.IndexIsKept | internal/collector/refs.go:30-38 | After any stores and deletes, the objects are those last stored and the incrementally kept index is what a scan of them gives |
| BackendIndex.ServiceReferenced | internal/collector/refs.go:9-28 | True iff some indexed informer has an object under the key |
| BackendIndex.ReferencedIsScan | internal/collector/refs.go:9-28 | The index agrees with a scan for the target, whatever is stored, iff "namespace/name" has one reading |
| BackendIndex.RefreshedAreReferenced | internal/collector/refs.go:107-129 | Every service an object's event re-emits is one ServiceReferenced finds |
| Heartbeats.NextHeartbeatBackoff | internal/collector/push.go:342-353 | The loop, in wrapping 64-bit arithmetic, equals the recursive specification |
| Heartbeats.BackoffIsCappedDoubling | internal/collector/push.go:342-353 | The wait is base, then min(base * 2^(f-1), 15min), for every f, iff base is below 2^62 |
| Heartbeats.BackoffNeverShrinks | internal/collector/push.go:342-353 | For every positive base, the wait never falls with more failures iff base is at most 15 minutes |
| Heartbeats.HeartbeatLoop.Beat | internal/collector/push.go:284-318 | One attempt is one step of the log machine; the wait follows from the current run of failures |
| Heartbeats.FailingSuffixIsLongest | internal/collector/push.go:290-316 | That run is the longest failing suffix of the attempts |
| Heartbeats.CountsAreFailingSuffixes | internal/collector/push.go:290-316 | Which message an attempt adds, with every reported count the length of the failing suffix |
| Heartbeats.LogIsWord | internal/collector/push.go:290-316 | Every run's log is a word of ok? (ERROR+ restored)* ERROR*, with the ok iff the first attempt succeeded |
| Heartbeats.OutagesAreNeitherFloodedNorSilent | internal/collector/push.go:290-303 | n + 1 ERRORs of one outage span n hours, and no failing attempt comes an hour after the last ERROR without a fresh one |

## Left out

- HTTP, JSON and slog: a push is any pair of outcome and acknowledgement; a line carries its event id, if it has one, and its text.
- Standard output: `LineCapture.Write` takes its result as a parameter; short writes and bytes that are not valid UTF-8 are not modelled.
- The mutex: each buffer operation is one step, which is what the lock guarantees.
- The ten-second limit of the last flush and the batch timeouts: they are failed pushes.
- Event ids and payload fields in the snapshot model's records: the push and pod parts carry them where they matter.
- `newSnapshotID`, the jitter and the interval of `SnapshotLoop`, and the parsing of environment variables.
- client-go's informers, listers and discovery client: a store, a queue of notifications, lists that succeed or fail, and an index kept by the repository's key functions.
- The sorting algorithm behind `sort.Slice`: an insertion sort stands in, which `Ordering.SortIgnoresInputOrder` justifies for total orders.
- `TraefikBackends`: the same loop as `RouteBackends` over `routes` and `services`; one method stands for both.
- `OnEvents` for kinds other than pods: the same gate in front of handlers that copy fields.
- `ExtractTraefikHosts`, which depends on regular expressions, and the record builders of services, ingresses, endpoint slices and gateways, which copy fields.
- `transform.go`, `rorself.go`, `logattrs.go` and `main.go` apart from the start-up order.
- Startup.EveryFinalStateIsWritten: pods only; the other kinds are written whole on every event and need no such argument.
