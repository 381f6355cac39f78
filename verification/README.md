# The projection operator: model and proofs

`projection` is a Kubernetes operator. A `Projection` mirrors one source object into its own namespace; a
`ClusterProjection` mirrors it into a list of namespaces or into all that match a selector. There is no central
record of what was written: every destination carries an ownership annotation and a UID label, and all reconciles read
these marks back from one object store with optimistic concurrency.

The project models the parts of the operator that are hard to get right and proves what they are for.

| file | models |
|---|---|
| `Json.dfy` | object trees with get, set and remove at a path, absence and type errors included |
| `Types.dfy`, `Keys.dfy` | the custom resources, the joined index and owner keys |
| `Destination.dfy`, `Transform.dfy`, `Meaning.dfy` | strip, overlay, stamp, preserve, diff, and what they mean path by path and key by key |
| `Preservation.dfy` | the strip/preserve round trip, and exactly when it holds |
| `Protocol.dfy`, `Safety.dfy`, `Orphans.dfy` | the ownership protocol as a transition system with a step per API call, and its invariants over all interleavings |
| `Leftovers.dfy`, `Counterexamples.dfy` | what a deleted custom resource leaves behind, exactly; runs that show which hypotheses are needed |
| `Convergence.dfy` | convergence of a reconcile while everybody else keeps working |
| `Chains.dfy`, `Simulation.dfy`, `ReconcileRuns.dfy` | calls, and whole reconciles, on object trees are runs of the protocol on their marks |
| `FanOut.dfy`, `PooledWrites.dfy` | the worker pool: goroutines, two buffered channels, a wait group, a collector; the pool running writeClusterDestination |
| `Lists.dfy`, `Ordering.dfy`, `Summary.dfy` | sorted name lists and the failure summary |
| `Events.dfy` | source and namespace events to reconcile requests, target resolution |
| `Status.dfy` | conditions, counts, and what they say about a whole history of reconciles |
| `ApiServer.dfy`, `Cleanup.dfy`, `Writer.dfy`, `ClusterWrites.dfy`, `Reconcile.dfy` | the two reconcile functions call by call against a server any of whose calls may fail |
| `Quantile.dfy` | the latency estimators of the benchmark harness |

The same code appears in two forms. `Reconcile.dfy` runs one reconcile on full object trees against a mutable server
that answers each call as an arbitrary table of faults says; its contracts say exactly what happens for every such
table. `Protocol.dfy` interleaves any number of reconciles, users and stale caches over the ownership marks.
`ReconcileRuns.dfy` ties the two: every reconcile on trees is a run of protocol steps on the trees' marks.

Hypotheses. A Create fails on a taken key; an Update succeeds only on the version that was read; at most one reconcile
per custom resource runs at a time and its reads of that resource never go back; Delete removes the object. Only the
operator adds or removes its finalizer, and the custom resources carry no other one. Field values obey the admission
patterns (`api/v1/source_types.go:33-57`), an explicit namespace list is a set
(`api/v1/clusterprojection_types.go:54`), a decoded object's `metadata` is an object. The namespace handler maps the old
and the new object of an update. Where a theorem needs more, its `requires` says so.

Where the code falls short of its comments or of what one would expect, the code is modelled and the gap is stated
exactly:

- A comment says a destination cannot be owned by both tiers (`internal/controller/destination.go:34-40`). Each builder
  overwrites only its own tier's marks, so it is co-owned exactly when source or overlay carries the other tier's
  annotation (`Transform.CoOwnedExactly`, `Transform.CoOwnedByClusterExactly`). That is so for a Projection of a
  ClusterProjection's destination, and the ClusterProjection's next stale sweep then deletes the Projection's copy
  (`Counterexamples.ChainedProjectionLosesItsCopy`). The other way round, a Projection's 404 sweep deletes the copy of a
  ClusterProjection that mirrors the Projection's destination (`Counterexamples.ReverseChainLosesItsCopy`). For every
  sweep of either tier, when it can take an object that somebody else owns is stated exactly
  (`Counterexamples.SweepTakesForeignExactly`): the annotation must name the sweeper too, and then the UID label must
  match, except that a Projection's veto and finalizer look at no label but only at its coordinates. With sources that
  carry no other tier's annotation it never happens (`Counterexamples.DeletesSpareOthers`).
- Renaming a Projection's destination, changing the source kind, or losing the kind before the deletion leaves owned
  objects behind (`Counterexamples.RenamedProjectionLeavesOrphan`, `ChangedKindLeavesOrphan`,
  `UnresolvedKindLeavesOrphan`). In every run, what is left is exactly what was owned when the deletion path started
  and lay outside its reach (`Leftovers.LeftBehindExactly`). For a ClusterProjection the old copies in namespaces that
  stay targeted survive every write phase (`ClusterWrites.OldCopiesSurvive`, with the run
  `Counterexamples.RenamedFleetKeepsOldCopy`), but not its deletion (`Orphans.NoOrphans`).
- Copying the server's fields back makes a destination stable exactly if the source has the objects on the way to them
  (`Preservation.RoundTripExactly`, `Preservation.SteadyStateExactly`). Otherwise a field that the server clears leaves
  an empty parent behind and the next reconcile sees a difference (`Preservation.ServiceWithoutSpec`). This is the edge
  of the round trip rather than a live defect: the condition asks for a `spec`, and for a Job for the labels of its pod
  template (`Preservation.WellRootedByKind`), which an API server returns for every stored object of these kinds.
- The last-applied annotation is on a destination exactly if the overlay has it (`Transform.DroppedAnnotationExactly`):
  it is dropped before the overlay is merged (`Transform.OverlayRestoresLastApplied`).
- `needsUpdate` does not tell a missing top-level field from an explicit null (`Destination.NeedsUpdate`).
- After a source failure a ClusterProjection keeps the counts of an earlier reconcile. The stored counts describe the
  last accepted reconcile exactly if it set them, or they were zero before (`Status.CountsCurrentExactly`,
  `Status.SourceFailureKeepsCounts`).

## Model

| member | source | states |
|---|---|---|
| `Safety.WritesNeverReplaceForeign` | internal/controller/destination.go:320-447 | in every interleaving, with users changing objects at any moment and stale Gets, no accepted Create or Update replaces an object whose own-tier annotation does not name the writer |
| `Safety.WriteStep` | internal/controller/destination.go:331-372 | an accepted write hits an absent key or exactly the version that its Get returned, whose annotation names the writer, and stores the writer's stamp |
| `Safety.OneOwner` | internal/controller/destination.go:142-177 | over controller steps with clean sources, no object has two owners, within a tier or across tiers |
| `Safety.DeletesHitOwn` | internal/controller/cleanup.go:48-173 | every Delete, although unconditional, hits an existing object that the deleter owns at that moment |
| `Safety.OwnerChangesThroughAbsence` | internal/controller/destination.go:351-357 | while a key stays occupied its owner stays the same |
| `Orphans.NoOrphans` | internal/controller/finalizer.go:43-101 | over whole runs with failures and crashes after any step, once a custom resource is gone no stored object carries its annotation, even after edits of a ClusterProjection's name and targets |
| `Orphans.OwnedIsReachable` | internal/controller/cleanup.go:136-202 | while it lives, its finalizer is set and everything it owns is found by its own cleanup |
| `Counterexamples.RenamedProjectionLeavesOrphan` | internal/controller/cleanup.go:36-45 | a run of controller steps in which a renamed and deleted Projection leaves an owned object |
| `Counterexamples.ChangedKindLeavesOrphan` | internal/controller/cleanup.go:196-202 | a controlled run in which a ClusterProjection whose kind was edited leaves an owned object |
| `Counterexamples.UnresolvedKindLeavesOrphan` | internal/controller/cleanup.go:36-42 | a controlled run in which the finalizer goes without a sweep because the kind does not resolve |
| `Counterexamples.RenamedFleetKeepsOldCopy` | internal/controller/cleanup.go:158-162 | a controlled run in which a renamed ClusterProjection writes and sweeps without a failure and keeps the old copy next to the new one |
| `Leftovers.LeftBehindExactly` | internal/controller/finalizer.go:43-92 | in every controlled run, whatever was edited: after a finalizer is removed an object is still owned if and only if it was owned when the deletion path started and was out of its reach, which is the current coordinates (Projection), kind and UID label (ClusterProjection), or nothing if the kind did not resolve |
| `Leftovers.TrackedRun` | internal/controller/cleanup.go:36-202 | between start and removal the owner's objects shrink only by its own deletes, whatever everybody else does |
| `Convergence.InterleavedConvergence` | internal/controller/cluster_projection_controller.go:151-163 | in every controlled run, with anybody's steps between its calls: a ClusterProjection's reconcile whose own calls succeed ends with the namespaces that carry its marks being exactly its targets |
| `Counterexamples.ChainedProjectionLosesItsCopy` | internal/controller/cleanup.go:155-163 | a run in which a ClusterProjection writes its copy, a Projection takes that stored copy as its source, and the ClusterProjection's next reconcile, its own copy up to date, deletes the object the Projection owns |
| `Counterexamples.ReverseChainLosesItsCopy` | internal/controller/cleanup.go:84-115 | a run in which a ClusterProjection mirrors a Projection's destination and the Projection's 404 sweep deletes the ClusterProjection's copy |
| `Counterexamples.SweepTakesForeignExactly` | internal/controller/cleanup.go:36-190 | in any run and for every sweep of either tier (stale, 404, veto, finalizer): it can take an object that another custom resource owns if and only if the object has the kind and the sweeper's annotation and, as the sweep is, lies at the coordinates, or carries the UID label (outside the kept namespaces); it is then co-owned, which no controlled run produces |
| `Counterexamples.DeletesSpareOthers` | internal/controller/destination.go:34-40 | in controlled runs no Delete takes an object that somebody else owns |
| `FanOut.InvStep` | internal/controller/cluster_projection_controller.go:252-296 | every step of the pool keeps: pending, in-flight, buffered and collected are a permutation of the targets; the wait group counts live workers; cells and results are those each target has on its own |
| `FanOut.SendsNeverBlock` | internal/controller/cluster_projection_controller.go:265-282 | no send blocks or meets a closed channel |
| `FanOut.InFlightBounded` | internal/controller/cluster_projection_controller.go:252-258 | writes in flight never exceed the limit (16 when unset) or the number of targets |
| `FanOut.FullyConcurrent` | internal/controller/cluster_projection_controller.go:252-258 | and the bound is reached: some schedule has the limit (16 when unset), or all targets if fewer, in flight at once |
| `FanOut.NoDeadlock` | internal/controller/cluster_projection_controller.go:268-296 | until the collector is done some step is possible |
| `FanOut.StepDecreases` | internal/controller/cluster_projection_controller.go:268-296 | every step decreases a bounded measure, so every schedule ends |
| `FanOut.AllCollected` | internal/controller/cluster_projection_controller.go:283-296 | a finished pool collected each target exactly once |
| `FanOut.TallyIsOrderFree` | internal/controller/cluster_projection_controller.go:288-295 | counts and failure map do not depend on the order in which results arrive |
| `FanOut.PoolRefinesLoop` | internal/controller/cluster_projection_controller.go:241-297 | a finished pool has the store, counts and failure map of the plain loop over the targets, for every worker count and schedule |
| `FanOut.AllOutcomes` | internal/controller/cluster_projection_controller.go:265-296 | the plain loop leaves each target's cell as its own write does, lists it as failed exactly if that write gives a reason, with reason and message, and touches no other cell |
| `FanOut.RunPool` | internal/controller/cluster_projection_controller.go:241-297 | run under an arbitrary scheduler, the pool ends and returns the plain loop's result; written + failed is the number of targets |
| `PooledWrites.PoolFansOut` | internal/controller/cluster_projection_controller.go:235-297 | for every schedule and worker count, each target ends as planned, or untouched and reported as failed, and nothing else changes; a target with good answers fails exactly if somebody else holds it, whatever happens at the others; what each target is sent, and why it failed, is what one write says; targets as planned already cause no call |
| `PooledWrites.PoolConverges` | internal/controller/cluster_projection_controller.go:156-163 | with good answers and free targets nothing fails, and after the stale sweep the marked namespaces are exactly the targets |
| `PooledWrites.CellWrote` | internal/controller/destination.go:390-447 | the pool's write on one cell satisfies the relation that `Writer.WriteObject` promises: store before and after, the requests sent with their trees and versions, answers, reason |
| `Transform.KeepsTheRest` | internal/controller/destination.go:191-206 | outside metadata and status, every path that branches off the dropped paths has the source's value |
| `Transform.DropsBody` | internal/controller/destination.go:199-206 | every dropped spec path and every path into status is absent from a built object |
| `Transform.DropsMeta` | internal/controller/destination.go:75-80 | every dropped metadata field is absent from a built object |
| `Transform.KeepsOtherMeta` | internal/controller/destination.go:191-206 | every other metadata field is the source's |
| `Transform.BuiltCoords` | internal/controller/destination.go:231-268 | a built object sits at the namespace and name it was built for |
| `Transform.NamespacedMaps` | internal/controller/destination.go:231-248 | labels and annotations are the source's minus the dropped ones, overridden by the overlay, overridden by the Projection's stamp |
| `Transform.ClusterMaps` | internal/controller/destination.go:255-268 | the same for the ClusterProjection's stamp |
| `Meaning.ProjectionLabel` | internal/controller/destination.go:215-238 | label by label: the UID under the stamp's key, else the overlay's value, else the source's |
| `Meaning.ClusterLabel` | internal/controller/destination.go:215-262 | the same for a ClusterProjection |
| `Meaning.ProjectionAnnotation` | internal/controller/destination.go:204-235 | annotation by annotation: the owner under the stamp's key, else the overlay's value, else nothing for last-applied, else the source's |
| `Meaning.ClusterAnnotation` | internal/controller/destination.go:204-259 | the same for a ClusterProjection |
| `Meaning.MapsRead` | internal/controller/destination.go:204-218 | which entries of metadata are read as labels and annotations, null values and unreadable maps included |
| `Meaning.OwnsMeans` | internal/controller/destination.go:142-177 | whose an object is and what its UID label says, by the names of the annotations and labels |
| `Meaning.ProjectionCoords` | internal/controller/destination.go:122-129 | a Projection's object sits in the Projection's namespace under the spec's name, the source's if that is empty |
| `Meaning.ClusterCoords` | internal/controller/destination.go:135-140 | a ClusterProjection's sits in the target namespace, named by the same rule |
| `Meaning.MetadataField` | internal/controller/destination.go:75-80 | the eleven fields by name are gone, every other one but the four the builders set is the source's |
| `Meaning.KindRead` | internal/controller/destination.go:96-115 | a tree's apiVersion and kind give group, version and kind, the core group included |
| `Meaning.ServiceBuilt` | internal/controller/destination.go:97-102 | the built Service is the source without these four paths and status |
| `Meaning.ClaimBuilt` | internal/controller/destination.go:103-105 | the same for the one path of a PersistentVolumeClaim |
| `Meaning.PodBuilt` | internal/controller/destination.go:106-108 | the same for the one path of a Pod |
| `Meaning.JobBuilt` | internal/controller/destination.go:109-114 | the same for the four paths of a Job |
| `Meaning.OtherBuilt` | internal/controller/destination.go:96-115 | any other kind loses nothing but status |
| `Preservation.PreserveUndoesStrip` | internal/controller/destination.go:276-284 | for any prefix-free table, filling a hollow object from the server's object reproduces it, whatever was set and whatever rooted entry was cleared |
| `Preservation.FillClear` | internal/controller/destination.go:276-284 | leaving an entry out of the copy is clearing it last |
| `Preservation.RealTable` | internal/controller/destination.go:96-115 | the table of every kind is prefix-free and lies outside metadata and status |
| `Preservation.RoundTrip` | internal/controller/destination.go:276-314 | for any prefix-free table: whatever the server set or cleared there and changed in bookkeeping and status, building and preserving again equals the stored object outside metadata and status and needs no update |
| `Preservation.RoundTripExactly` | internal/controller/destination.go:276-314 | the round trip holds for everything the server may do if and only if the built object has the way to every table path |
| `Preservation.SteadyState` | internal/controller/destination.go:358-367 | the round trip for the real table and a real build, after a create as well as after an update |
| `Preservation.SteadyStateExactly` | internal/controller/destination.go:358-367 | the same if and only if, as a condition on the source |
| `Preservation.ServiceWithoutSpec` | internal/controller/destination.go:96-102 | the failing family: a Service without a spec, a copied clusterIP, a server that clears it |
| `Preservation.BareServiceKeepsChanging` | internal/controller/destination.go:96-102 | the smallest concrete source of that family |
| `Preservation.WellRootedByKind` | internal/controller/destination.go:96-115 | what the condition asks of a source, kind by kind |
| `Transform.AgreeIsEquivalence` | internal/controller/destination.go:286-314 | "needs no update" is an equivalence relation |
| `Transform.BlindToBookkeeping` | internal/controller/destination.go:286-290 | it does not see any metadata field but labels and annotations |
| `Transform.BlindToStatus` | internal/controller/destination.go:305-308 | it does not see status |
| `Transform.DroppedAnnotationExactly` | internal/controller/destination.go:208-215 | a dropped annotation is on a Projection's destination if and only if the overlay has it, with the overlay's value |
| `Transform.DroppedAnnotationByClusterExactly` | internal/controller/destination.go:208-215 | the same for a ClusterProjection |
| `Transform.OverlayRestoresLastApplied` | internal/controller/destination.go:85-87 | an overlay with the last-applied annotation brings it back |
| `Transform.NamespacedStamp` | internal/controller/destination.go:231-248 | the built object's marks are those carried by source and overlay with the namespaced pair replaced |
| `Transform.ClusterStamp` | internal/controller/destination.go:255-268 | the same with the cluster pair replaced |
| `Transform.CoOwnedExactly` | internal/controller/destination.go:34-40 | a Projection's destination is co-owned if and only if source or overlay carries the cluster annotation |
| `Transform.CoOwnedByClusterExactly` | internal/controller/destination.go:34-40 | a ClusterProjection's destination is co-owned if and only if source or overlay carries the namespaced annotation |
| `Transform.ChainedProjectionIsCoOwned` | internal/controller/destination.go:208-248 | a Projection of a ClusterProjection's destination is co-owned unless its overlay overrides the mark |
| `Destination.BuildDestinationCore` | internal/controller/destination.go:191-224 | the removal and merge loops compute the stripped tree and the merged maps the Transform lemmas are about |
| `Destination.PreserveAllocatedFields` | internal/controller/destination.go:276-284 | the copy loop computes the filled tree of the round trip |
| `Preservation.PreserveMerges` | internal/controller/destination.go:276-284 | the object an Update carries has the stored value at every table path where there is one and it can be set, and the built object's value at these paths otherwise and at every path that branches off them |
| `Preservation.FillAt` | internal/controller/destination.go:276-284 | for any prefix-free table, what the copy loop leaves at each of its paths |
| `Destination.NeedsUpdate` | internal/controller/destination.go:291-314 | answers false if and only if labels, annotations and every top-level field but metadata and status agree, null and absent identified |
| `Meaning.DiffSees` | internal/controller/destination.go:305-311 | a change of any top-level field but metadata and status needs an update |
| `Meaning.DiffSeesMaps` | internal/controller/destination.go:292-297 | so does a change of any label or annotation |
| `Keys.SourceKeyInjective` | internal/controller/source.go:62-64 | under admission, equal keys mean the same group, kind, namespace and name |
| `Keys.OwnerKeyInjective` | internal/controller/destination.go:144-146 | two Projections never share an owner key |
| `Keys.SourceKeyNeedsAdmission` | api/v1/source_types.go:33-57 | without the patterns two different sources share a key |
| `Events.MapSource` | internal/controller/watches.go:88-109 | the indexed lookup returns exactly the Projections whose source has the changed object's group, kind, namespace and name, pinned to a version or not |
| `Events.ClusterIndexExact` | internal/controller/cluster_projection_controller.go:381-401 | the cluster-tier index returns exactly the ClusterProjections whose source is the changed object |
| `Events.ResolveTargetNamespaces` | internal/controller/cluster_projection_controller.go:194-233 | the sorted targets are exactly the target set of the cluster; it fails exactly for a missing, invalid or empty selector or a failed List |
| `Events.TargetSetMeans` | internal/controller/cluster_projection_controller.go:194-233 | there is no target set exactly without a list and with a missing, invalid or empty selector; otherwise the targets are the listed namespaces, or those that match and are not terminating |
| `Events.MatchingRequests` | internal/controller/cluster_projection_controller.go:480-513 | the nested loops return a ClusterProjection's request if and only if its list has the namespace or, without a list, its selector is there, valid, not empty and matches the labels, in list order |
| `Events.RequestsExact` | internal/controller/cluster_projection_controller.go:480-513 | the same, name by name, of the filtered list the loops compute |
| `Events.NamespaceEventsComplete` | internal/controller/cluster_projection_controller.go:446-513 | every namespace event that changes a ClusterProjection's target set enqueues it, through the old or the new object |
| `Events.TargetsUnaffected` | internal/controller/cluster_projection_controller.go:465-479 | an event that concerns a ClusterProjection through neither object leaves its targets unchanged |
| `Status.Holder.SetConditionOn` | internal/controller/conditions.go:56-63 | the first condition of the type is replaced in place, or the condition is appended |
| `Status.Holder.Finish` | internal/controller/conditions.go:81-135 | each ending of a reconcile stages its conditions, name and counts and stores them only if the status update is accepted |
| `Status.SetOnce` | internal/controller/conditions.go:56-63 | setting a condition keeps every type at most once |
| `Status.ReportCoherent` | internal/controller/cluster_projection_controller.go:518-590 | every report leaves Ready coherent with the other conditions and gives it the reason of what failed |
| `Status.SourceFailedReport` | internal/controller/conditions.go:81-92 | the three conditions after a source failure, by name, truth, reason and message; name and counts stay |
| `Status.SourceMissingReport` | internal/controller/source.go:145-151 | the same after a 404, with SourceDeleted exactly if a destination name is recorded, else SourceNotFound |
| `Status.DestinationFailedReport` | internal/controller/conditions.go:102-117 | the three conditions after a failed write; name and counts stay |
| `Status.TargetsFailedReport` | internal/controller/cluster_projection_controller.go:534-550 | the three conditions after failed target resolution; both counts become zero, the name stays |
| `Status.AllReadyReport` | internal/controller/conditions.go:123-135 | the three conditions and the name after success |
| `Status.FannedOutReport` | internal/controller/cluster_projection_controller.go:555-590 | conditions, name and counts after a fan-out, with and without failed targets |
| `Status.Int32Means` | internal/controller/cluster_projection_controller.go:178-183 | the conversion keeps the count modulo 2^32 and lands in the 32-bit range |
| `Status.StatusInvariant` | internal/controller/conditions.go:56-135 | over every run with any status updates lost: each type at most once, Ready true exactly if the other two are, a false Ready repeats the failed condition's reason, Ready true implies no failed namespace |
| `Status.CountsAddUp` | internal/controller/cluster_projection_controller.go:174-187 | after a fan-out the reported counts add up to the number of targets |
| `Status.CountsComeFrom` | internal/controller/cluster_projection_controller.go:518-590 | over every run the stored counts are those of the last accepted reconcile that set any |
| `Status.CountsCurrentExactly` | internal/controller/cluster_projection_controller.go:518-529 | they describe the last accepted reconcile if and only if it set them or they were zero before |
| `Status.SourceFailureKeeps` | internal/controller/cluster_projection_controller.go:518-529 | after any run, a source failure keeps the counts and says not ready |
| `Status.SourceFailureKeepsCounts` | internal/controller/cluster_projection_controller.go:518-529 | the stale case: not ready, and still counting an earlier fan-out |
| `Status.NameRemembers` | internal/controller/conditions.go:123-134 | the destination name is set exactly if some accepted reconcile recorded one, and never becomes empty again |
| `Status.MissingReasonMeansHistory` | internal/controller/source.go:145-151 | a 404 reports SourceDeleted exactly if an earlier reconcile saved all-ready, respectively any post-fan-out status; SourceNotFound exactly otherwise |
| `Summary.SummarizeFailures` | internal/controller/cluster_projection_controller.go:303-319 | the shown names are the min(5, failed) smallest failed namespaces in order; shown plus more is the failed count |
| `Summary.PrefixSmallest` | internal/controller/cluster_projection_controller.go:309-313 | cutting the sorted names keeps the smallest |
| `Summary.RenderMeans` | internal/controller/cluster_projection_controller.go:314-318 | the two texts of the message, which count stands where |
| `Summary.DecimalReads` | internal/controller/cluster_projection_controller.go:315-318 | the counts are printed in digits that read back as the count |
| `Ordering.LeMeans` | internal/controller/cluster_projection_controller.go:309 | the order of names: a prefix first, otherwise the first difference decides |
| `Cleanup.DeleteOwned` | internal/controller/cleanup.go:84-173 | exactly the objects with kind, label, annotation and a namespace outside the kept set are tried, all of them, and each goes unless its own delete fails; it succeeds if and only if the List and all those deletes do |
| `Cleanup.SweepMeans` | internal/controller/cleanup.go:124-126 | a sweep removes entitled objects only, and all of them if and only if it works |
| `Cleanup.SweptMeans` | internal/controller/cleanup.go:136-163 | an object is swept exactly if it is stored with the kind, UID label and annotation, outside the kept namespaces |
| `Cleanup.SweepOf` | internal/controller/cleanup.go:136-173 | object by object: it goes exactly if the List answers, it is swept and its own Delete does not fail; what stays is unchanged |
| `Cleanup.DeleteOne` | internal/controller/cleanup.go:48-71 | removes exactly the object at the key if it is owned and both calls go through; succeeds if and only if its Get does and, for an owned object, its Delete |
| `Cleanup.DeleteOneMeans` | internal/controller/cleanup.go:48-71 | which object goes and when it counts as success, by the annotation and the two answers |
| `Cleanup.CleanupStale` | internal/controller/cleanup.go:179-190 | the same with the current targets kept |
| `Writer.WriteObject` | internal/controller/destination.go:328-379 | the whole exchange: nothing is sent after a failed Get, for a stranger or for an object as planned; a missing object is created with exactly the built tree; otherwise one Update over the version found carries the built tree with the allocated fields of the stored object; each failure has its reason; what is stored is the server's image of what was sent; a failure changes nothing, one key is touched |
| `Writer.WriteDestination` | internal/controller/destination.go:320-380 | the same for a Projection's plan at its own namespace and the name of the spec or the source |
| `Writer.WriteClusterDestination` | internal/controller/destination.go:390-447 | the same for a ClusterProjection's plan in one namespace |
| `Writer.StoredIsUpToDate` | internal/controller/destination.go:358-367 | with a well-rooted source, what the server stores of a sent object needs no further update of the same plan |
| `Writer.ClusterPlanMarks` | internal/controller/destination.go:255-268 | an object as planned carries both marks that the sweeps look for |
| `Writer.NamespacedPlanMarks` | internal/controller/destination.go:231-248 | the same for a Projection |
| `Reconcile.ProjectableExactly` | internal/controller/source.go:154-190 | the decision is the documented policy: annotated "true", or a mode other than allowlist and not "false"; a veto tells opting out from not opting in |
| `Reconcile.CourseMeans` | internal/controller/cluster_projection_controller.go:120-149 | which object is fetched, the one at the source's namespace and name, and which answer leads to which path: 404, other error, veto, write |
| `Reconcile.EndingMeans` | internal/controller/cluster_projection_controller.go:120-188 | what is reported for each path, reasons by name, the two vetoes told apart |
| `Reconcile.CanTargetMeans` | internal/controller/cluster_projection_controller.go:194-221 | targets are found exactly with a list, or with a usable selector and an answered List |
| `ClusterWrites.WriteTargets` | internal/controller/cluster_projection_controller.go:235-297 | each target ends as planned or untouched if its write failed, nothing else changes, counts and failure map match; each target is sent exactly what one write sends, in target order; a target whose own calls go through fails exactly if somebody else holds it, whatever happens at the others |
| `ClusterWrites.ProjectAll` | internal/controller/cluster_projection_controller.go:156-163 | after fan-out and sweep a failed target is untouched and nothing without both marks is removed; if no call fails the marked namespaces are exactly the targets; a converged cluster is left alone without a call |
| `ClusterWrites.OldCopiesSurvive` | internal/controller/cleanup.go:158-162 | a copy under an earlier name in a target namespace is there after the write phase if and only if it was there before |
| `Reconcile.EnsureFinalizer` | internal/controller/finalizer.go:64-101 | continues only with the finalizer set, either found or accepted by the server |
| `Reconcile.HandleClusterDeletion` | internal/controller/finalizer.go:77-92 | the store is that of the final sweep; the custom resource goes if and only if the sweep worked (or the kind does not resolve) and the Update was accepted |
| `Reconcile.ReconcileLiveCluster` | internal/controller/cluster_projection_controller.go:120-163 | the course is determined by what the calls answer; the frame theorem: writes only for a readable source that may be projected, a 404 or a veto writes nothing and sweeps what it owns, other errors change no object; the reported outcome, reason and destination name belong to the course |
| `Reconcile.ReconcileCluster` | internal/controller/cluster_projection_controller.go:104-188 | the whole reconcile, for any failing calls: which course, what happens to the store on each path, finalizer before the first write, convergence when nothing fails and nobody else holds a target, a second reconcile issues nothing, one matching status report with a non-empty name, counts that add up and the failure summary as message |
| `Reconcile.HandleDeletion` | internal/controller/finalizer.go:43-58 | the store is that of one delete at the current coordinates; the custom resource goes if and only if that worked and the Update was accepted |
| `Reconcile.DeleteDestination` | internal/controller/cleanup.go:36-45 | an unresolvable kind counts as success and touches nothing; otherwise exactly one delete at the coordinates |
| `Reconcile.DeleteMeans` | internal/controller/cleanup.go:31-45 | a strange object is left alone, nothing else is touched, and if it works nothing owned is left at the coordinates |
| `Reconcile.ReconcileLive` | internal/controller/projection_controller.go:141-205 | course and frame theorem for a Projection; all-ready is reported exactly for a successful write, with the destination's name |
| `Reconcile.ReconcileProjection` | internal/controller/projection_controller.go:121-205 | the whole reconcile of a Projection, for any failing calls: which course, what happens to the store on each path, finalizer before the first write, the destination is as planned whenever its own calls go through and nobody else holds it, one matching status report with a non-empty name |
| `Reconcile.UnhinderedConverges` | internal/controller/cluster_projection_controller.go:151-163 | course and frame together force convergence when nothing stands in the way |
| `Simulation.WriteIsRun` | internal/controller/destination.go:328-379 | whatever a write does to the trees is a Get step followed by a Create, an Update or the end of the job, on their marks |
| `Simulation.ProjectionWriteIsRun` | internal/controller/destination.go:320-380 | the same for writeDestination with the marks its builder puts on |
| `Simulation.ClusterWriteIsRun` | internal/controller/destination.go:390-447 | the same for writeClusterDestination |
| `ReconcileRuns.TraceCluster` | internal/controller/cluster_projection_controller.go:104-188 | every reconcile of a ClusterProjection, whatever calls fail, is accompanied by a run of protocol steps from any agreeing state to one that agrees with what it left; the custom resource goes in one exactly when in the other |
| `ReconcileRuns.TraceProjection` | internal/controller/projection_controller.go:121-205 | the same for a Projection |
| `ReconcileRuns.ClusterReconcileIsRun` | internal/controller/cluster_projection_controller.go:104-188 | the run is built from the reconcile's contract alone: read, finalizer, fetch, one write per target in order, sweep |
| `ReconcileRuns.ProjectionReconcileIsRun` | internal/controller/projection_controller.go:121-205 | the same for a Projection |
| `Simulation.SweptMatches` | internal/controller/cleanup.go:136-173 | the objects a sweep deletes are those the protocol's sweep collects |
| `Simulation.OneMatches` | internal/controller/cleanup.go:48-61 | so is the object deleteOneDestination deletes |
| `Simulation.SweepIsRun` | internal/controller/cleanup.go:84-173 | any outcome of a list-and-delete loop is a run of the protocol's sweep, clean if and only if everything listed is gone |
| `Simulation.NamespacedStampMatches` | internal/controller/destination.go:231-248 | the Projection's builder stamps as the protocol does |
| `Simulation.ClusterStampMatches` | internal/controller/destination.go:255-268 | the ClusterProjection's builder stamps as the protocol does |
| `Quantile.HistogramQuantile` | test/bench/measure.go:86-116 | sorts the buckets in place and returns the estimate at rank total times q |
| `Quantile.Scan` | test/bench/measure.go:96-115 | the loop with its two carried values computes the estimate of the first bucket that holds the rank, without a division by zero |
| `Quantile.InterpolatesInBucket` | test/bench/measure.go:105-110 | in a finite bucket the estimate is where the line through the bucket's corners reaches the rank, and lies between the bounds |
| `Quantile.Unbounded` | test/bench/measure.go:102-115 | past the last bucket or in one of at least 1e300 the estimate is the bound before it, in an empty one its own bound |
| `Quantile.EmptyBucket` | test/bench/measure.go:106-108 | the holding bucket adds no samples only if it is the first and the rank is not positive |
| `Quantile.SortingUnique` | test/bench/measure.go:93-95 | the result does not depend on how an unstable sort breaks ties |
| `Quantile.EstimateMonotone` | test/bench/measure.go:86-116 | the estimate is monotone in the rank |
| `Quantile.QuantileMonotone` | test/bench/measure.go:86-116 | a larger q never gives a smaller estimate, whatever order the buckets came in |
| `Quantile.Quantiles` | test/bench/measure.go:164-172 | indexes in range on every input; on sorted input p50, p95 and p99 are ordered and each is the nearest rank rounded up |

## Left out

- Watch registration (`ensureSourceWatch`, `ensureDestWatch`, their dedup maps, mutexes and gauges) and `enqueueByUID`: they decide when a reconcile runs, not what it does, and every theorem here holds for any order of reconciles.
- Manager, flag, TLS, leader-election and metrics wiring, the informer cache, the workqueue and the RESTMapper: library code; a resolved kind is a parameter, `None` when it does not resolve or is cluster-scoped.
- Events, log lines, latency observations, counters, and the message texts other than the failure summary; LastTransitionTime and ObservedGeneration of conditions.
- Label-selector syntax: a selector is an arbitrary predicate with an "empty" and an "invalid" flag.
- Update in place and aliasing of object trees: trees are values, so that source, overlay and the shared source of the fan-out stay unmodified (`internal/controller/destination.go:192`) holds by construction and is not a theorem about deep copies.
- FanOut.RunPool: the write of one target is an arbitrary function of that target's own cell, with the server's answers fixed per target; `PooledWrites.CellWrote` puts writeClusterDestination there.
- Reconcile.ReconcileCluster: one reconcile by itself, its fan-out as the loop the pool refines; other actors between its calls are in `Protocol`, `Safety` and `Convergence`.
- ReconcileRuns.TraceCluster: the final Update of the status is not among the steps; the protocol has it as a step of its own that changes no field the others read.
- Preservation.RoundTrip: the server may set and clear the table's paths; defaulting elsewhere in spec would cause an update and is outside the hypothesis.
- Orphans.NoOrphans: the kind stays fixed and resolvable, and for a Projection the destination name too; what happens without these is `Leftovers.LeftBehindExactly`.
- Status.CountsAddUp: below 2^31 targets, because the source narrows the counts to 32 bits.
- Quantile.HistogramQuantile: real arithmetic for floating point, any bound of at least 1e300 for infinity; rounding is not modelled.
- The readers of string maps treat an explicit null value as the empty string and any other non-string as making the whole map unreadable, as the apimachinery version in use does; that library is not part of this model.
- Deleting through owner references, RBAC, Helm charts, generated deep-copy code, and the rest of the benchmark harness.
