/** The two reconcile state machines, call by call, against one API server. Each takes the answers of the calls that
    are not about stored objects (RESTMapper, namespace List, the Updates of the custom resource) as parameters. */
module Reconcile {
  import opened Wrappers
  import opened Json
  import opened Types
  import opened Destination
  import opened Transform
  import opened Preservation
  import opened ApiServer
  import opened Cleanup
  import opened Writer
  import opened ClusterWrites
  import opened Lists
  import opened Events
  import F = FanOut
  import S = Status
  import Sum = Summary

  const PROJECTABLE_ANNOTATION := "projection.sh/projectable"

  /** checkProjectable: None when the source may be projected, otherwise the reason. */
  function CheckProjectable(source: Object, mode: string): Option<string>
  {
    var val := Entry(Annotations(source), PROJECTABLE_ANNOTATION);
    if val == Some("false") then Some("SourceOptedOut")
    else if (mode == "" || mode == "allowlist") && val != Some("true") then Some("SourceNotProjectable")
    else None
  }

  /** Opt-in and opt-out, as the policy is documented. */
  predicate MayProject(source: Object, mode: string)
  {
    var val := Entry(Annotations(source), PROJECTABLE_ANNOTATION);
    val == Some("true") || (mode != "" && mode != "allowlist" && val != Some("false"))
  }

  /** A source that opted out, and one that did not opt in, are told apart. */
  function VetoReason(source: Object): string
  {
    if Entry(Annotations(source), PROJECTABLE_ANNOTATION) == Some("false") then "SourceOptedOut"
    else "SourceNotProjectable"
  }

  lemma ProjectableExactly(source: Object, mode: string)
    ensures CheckProjectable(source, mode) == if MayProject(source, mode) then None else Some(VetoReason(source))
  {
    assert |"true"| == 4 && |"false"| == 5;
  }

  /** The custom resource as the reconcile updates it. */
  class Cr {
    var deleting: bool
    var finalizer: bool
    var gone: bool

    constructor (deleting: bool, finalizer: bool)
      ensures this.deleting == deleting && this.finalizer == finalizer && !gone
    {
      this.deleting, this.finalizer, this.gone := deleting, finalizer, false;
    }
  }

  /** How far a reconcile got. */
  datatype Course =
    | Finalized            // deleting: cleaned up and the finalizer removed, or none of ours
    | CleanupFailed        // deleting: a delete failed, the finalizer stays
    | CrNotSaved           // the Update of the custom resource was refused
    | Unresolved           // the source kind does not resolve
    | SourceUnreadable     // fetching the source failed with something other than a 404
    | SourceGone           // 404
    | Vetoed               // the source must not be projected
    | NoTargets            // target resolution failed
    | Wrote(rollup: F.Rollup)

  // ----- Deletion -----

  /** How the deletion path ends. Without our finalizer there is nothing to do; otherwise the custom resource goes if
      and only if the cleanup works and the Update is accepted. */
  predicate DeletionCourse(c: Course, finalizer: bool, works: bool, saved: bool, wasGone: bool, gone: bool,
                           finalizerNow: bool)
  {
    if !finalizer then c.Finalized? && gone == wasGone && !finalizerNow
    else if !works then c.CleanupFailed? && gone == wasGone && finalizerNow
    else if !saved then c.CrNotSaved? && gone == wasGone && finalizerNow
    else c.Finalized? && gone && !finalizerNow
  }

  /** The sweep of a ClusterProjection's finalizer; without a kind there is none, and nothing to fail. */
  function AfterFinalSweep(f: Faults, was: Objects, o: Owner, resolved: Option<string>): Objects
  {
    if resolved.None? then was else AfterSweep(f, was, o, resolved.value, None)
  }

  ghost predicate FinalSweepWorks(f: Faults, was: Objects, o: Owner, resolved: Option<string>)
  {
    resolved.Some? ==> SweepWorks(f, was, o, resolved.value, None)
  }

  /** handleClusterDeletion. */
  method HandleClusterDeletion(api: Server, cr: Cr, cp: ClusterProjection, resolved: Option<string>, crSaved: bool)
    returns (c: Course)
    requires cr.deleting
    modifies api, cr
    ensures api.requests == old(api.requests) && api.clock == old(api.clock)
    ensures api.objects == if old(cr.finalizer)
                           then AfterFinalSweep(api.faults, old(api.objects), ClusterOwner(cp), resolved)
                           else old(api.objects)
    ensures DeletionCourse(c, old(cr.finalizer),
                           FinalSweepWorks(api.faults, old(api.objects), ClusterOwner(cp), resolved),
                           crSaved, old(cr.gone), cr.gone, cr.finalizer)
  {
    if cr.finalizer {
      if resolved.Some? {
        var ok := DeleteOwned(api, ClusterOwner(cp), resolved.value, None);
        if !ok {
          return CleanupFailed;
        }
      }
      if !crSaved {
        return CrNotSaved;
      }
      cr.finalizer, cr.gone := false, true;
    }
    return Finalized;
  }

  /** ensureFinalizer and ensureClusterFinalizer: an Update only when the finalizer is missing. */
  method EnsureFinalizer(cr: Cr, crSaved: bool) returns (ok: bool)
    modifies cr
    ensures ok == (old(cr.finalizer) || crSaved)
    ensures cr.finalizer == ok
    ensures cr.gone == old(cr.gone) && cr.deleting == old(cr.deleting)
  {
    if cr.finalizer {
      return true;
    }
    if crSaved {
      cr.finalizer := true;
    }
    return crSaved;
  }

  /** The Create and Update calls issued before and after. */
  datatype Said = Said(before: seq<Request>, after: seq<Request>)

  // ----- How far a live custom resource gets -----

  /** The source a reconcile of `ref` reads: present in the store under the resolved kind. */
  predicate Readable(was: Objects, resolved: Option<string>, ref: SourceRef)
  {
    resolved.Some? && Key(resolved.value, ref.namespace, ref.name) in was
  }

  function SourceIn(was: Objects, resolved: Option<string>, ref: SourceRef): Object
    requires Readable(was, resolved, ref)
  {
    was[Key(resolved.value, ref.namespace, ref.name)].tree
  }

  predicate Projectable(was: Objects, resolved: Option<string>, ref: SourceRef, mode: string)
  {
    Readable(was, resolved, ref) && MayProject(SourceIn(was, resolved, ref), mode)
  }

  /** How far the reconcile of a live custom resource gets is determined by what the calls answer. */
  predicate LiveCourse(was: Objects, f: Faults, resolved: Option<string>, ref: SourceRef, mode: string,
                       canTarget: bool, c: Course)
  {
    if resolved.None? then c.Unresolved?
    else if f.get(Dynamic, Key(resolved.value, ref.namespace, ref.name)) then c.SourceUnreadable?
    else if !Readable(was, resolved, ref) then c.SourceGone?
    else if !MayProject(SourceIn(was, resolved, ref), mode) then c.Vetoed?
    else if canTarget then c.Wrote?
    else c.NoTargets?
  }

  /** The status outcome that goes with how far the reconcile of a live custom resource got. */
  predicate EndsWith(was: Objects, resolved: Option<string>, ref: SourceRef, name: string, c: Course, ending: S.Outcome)
  {
    match c
    case Unresolved => ending.SourceFailed? && ending.reason == "SourceResolutionFailed"
    case SourceUnreadable => ending.SourceFailed? && ending.reason == "SourceFetchFailed"
    case SourceGone => ending.SourceMissing?
    case Vetoed =>
      Readable(was, resolved, ref) && ending.SourceFailed? && ending.reason == VetoReason(SourceIn(was, resolved, ref))
    case NoTargets => ending.TargetsFailed?
    case Wrote(_) =>
      || (ending.FannedOut? && ending.name == name)
      || (ending.AllReady? && ending.name == name)
      || ending.DestinationFailed?
    case _ => false
  }

  /** Only non-empty names are recorded, as the history of a status needs. */
  lemma EndsNamed(was: Objects, resolved: Option<string>, ref: SourceRef, name: string, c: Course, ending: S.Outcome)
    requires EndsWith(was, resolved, ref, name, c, ending) && name != ""
    ensures S.Named(ending)
  {
  }

  /** The course in full: the object fetched is the one the source reference names, and the decision is the annotation's
      and the mode's. */
  lemma CourseMeans(was: Objects, f: Faults, resolved: Option<string>, ref: SourceRef, mode: string, canTarget: bool,
                    c: Course)
    requires LiveCourse(was, f, resolved, ref, mode, canTarget, c)
    ensures c.Unresolved? <==> resolved.None?
    ensures resolved.Some? ==>
              var key := Key(resolved.value, ref.namespace, ref.name);
              && (c.SourceUnreadable? <==> f.get(Dynamic, key))
              && (c.SourceGone? <==> !f.get(Dynamic, key) && key !in was)
              && (c.Vetoed? <==> !f.get(Dynamic, key) && key in was && !Allowed(was[key].tree, mode))
              && (c.Wrote? <==> !f.get(Dynamic, key) && key in was && Allowed(was[key].tree, mode) && canTarget)
              && (c.NoTargets? <==> !f.get(Dynamic, key) && key in was && Allowed(was[key].tree, mode) && !canTarget)
    ensures c.Vetoed? || c.Wrote? ==>
              SourceIn(was, resolved, ref) == was[Key(resolved.value, ref.namespace, ref.name)].tree
  {
    assert |"true"| == 4 && |"false"| == 5;
  }

  predicate Allowed(source: Object, mode: string)
  {
    match Entry(Annotations(source), "projection.sh/projectable")
    case Some(val) => val == "true" || (val != "false" && mode !in {"", "allowlist"})
    case None => mode !in {"", "allowlist"}
  }

  /** What is reported for each course, in full. */
  lemma EndingMeans(was: Objects, resolved: Option<string>, ref: SourceRef, name: string, c: Course, ending: S.Outcome)
    requires EndsWith(was, resolved, ref, name, c, ending)
    ensures c.Unresolved? ==> ending == S.SourceFailed("SourceResolutionFailed", ending.msg)
    ensures c.SourceUnreadable? ==> ending == S.SourceFailed("SourceFetchFailed", ending.msg)
    ensures c.SourceGone? ==> ending == S.SourceMissing(ending.msg)
    ensures c.Vetoed? ==>
              var tree := was[Key(resolved.value, ref.namespace, ref.name)].tree;
              var optedOut := Entry(Annotations(tree), "projection.sh/projectable") == Some("false");
              ending == S.SourceFailed(if optedOut then "SourceOptedOut" else "SourceNotProjectable", ending.msg)
    ensures c.NoTargets? ==> ending == S.TargetsFailed(ending.resolved, ending.msg)
    ensures ending.AllReady? || ending.FannedOut? ==> c.Wrote? && ending.name == name
  {
  }

  // ----- ClusterProjection -----

  /** Target resolution succeeds: an explicit list, or a usable selector and an answered List. */
  ghost predicate CanTarget(cp: ClusterProjection, cluster: map<string, Namespace>, items: Option<seq<Item>>)
  {
    TargetSet(cp, cluster).Some? && (|cp.namespaces| > 0 || items.Some?)
  }

  lemma CanTargetMeans(cp: ClusterProjection, cluster: map<string, Namespace>, items: Option<seq<Item>>)
    ensures CanTarget(cp, cluster, items) <==>
            || cp.namespaces != []
            || (cp.selector.Some? && !cp.selector.value.invalid && !cp.selector.value.empty && items.Some?)
  {
    TargetSetMeans(cp, cluster, "");
  }

  /** What one reconcile of a live ClusterProjection does to the stored objects, by how far it got. */
  ghost predicate ClusterFrame(was: Objects, clock: nat, now: Objects, clock': nat, said: Said, f: Faults,
                               cp: ClusterProjection, resolved: Option<string>, targets: Option<set<string>>, c: Course)
  {
    match c
    case SourceGone => CleanedUp(was, clock, now, clock', f, ClusterOwner(cp), resolved)
    case Vetoed => CleanedUp(was, clock, now, clock', f, ClusterOwner(cp), resolved)
    case Wrote(r) =>
      && Readable(was, resolved, cp.source) && targets.Some?
      && ProjectedAll(was, now, f, cp, SourceIn(was, resolved, cp.source), targets.value, resolved.value, r)
      && InPhases(was, clock, now, clock', said, r.failures, f, cp, SourceIn(was, resolved, cp.source), targets.value,
                  resolved.value)
    case _ => now == was && clock' == clock
  }

  /** All owned objects of the kind are swept, as far as the calls go through. */
  predicate CleanedUp(was: Objects, clock: nat, now: Objects, clock': nat, f: Faults, o: Owner,
                      resolved: Option<string>)
  {
    resolved.Some? && now == AfterSweep(f, was, o, resolved.value, None) && clock' == clock
  }

  /** The write phase, with the targets in some order: what it does to the store and what it says to the server. */
  ghost predicate InPhases(was: Objects, clock: nat, now: Objects, clock': nat, said: Said,
                           failures: map<string, string>, f: Faults, cp: ClusterProjection, source: Object,
                           targets: set<string>, kind: string)
  {
    exists order ::
      && Distinct(order) && SetOf(order) == targets
      && Phases(was, clock, order, now, clock', f, cp, source, kind)
      && Told(was, said.before, order, said.after, now, failures, f, cp, source, kind)
  }

  /** The condition message of a partial failure is the text of a faithful summary. */
  ghost predicate Announces(ending: S.Outcome, r: F.Rollup)
  {
    && ending.FannedOut? && ending.rollup == r
    && (r.failed > 0 ==> exists s :: Sum.Summarizes(s, r.failed, r.failures) && ending.msg == Sum.Render(s))
  }

  /** The cluster already matches the spec, and the source is well rooted. */
  ghost predicate Steady(was: Objects, cp: ClusterProjection, resolved: Option<string>, targets: Option<set<string>>)
  {
    && Readable(was, resolved, cp.source) && WellRooted(SourceIn(was, resolved, cp.source)) && targets.Some?
    && Converged(was, cp, SourceIn(was, resolved, cp.source), targets.value, resolved.value)
  }

  /** The part of ClusterProjectionReconciler.Reconcile after the finalizer, up to the status report. */
  method ReconcileLiveCluster(api: Server, cp: ClusterProjection, mode: string, resolved: Option<string>,
                              items: Option<seq<Item>>, ghost cluster: map<string, Namespace>)
    returns (c: Course, ending: S.Outcome)
    requires Distinct(cp.namespaces)
    requires items.Some? && TargetSet(cp, cluster).Some? ==> Listing(items.value, cp, cluster)
    modifies api
    ensures LiveCourse(old(api.objects), api.faults, resolved, cp.source, mode, CanTarget(cp, cluster, items), c)
    ensures ClusterFrame(old(api.objects), old(api.clock), api.objects, api.clock,
                         Said(old(api.requests), api.requests), api.faults, cp, resolved,
                         TargetSet(cp, cluster), c)
    ensures api.requests != old(api.requests) ==> c.Wrote?
    ensures c.Wrote? && Steady(old(api.objects), cp, resolved, TargetSet(cp, cluster)) ==>
              api.objects == old(api.objects) && api.requests == old(api.requests)
    ensures EndsWith(old(api.objects), resolved, cp.source, ClusterDestinationName(cp), c, ending)
    ensures S.Cluster(ending) && (c.Wrote? ==> Announces(ending, c.rollup))
  {
    if resolved.None? {
      return Unresolved, S.SourceFailed("SourceResolutionFailed", "");
    }
    var got := api.Get(Dynamic, Key(resolved.value, cp.source.namespace, cp.source.name));
    if got.GetError? {
      return SourceUnreadable, S.SourceFailed("SourceFetchFailed", "");
    }
    if got.NotFound? {
      var _ := DeleteOwned(api, ClusterOwner(cp), resolved.value, None);
      return SourceGone, S.SourceMissing("");
    }
    c, ending := ReconcileSource(api, cp, mode, resolved.value, got.value.tree, items, cluster);
  }

  /** The same for a source that was read. */
  method ReconcileSource(api: Server, cp: ClusterProjection, mode: string, kind: string, source: Object,
                         items: Option<seq<Item>>, ghost cluster: map<string, Namespace>)
    returns (c: Course, ending: S.Outcome)
    requires Distinct(cp.namespaces)
    requires items.Some? && TargetSet(cp, cluster).Some? ==> Listing(items.value, cp, cluster)
    requires Readable(api.objects, Some(kind), cp.source) && source == SourceIn(api.objects, Some(kind), cp.source)
    modifies api
    ensures if !MayProject(source, mode) then c.Vetoed?
            else if CanTarget(cp, cluster, items) then c.Wrote?
            else c.NoTargets?
    ensures ClusterFrame(old(api.objects), old(api.clock), api.objects, api.clock,
                         Said(old(api.requests), api.requests), api.faults, cp, Some(kind),
                         TargetSet(cp, cluster), c)
    ensures api.requests != old(api.requests) ==> c.Wrote?
    ensures c.Wrote? && Steady(old(api.objects), cp, Some(kind), TargetSet(cp, cluster)) ==>
              api.objects == old(api.objects) && api.requests == old(api.requests)
    ensures EndsWith(old(api.objects), Some(kind), cp.source, ClusterDestinationName(cp), c, ending)
    ensures S.Cluster(ending) && (c.Wrote? ==> Announces(ending, c.rollup))
  {
    ProjectableExactly(source, mode);
    var veto := CheckProjectable(source, mode);
    if veto.Some? {
      var _ := DeleteOwned(api, ClusterOwner(cp), kind, None);
      return Vetoed, S.SourceFailed(veto.value, "");
    }
    c, ending := ProjectSource(api, cp, source, kind, items, cluster);
  }

  /** The part of the reconcile from target resolution to the stale sweep, for a source that may be projected. */
  method ProjectSource(api: Server, cp: ClusterProjection, source: Object, kind: string, items: Option<seq<Item>>,
                       ghost cluster: map<string, Namespace>) returns (c: Course, ending: S.Outcome)
    requires Distinct(cp.namespaces)
    requires items.Some? && TargetSet(cp, cluster).Some? ==> Listing(items.value, cp, cluster)
    modifies api
    ensures if CanTarget(cp, cluster, items) then c.Wrote? else c.NoTargets?
    ensures c.NoTargets? ==> api.objects == old(api.objects) && api.clock == old(api.clock)
    ensures c.NoTargets? ==> api.requests == old(api.requests) && ending == S.TargetsFailed("", "")
    ensures c.Wrote? ==> Announces(ending, c.rollup) && ending.name == ClusterDestinationName(cp)
    ensures c.Wrote? ==> ProjectedAll(old(api.objects), api.objects, api.faults, cp, source,
                                      TargetSet(cp, cluster).value, kind, c.rollup)
    ensures c.Wrote? ==> InPhases(old(api.objects), old(api.clock), api.objects, api.clock,
                                  Said(old(api.requests), api.requests), c.rollup.failures, api.faults, cp, source,
                                  TargetSet(cp, cluster).value, kind)
    ensures c.Wrote? && WellRooted(source) &&
            Converged(old(api.objects), cp, source, TargetSet(cp, cluster).value, kind) ==>
              api.objects == old(api.objects) && api.requests == old(api.requests)
  {
    var targets := ResolveTargets(cp, items, cluster);
    if targets.None? {
      return NoTargets, S.TargetsFailed("", "");
    }
    var rollup := ProjectAll(api, cp, source, targets.value, kind);
    var msg := "";
    if rollup.failed > 0 {
      var summary := Sum.SummarizeFailures(rollup.failed, rollup.failures);
      msg := Sum.Render(summary);
    }
    return Wrote(rollup), S.FannedOut("", ClusterDestinationName(cp), msg, rollup);
  }

  /** The resolved targets are distinct: an explicit list is a set at admission, a List returns each namespace once. */
  method ResolveTargets(cp: ClusterProjection, items: Option<seq<Item>>, ghost cluster: map<string, Namespace>)
    returns (targets: Option<seq<string>>)
    requires Distinct(cp.namespaces)
    requires items.Some? && TargetSet(cp, cluster).Some? ==> Listing(items.value, cp, cluster)
    ensures targets.Some? <==> CanTarget(cp, cluster, items)
    ensures targets.Some? ==> TargetSet(cp, cluster) == Some(SetOf(targets.value)) && Distinct(targets.value)
    ensures targets.Some? ==> |SetOf(targets.value)| == |targets.value|
  {
    targets := ResolveTargetNamespaces(cp, items, cluster);
    if targets.Some? {
      if |cp.namespaces| > 0 {
        Permuted(cp.namespaces, targets.value);
      }
      DistinctSize(targets.value);
    }
  }

  /** Everything that must go well for a ClusterProjection to converge: its source may be projected and stamped, its
      targets resolve, and nobody else holds one of them. */
  ghost predicate Unhindered(was: Objects, cp: ClusterProjection, mode: string, resolved: Option<string>,
                             cluster: map<string, Namespace>, items: Option<seq<Item>>)
  {
    && Projectable(was, resolved, cp.source, mode)
    && Stampable(SourceIn(was, resolved, cp.source))
    && CanTarget(cp, cluster, items)
    && AllFree(was, cp, TargetSet(cp, cluster).value, resolved.value)
  }

  lemma UnhinderedConverges(was: Objects, clock: nat, now: Objects, clock': nat, said: Said, f: Faults,
                            cp: ClusterProjection, mode: string, resolved: Option<string>,
                            cluster: map<string, Namespace>, items: Option<seq<Item>>, c: Course)
    requires LiveCourse(was, f, resolved, cp.source, mode, CanTarget(cp, cluster, items), c)
    requires ClusterFrame(was, clock, now, clock', said, f, cp, resolved, TargetSet(cp, cluster), c)
    requires Unhindered(was, cp, mode, resolved, cluster, items) && Faultless(f)
    ensures c.Wrote? && c.rollup.failed == 0
    ensures Converged(now, cp, SourceIn(was, resolved, cp.source), TargetSet(cp, cluster).value, resolved.value)
  {
    var source, targets := SourceIn(was, resolved, cp.source), TargetSet(cp, cluster).value;
    FreeConverges(was, now, f, cp, source, targets, resolved.value, c.rollup);
  }

  /** The live part of the reconcile with its status report. */
  method ReportLiveCluster(api: Server, holder: S.Holder, cp: ClusterProjection, mode: string, resolved: Option<string>,
                           items: Option<seq<Item>>, ghost cluster: map<string, Namespace>, statusSaved: bool)
    returns (c: Course, ending: S.Outcome)
    requires Distinct(cp.namespaces)
    requires items.Some? && TargetSet(cp, cluster).Some? ==> Listing(items.value, cp, cluster)
    modifies api, holder
    ensures LiveCourse(old(api.objects), api.faults, resolved, cp.source, mode, CanTarget(cp, cluster, items), c)
    ensures ClusterFrame(old(api.objects), old(api.clock), api.objects, api.clock,
                         Said(old(api.requests), api.requests), api.faults, cp, resolved,
                         TargetSet(cp, cluster), c)
    ensures Faultless(api.faults) && Unhindered(old(api.objects), cp, mode, resolved, cluster, items) ==>
              Converged(api.objects, cp, SourceIn(old(api.objects), resolved, cp.source), TargetSet(cp, cluster).value,
                        resolved.value)
    ensures api.requests != old(api.requests) ==> c.Wrote?
    ensures c.Wrote? && Steady(old(api.objects), cp, resolved, TargetSet(cp, cluster)) ==>
              api.objects == old(api.objects) && api.requests == old(api.requests)
    ensures EndsWith(old(api.objects), resolved, cp.source, ClusterDestinationName(cp), c, ending)
    ensures holder.status == S.Report(old(holder.status), ending)
    ensures holder.saved == if statusSaved then holder.status else old(holder.saved)
    ensures S.Cluster(ending) && (c.Wrote? ==> Announces(ending, c.rollup))
    ensures c.Wrote? && |TargetSet(cp, cluster).value| < 0x8000_0000 ==>
              holder.status.namespacesWritten + holder.status.namespacesFailed == |TargetSet(cp, cluster).value|
  {
    ghost var was, clock, before, st := api.objects, api.clock, api.requests, holder.status;
    c, ending := ReconcileLiveCluster(api, cp, mode, resolved, items, cluster);
    if Faultless(api.faults) && Unhindered(was, cp, mode, resolved, cluster, items) {
      UnhinderedConverges(was, clock, api.objects, api.clock, Said(before, api.requests), api.faults, cp, mode,
                          resolved, cluster, items, c);
    }
    holder.Finish(ending, statusSaved);
    if c.Wrote? && |TargetSet(cp, cluster).value| < 0x8000_0000 {
      S.CountsAddUp(st, ending, |TargetSet(cp, cluster).value|);
    }
  }

  /** What a reconcile of a ClusterProjection does to the stored objects and the clock, path by path. */
  ghost predicate ClusterDid(was: Objects, clock: nat, now: Objects, clock': nat, said: Said, f: Faults,
                             cp: ClusterProjection, resolved: Option<string>, targets: Option<set<string>>, c: Course,
                             deleting: bool, finalizer: bool, saved: bool)
  {
    if deleting then
      && clock' == clock
      && now == if finalizer then AfterFinalSweep(f, was, ClusterOwner(cp), resolved) else was
    else if finalizer || saved then ClusterFrame(was, clock, now, clock', said, f, cp, resolved, targets, c)
    else now == was && clock' == clock
  }

  /** ClusterProjectionReconciler.Reconcile. `resolved` is the answer of resolveGVR, `items` that of the namespace
      List; `crSaved` and `statusSaved` say whether the Updates of the custom resource are accepted. */
  method ReconcileCluster(api: Server, cr: Cr, holder: S.Holder, cp: ClusterProjection, mode: string,
                          resolved: Option<string>, items: Option<seq<Item>>, ghost cluster: map<string, Namespace>,
                          crSaved: bool, statusSaved: bool) returns (c: Course, report: Option<S.Outcome>)
    requires Distinct(cp.namespaces)
    requires items.Some? && TargetSet(cp, cluster).Some? ==> Listing(items.value, cp, cluster)
    modifies api, cr, holder
    // which course it takes
    ensures old(cr.deleting) ==>
              DeletionCourse(c, old(cr.finalizer),
                             FinalSweepWorks(api.faults, old(api.objects), ClusterOwner(cp), resolved),
                             crSaved, old(cr.gone), cr.gone, cr.finalizer)
    ensures !old(cr.deleting) && !old(cr.finalizer) && !crSaved ==> c.CrNotSaved?
    ensures !old(cr.deleting) && (old(cr.finalizer) || crSaved) ==>
              LiveCourse(old(api.objects), api.faults, resolved, cp.source, mode, CanTarget(cp, cluster, items), c)
    // what it does to the stored objects
    ensures ClusterDid(old(api.objects), old(api.clock), api.objects, api.clock, Said(old(api.requests), api.requests),
                       api.faults, cp, resolved,
                       TargetSet(cp, cluster), c, old(cr.deleting), old(cr.finalizer), crSaved)
    // convergence, and a second reconcile of an unchanged ClusterProjection issues nothing
    ensures !old(cr.deleting) && (old(cr.finalizer) || crSaved) && Faultless(api.faults) &&
            Unhindered(old(api.objects), cp, mode, resolved, cluster, items) ==>
              Converged(api.objects, cp, SourceIn(old(api.objects), resolved, cp.source), TargetSet(cp, cluster).value,
                        resolved.value)
    ensures c.Wrote? && Steady(old(api.objects), cp, resolved, TargetSet(cp, cluster)) ==>
              api.objects == old(api.objects) && api.requests == old(api.requests)
    ensures api.requests != old(api.requests) ==> c.Wrote? && cr.finalizer
    ensures cr.gone && !old(cr.gone) ==> old(cr.deleting)
    // the status is reported once, by the outcome that belongs to the course, and never with an empty name
    ensures report.Some? <==> !old(cr.deleting) && (old(cr.finalizer) || crSaved)
    ensures report.None? ==> holder.status == old(holder.status) && holder.saved == old(holder.saved)
    ensures report.Some? ==>
              && holder.status == S.Report(old(holder.status), report.value)
              && holder.saved == if statusSaved then holder.status else old(holder.saved)
    ensures report.Some? ==>
              EndsWith(old(api.objects), resolved, cp.source, ClusterDestinationName(cp), c, report.value)
    ensures report.Some? ==> S.Cluster(report.value) && (c.Wrote? ==> Announces(report.value, c.rollup))
    ensures report.Some? && cp.source.name != "" ==> S.Named(report.value)
    ensures c.Wrote? && |TargetSet(cp, cluster).value| < 0x8000_0000 ==>
              holder.status.namespacesWritten + holder.status.namespacesFailed == |TargetSet(cp, cluster).value|
  {
    report := None;
    if cr.deleting {
      c := HandleClusterDeletion(api, cr, cp, resolved, crSaved);
      return;
    }
    var ok := EnsureFinalizer(cr, crSaved);
    if !ok {
      return CrNotSaved, None;
    }
    ghost var was := api.objects;
    var ending;
    c, ending := ReportLiveCluster(api, holder, cp, mode, resolved, items, cluster, statusSaved);
    if cp.source.name != "" {
      EndsNamed(was, resolved, cp.source, ClusterDestinationName(cp), c, ending);
    }
    report := Some(ending);
  }

  // ----- Projection -----

  function DestinationAt(proj: Projection, kind: string): Key
  {
    Key(kind, DestinationCoords(proj).0, DestinationCoords(proj).1)
  }

  function PlanFor(was: Objects, resolved: Option<string>, proj: Projection): Plan
    requires Readable(was, resolved, proj.source)
  {
    NamespacedPlan(SourceIn(was, resolved, proj.source), proj, proj.namespace)
  }

  /** The store after deleteDestination; without a kind there is nothing to do, and nothing to fail. */
  function AfterDelete(f: Faults, was: Objects, proj: Projection, resolved: Option<string>): Objects
  {
    if resolved.None? then was else AfterDeleteOne(f, was, NamespacedOwner(proj), DestinationAt(proj, resolved.value))
  }

  predicate DeleteWorks(f: Faults, was: Objects, proj: Projection, resolved: Option<string>)
  {
    resolved.Some? ==> DeleteOneWorks(f, was, NamespacedOwner(proj), DestinationAt(proj, resolved.value))
  }

  /** If deleteDestination works, no owned object is left at the current coordinates, and nothing else was touched. */
  lemma DeleteMeans(f: Faults, was: Objects, proj: Projection, kind: string)
    ensures var now, key := AfterDelete(f, was, proj, Some(kind)), DestinationAt(proj, kind);
            && (forall k | k != key :: Same(was, now, k))
            && (key in was && !Owns(NamespacedOwner(proj), was[key].tree) ==> now == was)
            && (DeleteWorks(f, was, proj, Some(kind)) ==> key in now ==> !Owns(NamespacedOwner(proj), now[key].tree))
  {
  }

  /** deleteDestination. */
  method DeleteDestination(api: Server, proj: Projection, resolved: Option<string>) returns (ok: bool)
    modifies api
    ensures api.requests == old(api.requests) && api.clock == old(api.clock)
    ensures api.objects == AfterDelete(api.faults, old(api.objects), proj, resolved)
    ensures ok <==> DeleteWorks(api.faults, old(api.objects), proj, resolved)
  {
    if resolved.None? {
      return true;
    }
    ok := DeleteOne(api, NamespacedOwner(proj), DestinationAt(proj, resolved.value));
  }

  /** handleDeletion. */
  method HandleDeletion(api: Server, cr: Cr, proj: Projection, resolved: Option<string>, crSaved: bool)
    returns (c: Course)
    requires cr.deleting
    modifies api, cr
    ensures api.requests == old(api.requests) && api.clock == old(api.clock)
    ensures api.objects == if old(cr.finalizer) then AfterDelete(api.faults, old(api.objects), proj, resolved)
                           else old(api.objects)
    ensures DeletionCourse(c, old(cr.finalizer), DeleteWorks(api.faults, old(api.objects), proj, resolved), crSaved,
                           old(cr.gone), cr.gone, cr.finalizer)
  {
    if cr.finalizer {
      var ok := DeleteDestination(api, proj, resolved);
      if !ok {
        return CleanupFailed;
      }
      if !crSaved {
        return CrNotSaved;
      }
      cr.finalizer, cr.gone := false, true;
    }
    return Finalized;
  }

  /** What one reconcile of a live Projection does to the stored objects, by how far it got. */
  ghost predicate ProjectionFrame(was: Objects, clock: nat, now: Objects, clock': nat, f: Faults, said: Said,
                                  proj: Projection, resolved: Option<string>, c: Course, reason: string)
  {
    match c
    case SourceGone => CleanedUp(was, clock, now, clock', f, NamespacedOwner(proj), resolved)
    case Vetoed => now == AfterDelete(f, was, proj, resolved) && clock' == clock
    case Wrote(_) =>
      && Readable(was, resolved, proj.source)
      && ProjectionWrite(was, clock, now, clock', f, said, proj, PlanFor(was, resolved, proj), resolved.value, reason)
    case _ => now == was && clock' == clock
  }

  ghost predicate ProjectionWrite(was: Objects, clock: nat, now: Objects, clock': nat, f: Faults, said: Said,
                                  proj: Projection, plan: Plan, kind: string, reason: string)
  {
    var key := DestinationAt(proj, kind);
    Write(was, clock, said.before, now, clock', said.after, f, plan, kind, key, NamespacedOwner(proj), reason)
  }

  /** The part of ProjectionReconciler.Reconcile after the finalizer, up to the status report. The reason is that of
      the write. */
  method ReconcileLive(api: Server, proj: Projection, mode: string, resolved: Option<string>)
    returns (c: Course, reason: string, ending: S.Outcome)
    modifies api
    ensures LiveCourse(old(api.objects), api.faults, resolved, proj.source, mode, true, c)
    ensures ProjectionFrame(old(api.objects), old(api.clock), api.objects, api.clock, api.faults,
                            Said(old(api.requests), api.requests), proj, resolved, c, reason)
    ensures api.requests != old(api.requests) ==> c.Wrote?
    ensures EndsWith(old(api.objects), resolved, proj.source, DestinationCoords(proj).1, c, ending)
    ensures S.Namespaced(ending)
    ensures c.Wrote? && reason == "" <==> ending.AllReady?
    ensures c.Wrote? && reason != "" ==> ending.DestinationFailed? && ending.reason == reason
  {
    reason := "";
    if resolved.None? {
      return Unresolved, reason, S.SourceFailed("SourceResolutionFailed", "");
    }
    var got := api.Get(Dynamic, Key(resolved.value, proj.source.namespace, proj.source.name));
    if got.GetError? {
      return SourceUnreadable, reason, S.SourceFailed("SourceFetchFailed", "");
    }
    if got.NotFound? {
      var _ := DeleteOwned(api, NamespacedOwner(proj), resolved.value, None);
      return SourceGone, reason, S.SourceMissing("");
    }
    c, reason, ending := ReconcileRead(api, proj, mode, resolved.value, got.value.tree);
  }

  /** The same for a source that was read. */
  method ReconcileRead(api: Server, proj: Projection, mode: string, kind: string, source: Object)
    returns (c: Course, reason: string, ending: S.Outcome)
    requires Readable(api.objects, Some(kind), proj.source) && source == SourceIn(api.objects, Some(kind), proj.source)
    modifies api
    ensures if MayProject(source, mode) then c.Wrote? else c.Vetoed?
    ensures ProjectionFrame(old(api.objects), old(api.clock), api.objects, api.clock, api.faults,
                            Said(old(api.requests), api.requests), proj, Some(kind), c, reason)
    ensures api.requests != old(api.requests) ==> c.Wrote?
    ensures EndsWith(old(api.objects), Some(kind), proj.source, DestinationCoords(proj).1, c, ending)
    ensures S.Namespaced(ending)
    ensures c.Wrote? && reason == "" <==> ending.AllReady?
    ensures c.Wrote? && reason != "" ==> ending.DestinationFailed? && ending.reason == reason
  {
    reason := "";
    ProjectableExactly(source, mode);
    var veto := CheckProjectable(source, mode);
    if veto.Some? {
      var _ := DeleteDestination(api, proj, Some(kind));
      return Vetoed, reason, S.SourceFailed(veto.value, "");
    }
    c, reason, ending := ReconcileProjectable(api, proj, kind, source);
  }

  /** The same for a source that may be projected. */
  method ReconcileProjectable(api: Server, proj: Projection, kind: string, source: Object)
    returns (c: Course, reason: string, ending: S.Outcome)
    modifies api
    ensures c.Wrote?
    ensures ProjectionWrite(old(api.objects), old(api.clock), api.objects, api.clock, api.faults,
                            Said(old(api.requests), api.requests), proj,
                            NamespacedPlan(source, proj, proj.namespace), kind, reason)
    ensures ending == if reason == "" then S.AllReady("", DestinationCoords(proj).1)
                      else S.DestinationFailed("", reason, "")
  {
    reason := WriteDestination(api, proj, source, kind);
    if reason != "" {
      return Wrote(F.Rollup(0, 1, map[proj.namespace := reason])), reason, S.DestinationFailed("", reason, "");
    }
    return Wrote(F.Rollup(1, 0, map[])), reason, S.AllReady("", DestinationCoords(proj).1);
  }

  /** The destination holds what a write of the plan delivered. */
  ghost predicate InSync(now: Objects, plan: Plan, key: Key)
  {
    key in now && Delivered(now[key].tree, plan)
  }

  predicate DestinationFree(was: Objects, proj: Projection, kind: string)
  {
    DestinationAt(proj, kind) in was ==> Owns(NamespacedOwner(proj), was[DestinationAt(proj, kind)].tree)
  }

  /** Nothing that this Projection needs fails or is taken: only its own calls count. */
  predicate OwnCallsAnswer(was: Objects, f: Faults, proj: Projection, mode: string, resolved: Option<string>)
  {
    && Projectable(was, resolved, proj.source, mode)
    && !f.get(Dynamic, Key(resolved.value, proj.source.namespace, proj.source.name))
    && Answers(f, DestinationAt(proj, resolved.value))
    && DestinationFree(was, proj, resolved.value)
  }

  lemma AnsweredIsInSync(was: Objects, clock: nat, now: Objects, clock': nat, f: Faults, said: Said, proj: Projection,
                         mode: string, resolved: Option<string>, c: Course, reason: string)
    requires LiveCourse(was, f, resolved, proj.source, mode, true, c)
    requires ProjectionFrame(was, clock, now, clock', f, said, proj, resolved, c, reason)
    requires OwnCallsAnswer(was, f, proj, mode, resolved)
    ensures c.Wrote? && reason == "" && InSync(now, PlanFor(was, resolved, proj), DestinationAt(proj, resolved.value))
  {
    var plan := PlanFor(was, resolved, proj);
    assert ProjectionWrite(was, clock, now, clock', f, said, proj, plan, resolved.value, reason);
  }

  /** The live part of the reconcile with its status report. */
  method ReportLive(api: Server, holder: S.Holder, proj: Projection, mode: string, resolved: Option<string>,
                    statusSaved: bool) returns (c: Course, reason: string, ending: S.Outcome)
    modifies api, holder
    ensures LiveCourse(old(api.objects), api.faults, resolved, proj.source, mode, true, c)
    ensures ProjectionFrame(old(api.objects), old(api.clock), api.objects, api.clock, api.faults,
                            Said(old(api.requests), api.requests), proj, resolved, c, reason)
    ensures OwnCallsAnswer(old(api.objects), api.faults, proj, mode, resolved) ==>
              InSync(api.objects, PlanFor(old(api.objects), resolved, proj), DestinationAt(proj, resolved.value))
    ensures api.requests != old(api.requests) ==> c.Wrote?
    ensures EndsWith(old(api.objects), resolved, proj.source, DestinationCoords(proj).1, c, ending)
    ensures holder.status == S.Report(old(holder.status), ending)
    ensures holder.saved == if statusSaved then holder.status else old(holder.saved)
    ensures S.Namespaced(ending) && (c.Wrote? && reason == "" <==> ending.AllReady?)
  {
    c, reason, ending := ReconcileAnswered(api, proj, mode, resolved);
    holder.Finish(ending, statusSaved);
  }

  /** The live part, and what it achieves when its own calls go through. */
  method ReconcileAnswered(api: Server, proj: Projection, mode: string, resolved: Option<string>)
    returns (c: Course, reason: string, ending: S.Outcome)
    modifies api
    ensures LiveCourse(old(api.objects), api.faults, resolved, proj.source, mode, true, c)
    ensures ProjectionFrame(old(api.objects), old(api.clock), api.objects, api.clock, api.faults,
                            Said(old(api.requests), api.requests), proj, resolved, c, reason)
    ensures OwnCallsAnswer(old(api.objects), api.faults, proj, mode, resolved) ==>
              InSync(api.objects, PlanFor(old(api.objects), resolved, proj), DestinationAt(proj, resolved.value))
    ensures api.requests != old(api.requests) ==> c.Wrote?
    ensures EndsWith(old(api.objects), resolved, proj.source, DestinationCoords(proj).1, c, ending)
    ensures S.Namespaced(ending) && (c.Wrote? && reason == "" <==> ending.AllReady?)
  {
    ghost var was, clock, f, said := api.objects, api.clock, api.faults, api.requests;
    c, reason, ending := ReconcileLive(api, proj, mode, resolved);
    if OwnCallsAnswer(was, f, proj, mode, resolved) {
      AnsweredIsInSync(was, clock, api.objects, api.clock, f, Said(said, api.requests), proj, mode, resolved, c,
                       reason);
    }
  }

  /** What a reconcile of a Projection does to the stored objects and the clock, path by path. */
  ghost predicate ProjectionDid(was: Objects, clock: nat, now: Objects, clock': nat, f: Faults, said: Said,
                                proj: Projection, resolved: Option<string>, c: Course, reason: string, deleting: bool,
                                finalizer: bool, saved: bool)
  {
    if deleting then clock' == clock && now == if finalizer then AfterDelete(f, was, proj, resolved) else was
    else if finalizer || saved then ProjectionFrame(was, clock, now, clock', f, said, proj, resolved, c, reason)
    else now == was && clock' == clock
  }

  /** ProjectionReconciler.Reconcile. */
  method ReconcileProjection(api: Server, cr: Cr, holder: S.Holder, proj: Projection, mode: string,
                             resolved: Option<string>, crSaved: bool, statusSaved: bool)
    returns (c: Course, reason: string, report: Option<S.Outcome>)
    modifies api, cr, holder
    // which course it takes
    ensures old(cr.deleting) ==>
              DeletionCourse(c, old(cr.finalizer), DeleteWorks(api.faults, old(api.objects), proj, resolved),
                             crSaved, old(cr.gone), cr.gone, cr.finalizer)
    ensures !old(cr.deleting) && !old(cr.finalizer) && !crSaved ==> c.CrNotSaved?
    ensures !old(cr.deleting) && (old(cr.finalizer) || crSaved) ==>
              LiveCourse(old(api.objects), api.faults, resolved, proj.source, mode, true, c)
    // what it does to the stored objects
    ensures ProjectionDid(old(api.objects), old(api.clock), api.objects, api.clock, api.faults,
                          Said(old(api.requests), api.requests), proj, resolved, c, reason, old(cr.deleting),
                          old(cr.finalizer), crSaved)
    // convergence
    ensures !old(cr.deleting) && (old(cr.finalizer) || crSaved) &&
            OwnCallsAnswer(old(api.objects), api.faults, proj, mode, resolved) ==>
              InSync(api.objects, PlanFor(old(api.objects), resolved, proj), DestinationAt(proj, resolved.value))
    ensures api.requests != old(api.requests) ==> c.Wrote? && cr.finalizer
    ensures cr.gone && !old(cr.gone) ==> old(cr.deleting)
    // the status is reported once, by the outcome that belongs to the course, and never with an empty name
    ensures report.Some? <==> !old(cr.deleting) && (old(cr.finalizer) || crSaved)
    ensures report.None? ==> holder.status == old(holder.status) && holder.saved == old(holder.saved)
    ensures report.Some? ==>
              && holder.status == S.Report(old(holder.status), report.value)
              && holder.saved == if statusSaved then holder.status else old(holder.saved)
    ensures report.Some? ==>
              EndsWith(old(api.objects), resolved, proj.source, DestinationCoords(proj).1, c, report.value)
    ensures report.Some? ==> S.Namespaced(report.value) && (c.Wrote? && reason == "" <==> report.value.AllReady?)
    ensures report.Some? && proj.source.name != "" ==> S.Named(report.value)
  {
    reason, report := "", None;
    if cr.deleting {
      c := HandleDeletion(api, cr, proj, resolved, crSaved);
      return;
    }
    var ok := EnsureFinalizer(cr, crSaved);
    if !ok {
      return CrNotSaved, "", None;
    }
    ghost var was := api.objects;
    var ending;
    c, reason, ending := ReportLive(api, holder, proj, mode, resolved, statusSaved);
    if proj.source.name != "" {
      EndsNamed(was, resolved, proj.source, DestinationCoords(proj).1, c, ending);
    }
    report := Some(ending);
  }
}
