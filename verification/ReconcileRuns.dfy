/** Whole reconciles are runs of the protocol: from any protocol state that agrees with what a reconcile of `Reconcile`
    starts from, steps of that reconcile lead to one that agrees with what it leaves. */
module ReconcileRuns {
  import opened Wrappers
  import opened Json
  import opened Types
  import opened Destination
  import opened Transform
  import opened ApiServer
  import opened Cleanup
  import opened Writer
  import opened ClusterWrites
  import opened Reconcile
  import opened Lists
  import opened Simulation
  import opened Events
  import S = Status
  import P = Protocol

  // ----- Single steps -----

  /** A step that only moves the program point. */
  lemma MoveIsStep(s: P.State, id: P.Id, v: View, a: P.Action, pc: P.Pc) returns (acts: seq<P.Action>, s': P.State)
    requires Sees(s, id, v) && P.Enabled(s, a) && !P.IsUser(a) && a.id == id
    requires P.Effects(s, a) == P.Move(s, id, pc)
    ensures Reaches(s, id, v, acts, s', v.(pc := pc))
  {
    Stay(s, id, v);
    s' := Then(s, id, v, [], s, v, a, v.(pc := pc));
    acts := [] + [a];
  }

  predicate AtRest(v: View, cr: P.Cr)
  {
    v.pc.Idle? && v.seen < |v.hist| && v.hist[|v.hist| - 1] == Some(cr)
  }

  /** The newest version has been read. */
  function Loaded(v: View): View
    requires v.hist != []
  {
    v.(seen := |v.hist| - 1, pc := P.Loaded(|v.hist| - 1))
  }

  lemma ReadIsStep(s: P.State, id: P.Id, v: View, cr: P.Cr) returns (acts: seq<P.Action>, s': P.State)
    requires Sees(s, id, v) && AtRest(v, cr)
    ensures Reaches(s, id, v, acts, s', Loaded(v))
  {
    var a := P.ReadCr(id, |v.hist| - 1);
    Stay(s, id, v);
    s' := Then(s, id, v, [], s, v, a, Loaded(v));
    acts := [] + [a];
  }

  lemma ReturnIsStep(s: P.State, id: P.Id, v: View) returns (acts: seq<P.Action>, s': P.State)
    requires Sees(s, id, v)
    ensures Reaches(s, id, v, acts, s', v.(pc := P.Idle))
  {
    acts, s' := MoveIsStep(s, id, v, P.Return(id), P.Idle);
  }

  /** The versions of the custom resource after ensureFinalizer. */
  function Ensured(hist: seq<Option<P.Cr>>, cr: P.Cr): seq<Option<P.Cr>>
  {
    if cr.finalizer then hist else hist + [Some(cr.(finalizer := true))]
  }

  lemma EnsureIsStep(s: P.State, id: P.Id, v: View, cr: P.Cr) returns (acts: seq<P.Action>, s': P.State)
    requires Sees(s, id, v) && v.hist != [] && v.hist[|v.hist| - 1] == Some(cr) && !cr.deleting
    requires v.pc == P.Loaded(|v.hist| - 1)
    ensures Reaches(s, id, v, acts, s', v.(hist := Ensured(v.hist, cr), pc := P.Alive(cr.(finalizer := true))))
  {
    var a := P.EnsureFinalizer(id, true);
    Stay(s, id, v);
    s' := Then(s, id, v, [], s, v, a, v.(hist := Ensured(v.hist, cr), pc := P.Alive(cr.(finalizer := true))));
    acts := [] + [a];
  }

  lemma RemoveIsStep(s: P.State, id: P.Id, v: View) returns (acts: seq<P.Action>, s': P.State)
    requires Sees(s, id, v) && v.hist != [] && v.hist[|v.hist| - 1].Some? && v.pc == P.Finalizing(|v.hist| - 1)
    ensures Reaches(s, id, v, acts, s', v.(hist := v.hist + [None], pc := P.Idle))
  {
    var a := P.RemoveFinalizer(id);
    Stay(s, id, v);
    s' := Then(s, id, v, [], s, v, a, v.(hist := v.hist + [None], pc := P.Idle));
    acts := [] + [a];
  }

  // ----- Sweeps -----

  /** Where a sweep ends: at the finalizer if it was for that and everything on its list is gone. */
  function SweepEnd(now: Objects, todo: set<Key>, after: P.After): P.Pc
  {
    if now.Keys !! todo && after.Finalize? then P.Finalizing(after.i) else P.Idle
  }

  /** A whole sweep: the List, the Deletes, the end. */
  lemma SweepPhase(s: P.State, id: P.Id, v: View, start: P.Action, cr: P.Cr, todo: set<Key>, after: P.After,
                   now: Objects)
    returns (acts: seq<P.Action>, s': P.State)
    requires Sees(s, id, v) && P.Enabled(s, start) && !P.IsUser(start) && start.id == id
    requires P.Effects(s, start) == P.Move(s, id, P.Sweeping(cr, todo, true, after))
    requires todo <= v.objects.Keys && RemovedWithin(v.objects, now, todo)
    ensures Reaches(s, id, v, acts, s', v.(objects := now, pc := SweepEnd(now, todo, after)))
  {
    var m := v.(pc := P.Sweeping(cr, todo, true, after));
    var xs, mid := MoveIsStep(s, id, v, start, m.pc);
    var ys, done := SweepIsRun(mid, id, m, now);
    var e := m.(objects := now, pc := Sweeping(m.pc, {}, now.Keys !! todo));
    var zs;
    zs, s' := MoveIsStep(done, id, e, P.EndSweep(id), SweepEnd(now, todo, after));
    Chain(s, id, v, xs, mid, m, ys, done, e);
    Chain(s, id, v, xs + ys, done, e, zs, s', v.(objects := now, pc := SweepEnd(now, todo, after)));
    acts := xs + ys + zs;
  }

  /** The sweep after a 404, and a ClusterProjection's after a veto. */
  lemma CleanedIsRun(s: P.State, id: P.Id, v: View, start: P.Action, o: Owner, f: Faults, kind: string)
    returns (acts: seq<P.Action>, s': P.State)
    requires Sees(s, id, v) && v.pc.Alive? && v.pc.cr.kind == kind && v.pc.cr.uid == o.uid && Names(o, id)
    requires start == P.SourceGone(id) || (start == P.SourceVetoed(id) && id.Cluster?)
    ensures Reaches(s, id, v, acts, s', v.(objects := AfterSweep(f, v.objects, o, kind, None), pc := P.Idle))
  {
    if f.list(kind) {
      acts, s' := ReturnIsStep(s, id, v);
    } else {
      var todo := Swept(v.objects, o, kind, None);
      SweptMatches(v.objects, o, id, v.pc.cr, kind, None);
      SweepMeans(f, v.objects, o, kind, None);
      acts, s' := SweepPhase(s, id, v, start, v.pc.cr, todo, P.Report, AfterSweep(f, v.objects, o, kind, None));
    }
  }

  /** A Projection's delete at its coordinates after a veto. */
  lemma VetoedIsRun(s: P.State, id: P.Id, v: View, o: Owner, f: Faults) returns (acts: seq<P.Action>, s': P.State)
    requires Sees(s, id, v) && v.pc.Alive? && id.Namespaced? && Names(o, id)
    ensures Reaches(s, id, v, acts, s',
                    v.(objects := AfterDeleteOne(f, v.objects, o, P.Coords(id, v.pc.cr)), pc := P.Idle))
  {
    var key := P.Coords(id, v.pc.cr);
    if f.get(Dynamic, key) {
      acts, s' := ReturnIsStep(s, id, v);
    } else {
      OneMatches(v.objects, o, id, v.pc.cr);
      var todo := P.Collect(Marks(v.objects), id, v.pc.cr, P.One);
      acts, s' := SweepPhase(s, id, v, P.SourceVetoed(id), v.pc.cr, todo, P.Report,
                             AfterDeleteOne(f, v.objects, o, key));
    }
  }

  // ----- Deletion -----

  /** Reading a deleting version with the finalizer, and then sweeping: what is left of the deletion path. */
  predicate InDeletion(v: View, cr: P.Cr)
  {
    v.hist != [] && v.hist[|v.hist| - 1] == Some(cr) && v.pc == P.Loaded(|v.hist| - 1) && cr.deleting && cr.finalizer
  }

  lemma FinalSweepIsRun(s: P.State, id: P.Id, v: View, cr: P.Cr, mode: P.Mode, todo: set<Key>, now: Objects)
    returns (acts: seq<P.Action>, s': P.State)
    requires Sees(s, id, v) && InDeletion(v, cr) && mode == (if id.Namespaced? then P.One else P.All)
    requires todo == P.Collect(Marks(v.objects), id, cr, mode) && RemovedWithin(v.objects, now, todo)
    ensures Reaches(s, id, v, acts, s', v.(objects := now, pc := SweepEnd(now, todo, P.Finalize(|v.hist| - 1))))
  {
    acts, s' := SweepPhase(s, id, v, P.Cleanup(id), cr, todo, P.Finalize(|v.hist| - 1), now);
  }

  /** The custom resource goes if and only if the cleanup worked and its Update is accepted. */
  lemma DeletionEnds(s: P.State, id: P.Id, v: View, cr: P.Cr, works: bool, saved: bool)
    returns (acts: seq<P.Action>, s': P.State)
    requires Sees(s, id, v) && v.hist != [] && v.hist[|v.hist| - 1] == Some(cr)
    requires works ==> v.pc == P.Finalizing(|v.hist| - 1)
    ensures Reaches(s, id, v, acts, s', v.(hist := if works && saved then v.hist + [None] else v.hist, pc := P.Idle))
  {
    if works && saved {
      acts, s' := RemoveIsStep(s, id, v);
    } else {
      acts, s' := ReturnIsStep(s, id, v);
    }
  }

  /** The view after the deletion path. */
  function Deleted(v: View, now: Objects, gone: bool): View
  {
    v.(objects := now, hist := if gone then v.hist + [None] else v.hist, pc := P.Idle)
  }

  lemma ClusterDeletionIsRun(s: P.State, id: P.Id, v: View, cr: P.Cr, o: Owner, f: Faults, resolved: Option<string>,
                             saved: bool)
    returns (acts: seq<P.Action>, s': P.State)
    requires Sees(s, id, v) && InDeletion(v, cr) && id.Cluster? && Names(o, id) && cr.uid == o.uid
    requires resolved.Some? ==> cr.kind == resolved.value
    ensures Reaches(s, id, v, acts, s', Deleted(v, AfterFinalSweep(f, v.objects, o, resolved),
                                                FinalSweepWorks(f, v.objects, o, resolved) && saved))
  {
    var now, works := AfterFinalSweep(f, v.objects, o, resolved), FinalSweepWorks(f, v.objects, o, resolved);
    var mid, m;
    acts, mid, m := ClusterSwept(s, id, v, cr, o, f, resolved);
    var ys;
    ys, s' := DeletionEnds(mid, id, m, cr, works, saved);
    Chain(s, id, v, acts, mid, m, ys, s', Deleted(v, now, works && saved));
    acts := acts + ys;
  }

  lemma ClusterSwept(s: P.State, id: P.Id, v: View, cr: P.Cr, o: Owner, f: Faults, resolved: Option<string>)
    returns (acts: seq<P.Action>, s': P.State, v': View)
    requires Sees(s, id, v) && InDeletion(v, cr) && id.Cluster? && Names(o, id) && cr.uid == o.uid
    requires resolved.Some? ==> cr.kind == resolved.value
    ensures Reaches(s, id, v, acts, s', v')
    ensures v' == v.(objects := AfterFinalSweep(f, v.objects, o, resolved), pc := v'.pc)
    ensures FinalSweepWorks(f, v.objects, o, resolved) ==> v'.pc == P.Finalizing(|v.hist| - 1)
  {
    if resolved.None? {
      v' := v.(pc := P.Finalizing(|v.hist| - 1));
      acts, s' := MoveIsStep(s, id, v, P.SkipCleanup(id), v'.pc);
    } else if f.list(cr.kind) {
      Stay(s, id, v);
      acts, s', v' := [], s, v;
    } else {
      var now, todo := AfterSweep(f, v.objects, o, cr.kind, None), Swept(v.objects, o, cr.kind, None);
      SweptMatches(v.objects, o, id, cr, cr.kind, None);
      SweepMeans(f, v.objects, o, cr.kind, None);
      acts, s' := FinalSweepIsRun(s, id, v, cr, P.All, todo, now);
      v' := v.(objects := now, pc := SweepEnd(now, todo, P.Finalize(|v.hist| - 1)));
    }
  }

  lemma ProjectionDeletionIsRun(s: P.State, id: P.Id, v: View, cr: P.Cr, proj: Projection, f: Faults,
                                resolved: Option<string>, saved: bool) returns (acts: seq<P.Action>, s': P.State)
    requires Sees(s, id, v) && InDeletion(v, cr) && id == P.Namespaced(proj.namespace, proj.name)
    requires resolved.Some? ==> P.Coords(id, cr) == DestinationAt(proj, resolved.value)
    ensures Reaches(s, id, v, acts, s', Deleted(v, AfterDelete(f, v.objects, proj, resolved),
                                                DeleteWorks(f, v.objects, proj, resolved) && saved))
  {
    var now, works := AfterDelete(f, v.objects, proj, resolved), DeleteWorks(f, v.objects, proj, resolved);
    var mid, m;
    acts, mid, m := ProjectionSwept(s, id, v, cr, proj, f, resolved);
    var ys;
    ys, s' := DeletionEnds(mid, id, m, cr, works, saved);
    Chain(s, id, v, acts, mid, m, ys, s', Deleted(v, now, works && saved));
    acts := acts + ys;
  }

  lemma ProjectionSwept(s: P.State, id: P.Id, v: View, cr: P.Cr, proj: Projection, f: Faults, resolved: Option<string>)
    returns (acts: seq<P.Action>, s': P.State, v': View)
    requires Sees(s, id, v) && InDeletion(v, cr) && id == P.Namespaced(proj.namespace, proj.name)
    requires resolved.Some? ==> P.Coords(id, cr) == DestinationAt(proj, resolved.value)
    ensures Reaches(s, id, v, acts, s', v')
    ensures v' == v.(objects := AfterDelete(f, v.objects, proj, resolved), pc := v'.pc)
    ensures DeleteWorks(f, v.objects, proj, resolved) ==> v'.pc == P.Finalizing(|v.hist| - 1)
  {
    if resolved.None? {
      v' := v.(pc := P.Finalizing(|v.hist| - 1));
      acts, s' := MoveIsStep(s, id, v, P.SkipCleanup(id), v'.pc);
    } else if f.get(Dynamic, P.Coords(id, cr)) {
      Stay(s, id, v);
      acts, s', v' := [], s, v;
    } else {
      OwnerKeyIsMark(proj);
      OneMatches(v.objects, NamespacedOwner(proj), id, cr);
      var now, todo := AfterDelete(f, v.objects, proj, resolved), P.Collect(Marks(v.objects), id, cr, P.One);
      acts, s' := FinalSweepIsRun(s, id, v, cr, P.One, todo, now);
      v' := v.(objects := now, pc := SweepEnd(now, todo, P.Finalize(|v.hist| - 1)));
    }
  }

  // ----- The write phase of a ClusterProjection -----

  /** The reconcile is at its writes, building from `source` for `cp`. */
  predicate WritesFor(v: View, cp: ClusterProjection, source: Object)
  {
    && v.pc.Writing? && v.pc.cr.uid == cp.uid && v.pc.carried == Carried(source, cp.overlay)
    && cp.name != "" && Stampable(source)
  }

  /** The jobs after the targets in `order` have been dealt with. */
  ghost predicate JobsDone(before: map<Key, P.Job>, after: map<Key, P.Job>, cp: ClusterProjection, order: seq<string>,
                           kind: string)
  {
    && after.Keys == before.Keys
    && forall k | k in before ::
         after[k] == if k.ns in order && k == TargetKey(cp, k.ns, kind) then P.Done else before[k]
  }

  lemma {:induction false} FanOutIsRun(s: P.State, v: View, cp: ClusterProjection, source: Object, order: seq<string>,
                                       kind: string, now: Objects, clock': nat)
    returns (acts: seq<P.Action>, s': P.State, jobs: map<Key, P.Job>)
    requires Sees(s, P.Cluster(cp.name), v) && WritesFor(v, cp, source) && Distinct(order)
    requires forall t | t in order :: TargetKey(cp, t, kind) in v.pc.jobs && v.pc.jobs[TargetKey(cp, t, kind)].Pending?
    requires WrittenInOrder(v.objects, v.clock, order, now, clock', cp, source, kind)
    ensures JobsDone(v.pc.jobs, jobs, cp, order, kind)
    ensures Reaches(s, P.Cluster(cp.name), v, acts, s',
                    v.(objects := now, clock := clock', pc := v.pc.(jobs := jobs)))
    decreases |order|
  {
    var id := P.Cluster(cp.name);
    if order == [] {
      Stay(s, id, v);
      acts, s', jobs := [], s, v.pc.jobs;
    } else {
      var n := |order| - 1;
      var objects, c :| WrittenInOrder(v.objects, v.clock, order[..n], objects, c, cp, source, kind) &&
                        TargetWrite(objects, c, now, clock', cp, source, order[n], kind);
      var mid;
      acts, mid, jobs := FanOutIsRun(s, v, cp, source, order[..n], kind, objects, c);
      var m := v.(objects := objects, clock := c, pc := v.pc.(jobs := jobs));
      assert order[n] in order && order[n] !in order[..n];
      acts, s' := OneMoreWrite(s, v, acts, mid, m, cp, source, order[n], kind, now, clock');
      OneMoreDone(v.pc.jobs, jobs, cp, order, kind);
      jobs := jobs[TargetKey(cp, order[n], kind) := P.Done];
    }
  }

  lemma OneMoreWrite(s: P.State, v: View, acts: seq<P.Action>, mid: P.State, m: View, cp: ClusterProjection,
                     source: Object, t: string, kind: string, now: Objects, clock': nat)
    returns (acts': seq<P.Action>, s': P.State)
    requires Reaches(s, P.Cluster(cp.name), v, acts, mid, m) && WritesFor(m, cp, source)
    requires TargetKey(cp, t, kind) in m.pc.jobs && m.pc.jobs[TargetKey(cp, t, kind)].Pending?
    requires TargetWrite(m.objects, m.clock, now, clock', cp, source, t, kind)
    ensures Reaches(s, P.Cluster(cp.name), v, acts', s',
                    WithJob(m, TargetKey(cp, t, kind), P.Done).(objects := now, clock := clock'))
  {
    var ys;
    ys, s' := ClusterWriteIsRun(mid, m, cp, source, t, kind, now, clock');
    Chain(s, P.Cluster(cp.name), v, acts, mid, m, ys, s',
          WithJob(m, TargetKey(cp, t, kind), P.Done).(objects := now, clock := clock'));
    acts' := acts + ys;
  }

  lemma OneMoreDone(before: map<Key, P.Job>, jobs: map<Key, P.Job>, cp: ClusterProjection, order: seq<string>,
                    kind: string)
    requires order != [] && JobsDone(before, jobs, cp, order[..|order| - 1], kind)
    requires TargetKey(cp, order[|order| - 1], kind) in before
    ensures JobsDone(before, jobs[TargetKey(cp, order[|order| - 1], kind) := P.Done], cp, order, kind)
  {
    var n := |order| - 1;
    assert order == order[..n] + [order[n]];
  }

  lemma StaleIsRun(s: P.State, v: View, cp: ClusterProjection, f: Faults, targets: set<string>, kind: string)
    returns (acts: seq<P.Action>, s': P.State)
    requires Sees(s, P.Cluster(cp.name), v) && v.pc.Writing? && cp.name != ""
    requires v.pc.cr.uid == cp.uid && v.pc.cr.kind == kind
    requires (forall k | k in v.pc.jobs :: v.pc.jobs[k].Done?) && (set k | k in v.pc.jobs :: k.ns) == targets
    ensures Reaches(s, P.Cluster(cp.name), v, acts, s',
                    v.(objects := AfterSweep(f, v.objects, ClusterOwner(cp), kind, Some(targets)), pc := P.Idle))
  {
    var id, o := P.Cluster(cp.name), ClusterOwner(cp);
    if f.list(kind) {
      acts, s' := ReturnIsStep(s, id, v);
    } else {
      var now, todo := AfterSweep(f, v.objects, o, kind, Some(targets)), Swept(v.objects, o, kind, Some(targets));
      SweptMatches(v.objects, o, id, v.pc.cr, kind, Some(targets));
      SweepMeans(f, v.objects, o, kind, Some(targets));
      acts, s' := SweepPhase(s, id, v, P.StaleSweep(id), v.pc.cr, todo, P.Report, now);
    }
  }

  lemma FetchIsStep(s: P.State, id: P.Id, v: View, carried: Stamp, targets: set<string>)
    returns (acts: seq<P.Action>, s': P.State, jobs: map<Key, P.Job>)
    requires Sees(s, id, v) && v.pc.Alive?
    ensures jobs == map k | k in P.JobKeys(id, v.pc.cr, targets) :: P.Pending
    ensures Reaches(s, id, v, acts, s', v.(pc := P.Writing(v.pc.cr, carried, jobs)))
  {
    jobs := map k | k in P.JobKeys(id, v.pc.cr, targets) :: P.Pending;
    acts, s' := MoveIsStep(s, id, v, P.FetchSource(id, carried, targets), P.Writing(v.pc.cr, carried, jobs));
  }

  /** The jobs of a ClusterProjection are its targets' keys. */
  lemma JobsAreTargets(cp: ClusterProjection, cr: P.Cr, order: seq<string>, kind: string, jobs: map<Key, P.Job>)
    requires cr.kind == kind && cr.destName == ClusterDestinationName(cp)
    requires jobs == map k | k in P.JobKeys(P.Cluster(cp.name), cr, SetOf(order)) :: P.Pending
    ensures forall t | t in order :: TargetKey(cp, t, kind) in jobs && jobs[TargetKey(cp, t, kind)].Pending?
    ensures forall k | k in jobs :: k.ns in order && k == TargetKey(cp, k.ns, kind)
    ensures (set k | k in jobs :: k.ns) == SetOf(order)
  {
    forall t | t in order ensures TargetKey(cp, t, kind) in jobs {
      assert t in SetOf(order);
    }
    forall t | t in SetOf(order) ensures t in (set k | k in jobs :: k.ns) {
      assert TargetKey(cp, t, kind) in jobs;
    }
  }

  /** Fetch, fan out, sweep. */
  lemma PhasesAreRun(s: P.State, v: View, cp: ClusterProjection, source: Object, order: seq<string>, kind: string,
                     f: Faults, now: Objects, clock': nat) returns (acts: seq<P.Action>, s': P.State)
    requires Sees(s, P.Cluster(cp.name), v) && v.pc.Alive? && cp.name != "" && Stampable(source) && Distinct(order)
    requires v.pc.cr.uid == cp.uid && v.pc.cr.kind == kind && v.pc.cr.destName == ClusterDestinationName(cp)
    requires Phases(v.objects, v.clock, order, now, clock', f, cp, source, kind)
    ensures Reaches(s, P.Cluster(cp.name), v, acts, s', v.(objects := now, clock := clock', pc := P.Idle))
  {
    var id := P.Cluster(cp.name);
    var objects :| WrittenInOrder(v.objects, v.clock, order, objects, clock', cp, source, kind) &&
                   now == AfterSweep(f, objects, ClusterOwner(cp), kind, Some(SetOf(order)));
    var jobs, jobs', mid, far, ys, zs;
    acts, mid, jobs := FetchIsStep(s, id, v, Carried(source, cp.overlay), SetOf(order));
    var m := v.(pc := P.Writing(v.pc.cr, Carried(source, cp.overlay), jobs));
    JobsAreTargets(cp, v.pc.cr, order, kind, jobs);
    ys, far, jobs' := FanOutIsRun(mid, m, cp, source, order, kind, objects, clock');
    var w := m.(objects := objects, clock := clock', pc := m.pc.(jobs := jobs'));
    assert (set k | k in jobs' :: k.ns) == (set k | k in jobs :: k.ns);
    zs, s' := StaleIsRun(far, w, cp, f, SetOf(order), kind);
    Chain(s, id, v, acts, mid, m, ys, far, w);
    Chain(s, id, v, acts + ys, far, w, zs, s', v.(objects := now, clock := clock', pc := P.Idle));
    acts := acts + ys + zs;
  }

  // ----- Whole reconciles -----

  /** The custom resource as the protocol has it. */
  predicate IsCluster(cr: P.Cr, cp: ClusterProjection, resolved: Option<string>)
  {
    cr.uid == cp.uid && cr.destName == ClusterDestinationName(cp) && (resolved.Some? ==> cr.kind == resolved.value)
  }

  /** The live part, by the frame that `Reconcile.ReconcileCluster` promises. */
  lemma LiveClusterIsRun(s: P.State, v: View, cp: ClusterProjection, f: Faults, resolved: Option<string>,
                         targets: Option<set<string>>, c: Course, said: Said, now: Objects, clock': nat)
    returns (acts: seq<P.Action>, s': P.State)
    requires Sees(s, P.Cluster(cp.name), v) && v.pc.Alive? && cp.name != "" && IsCluster(v.pc.cr, cp, resolved)
    requires ClusterFrame(v.objects, v.clock, now, clock', said, f, cp, resolved, targets, c)
    requires c.Wrote? ==> Stampable(SourceIn(v.objects, resolved, cp.source))
    ensures Reaches(s, P.Cluster(cp.name), v, acts, s', v.(objects := now, clock := clock', pc := P.Idle))
  {
    var id := P.Cluster(cp.name);
    match c {
      case SourceGone =>
        acts, s' := CleanedIsRun(s, id, v, P.SourceGone(id), ClusterOwner(cp), f, resolved.value);
      case Vetoed =>
        acts, s' := CleanedIsRun(s, id, v, P.SourceVetoed(id), ClusterOwner(cp), f, resolved.value);
      case Wrote(_) =>
        acts, s' := WroteClusterIsRun(s, v, cp, f, resolved, targets, c, said, now, clock');
      case _ =>
        acts, s' := ReturnIsStep(s, id, v);
    }
  }

  lemma WroteClusterIsRun(s: P.State, v: View, cp: ClusterProjection, f: Faults, resolved: Option<string>,
                          targets: Option<set<string>>, c: Course, said: Said, now: Objects, clock': nat)
    returns (acts: seq<P.Action>, s': P.State)
    requires Sees(s, P.Cluster(cp.name), v) && v.pc.Alive? && cp.name != "" && IsCluster(v.pc.cr, cp, resolved)
    requires c.Wrote? && ClusterFrame(v.objects, v.clock, now, clock', said, f, cp, resolved, targets, c)
    requires Stampable(SourceIn(v.objects, resolved, cp.source))
    ensures Reaches(s, P.Cluster(cp.name), v, acts, s', v.(objects := now, clock := clock', pc := P.Idle))
  {
    var source := SourceIn(v.objects, resolved, cp.source);
    var order :| Distinct(order) && SetOf(order) == targets.value &&
                 Phases(v.objects, v.clock, order, now, clock', f, cp, source, resolved.value) &&
                 Told(v.objects, said.before, order, said.after, now, c.rollup.failures, f, cp, source, resolved.value);
    acts, s' := PhasesAreRun(s, v, cp, source, order, resolved.value, f, now, clock');
  }

  /** The versions of the custom resource after a reconcile. */
  function HistAfter(hist: seq<Option<P.Cr>>, cr: P.Cr, works: bool, saved: bool): seq<Option<P.Cr>>
  {
    if cr.deleting then if cr.finalizer && works && saved then hist + [None] else hist
    else if cr.finalizer || saved then Ensured(hist, cr)
    else hist
  }

  /** The live part from the version just read. */
  lemma ReadClusterIsRun(s: P.State, v: View, cp: ClusterProjection, cr: P.Cr, f: Faults, resolved: Option<string>,
                         targets: Option<set<string>>, c: Course, said: Said, now: Objects, clock': nat)
    returns (acts: seq<P.Action>, s': P.State)
    requires Sees(s, P.Cluster(cp.name), v) && cp.name != "" && IsCluster(cr, cp, resolved) && !cr.deleting
    requires v.hist != [] && v.hist[|v.hist| - 1] == Some(cr) && v.pc == P.Loaded(|v.hist| - 1)
    requires ClusterFrame(v.objects, v.clock, now, clock', said, f, cp, resolved, targets, c)
    requires c.Wrote? ==> Stampable(SourceIn(v.objects, resolved, cp.source))
    ensures Reaches(s, P.Cluster(cp.name), v, acts, s',
                    v.(objects := now, clock := clock', hist := Ensured(v.hist, cr), pc := P.Idle))
  {
    var id := P.Cluster(cp.name);
    var w := v.(hist := Ensured(v.hist, cr), pc := P.Alive(cr.(finalizer := true)));
    var near, ys;
    acts, near := EnsureIsStep(s, id, v, cr);
    ys, s' := LiveClusterIsRun(near, w, cp, f, resolved, targets, c, said, now, clock');
    Chain(s, id, v, acts, near, w, ys, s', w.(objects := now, clock := clock', pc := P.Idle));
    acts := acts + ys;
  }

  /** Every reconcile of a ClusterProjection is a run of the protocol: whatever calls failed, from any state of the
      protocol that agrees with the stored objects and with the custom resource, own steps lead to one that agrees with
      what the reconcile left. */
  lemma ClusterReconcileIsRun(s: P.State, v: View, cp: ClusterProjection, cr: P.Cr, f: Faults, resolved: Option<string>,
                              targets: Option<set<string>>, c: Course, said: Said, saved: bool, now: Objects,
                              clock': nat)
    returns (acts: seq<P.Action>, s': P.State, v': View)
    requires Sees(s, P.Cluster(cp.name), v) && AtRest(v, cr) && cp.name != "" && IsCluster(cr, cp, resolved)
    requires ClusterDid(v.objects, v.clock, now, clock', said, f, cp, resolved, targets, c, cr.deleting, cr.finalizer,
                        saved)
    requires !cr.deleting && (cr.finalizer || saved) && c.Wrote? ==>
              Stampable(SourceIn(v.objects, resolved, cp.source))
    ensures Reaches(s, P.Cluster(cp.name), v, acts, s', v')
    ensures v'.objects == now && v'.clock == clock' && v'.pc.Idle?
    ensures v'.hist == HistAfter(v.hist, cr, FinalSweepWorks(f, v.objects, ClusterOwner(cp), resolved), saved)
  {
    var id := P.Cluster(cp.name);
    var mid, ys;
    acts, mid := ReadIsStep(s, id, v, cr);
    ys, s', v' := ClusterAfterRead(mid, Loaded(v), cp, cr, f, resolved, targets, c, said, saved, now, clock');
    Chain(s, id, v, acts, mid, Loaded(v), ys, s', v');
    acts := acts + ys;
  }

  lemma ClusterAfterRead(s: P.State, v: View, cp: ClusterProjection, cr: P.Cr, f: Faults, resolved: Option<string>,
                         targets: Option<set<string>>, c: Course, said: Said, saved: bool, now: Objects, clock': nat)
    returns (acts: seq<P.Action>, s': P.State, v': View)
    requires Sees(s, P.Cluster(cp.name), v) && cp.name != "" && IsCluster(cr, cp, resolved)
    requires v.hist != [] && v.hist[|v.hist| - 1] == Some(cr) && v.pc == P.Loaded(|v.hist| - 1)
    requires ClusterDid(v.objects, v.clock, now, clock', said, f, cp, resolved, targets, c, cr.deleting, cr.finalizer,
                        saved)
    requires !cr.deleting && (cr.finalizer || saved) && c.Wrote? ==>
              Stampable(SourceIn(v.objects, resolved, cp.source))
    ensures Reaches(s, P.Cluster(cp.name), v, acts, s', v')
    ensures v'.objects == now && v'.clock == clock' && v'.pc.Idle?
    ensures v'.hist == HistAfter(v.hist, cr, FinalSweepWorks(f, v.objects, ClusterOwner(cp), resolved), saved)
  {
    var id, o := P.Cluster(cp.name), ClusterOwner(cp);
    if cr.deleting && cr.finalizer {
      v' := Deleted(v, now, FinalSweepWorks(f, v.objects, o, resolved) && saved);
      acts, s' := ClusterDeletionIsRun(s, id, v, cr, o, f, resolved, saved);
    } else if !cr.deleting && (cr.finalizer || saved) {
      v' := v.(objects := now, clock := clock', hist := Ensured(v.hist, cr), pc := P.Idle);
      acts, s' := ReadClusterIsRun(s, v, cp, cr, f, resolved, targets, c, said, now, clock');
    } else {
      v' := v.(pc := P.Idle);
      acts, s' := ReturnIsStep(s, id, v);
    }
  }

  predicate IsProjection(cr: P.Cr, proj: Projection, resolved: Option<string>)
  {
    cr.uid == proj.uid && cr.destName == DestinationCoords(proj).1 && (resolved.Some? ==> cr.kind == resolved.value)
  }

  /** The live part, by the frame that `Reconcile.ReconcileProjection` promises. */
  lemma LiveProjectionIsRun(s: P.State, v: View, proj: Projection, f: Faults, resolved: Option<string>, c: Course,
                            said: Said, reason: string, now: Objects, clock': nat)
    returns (acts: seq<P.Action>, s': P.State)
    requires Sees(s, P.Namespaced(proj.namespace, proj.name), v) && v.pc.Alive? && IsProjection(v.pc.cr, proj, resolved)
    requires ProjectionFrame(v.objects, v.clock, now, clock', f, said, proj, resolved, c, reason)
    requires c.Wrote? ==> Stampable(SourceIn(v.objects, resolved, proj.source))
    ensures Reaches(s, P.Namespaced(proj.namespace, proj.name), v, acts, s',
                    v.(objects := now, clock := clock', pc := P.Idle))
  {
    var id := P.Namespaced(proj.namespace, proj.name);
    OwnerKeyIsMark(proj);
    match c {
      case SourceGone =>
        acts, s' := CleanedIsRun(s, id, v, P.SourceGone(id), NamespacedOwner(proj), f, resolved.value);
      case Vetoed =>
        if resolved.Some? {
          acts, s' := VetoedIsRun(s, id, v, NamespacedOwner(proj), f);
        } else {
          acts, s' := ReturnIsStep(s, id, v);
        }
      case Wrote(_) =>
        acts, s' := WroteProjectionIsRun(s, v, proj, f, resolved, said, reason, now, clock');
      case _ =>
        acts, s' := ReturnIsStep(s, id, v);
    }
  }

  lemma WroteProjectionIsRun(s: P.State, v: View, proj: Projection, f: Faults, resolved: Option<string>, said: Said,
                             reason: string, now: Objects, clock': nat) returns (acts: seq<P.Action>, s': P.State)
    requires Sees(s, P.Namespaced(proj.namespace, proj.name), v) && v.pc.Alive? && IsProjection(v.pc.cr, proj, resolved)
    requires Readable(v.objects, resolved, proj.source) && Stampable(SourceIn(v.objects, resolved, proj.source))
    requires ProjectionWrite(v.objects, v.clock, now, clock', f, said, proj, PlanFor(v.objects, resolved, proj),
                             resolved.value, reason)
    ensures Reaches(s, P.Namespaced(proj.namespace, proj.name), v, acts, s',
                    v.(objects := now, clock := clock', pc := P.Idle))
  {
    var id, source := P.Namespaced(proj.namespace, proj.name), SourceIn(v.objects, resolved, proj.source);
    var key := DestinationAt(proj, resolved.value);
    var mid, jobs, near, ys, zs;
    acts, mid, jobs := FetchIsStep(s, id, v, Carried(source, proj.overlay), {});
    var m := v.(pc := P.Writing(v.pc.cr, Carried(source, proj.overlay), jobs));
    assert key in P.JobKeys(id, v.pc.cr, {});
    ys, near := ProjectionWriteIsRun(mid, m, proj, source, resolved.value, now, clock');
    var w := WithJob(m, key, P.Done).(objects := now, clock := clock');
    zs, s' := ReturnIsStep(near, id, w);
    Chain(s, id, v, acts, mid, m, ys, near, w);
    Chain(s, id, v, acts + ys, near, w, zs, s', v.(objects := now, clock := clock', pc := P.Idle));
    acts := acts + ys + zs;
  }

  /** The live part from the version just read. */
  lemma ReadProjectionIsRun(s: P.State, v: View, proj: Projection, cr: P.Cr, f: Faults, resolved: Option<string>,
                            c: Course, said: Said, reason: string, now: Objects, clock': nat)
    returns (acts: seq<P.Action>, s': P.State)
    requires Sees(s, P.Namespaced(proj.namespace, proj.name), v) && IsProjection(cr, proj, resolved) && !cr.deleting
    requires v.hist != [] && v.hist[|v.hist| - 1] == Some(cr) && v.pc == P.Loaded(|v.hist| - 1)
    requires ProjectionFrame(v.objects, v.clock, now, clock', f, said, proj, resolved, c, reason)
    requires c.Wrote? ==> Stampable(SourceIn(v.objects, resolved, proj.source))
    ensures Reaches(s, P.Namespaced(proj.namespace, proj.name), v, acts, s',
                    v.(objects := now, clock := clock', hist := Ensured(v.hist, cr), pc := P.Idle))
  {
    var id := P.Namespaced(proj.namespace, proj.name);
    var w := v.(hist := Ensured(v.hist, cr), pc := P.Alive(cr.(finalizer := true)));
    var near, ys;
    acts, near := EnsureIsStep(s, id, v, cr);
    ys, s' := LiveProjectionIsRun(near, w, proj, f, resolved, c, said, reason, now, clock');
    Chain(s, id, v, acts, near, w, ys, s', w.(objects := now, clock := clock', pc := P.Idle));
    acts := acts + ys;
  }

  /** Every reconcile of a Projection is a run of the protocol. */
  lemma ProjectionReconcileIsRun(s: P.State, v: View, proj: Projection, cr: P.Cr, f: Faults, resolved: Option<string>,
                                 c: Course, said: Said, reason: string, saved: bool, now: Objects, clock': nat)
    returns (acts: seq<P.Action>, s': P.State, v': View)
    requires Sees(s, P.Namespaced(proj.namespace, proj.name), v) && AtRest(v, cr) && IsProjection(cr, proj, resolved)
    requires ProjectionDid(v.objects, v.clock, now, clock', f, said, proj, resolved, c, reason, cr.deleting,
                           cr.finalizer, saved)
    requires !cr.deleting && (cr.finalizer || saved) && c.Wrote? ==>
              Stampable(SourceIn(v.objects, resolved, proj.source))
    ensures Reaches(s, P.Namespaced(proj.namespace, proj.name), v, acts, s', v')
    ensures v'.objects == now && v'.clock == clock' && v'.pc.Idle?
    ensures v'.hist == HistAfter(v.hist, cr, DeleteWorks(f, v.objects, proj, resolved), saved)
  {
    var id := P.Namespaced(proj.namespace, proj.name);
    var mid, ys;
    acts, mid := ReadIsStep(s, id, v, cr);
    ys, s', v' := ProjectionAfterRead(mid, Loaded(v), proj, cr, f, resolved, c, said, reason, saved, now, clock');
    Chain(s, id, v, acts, mid, Loaded(v), ys, s', v');
    acts := acts + ys;
  }

  lemma ProjectionAfterRead(s: P.State, v: View, proj: Projection, cr: P.Cr, f: Faults, resolved: Option<string>,
                            c: Course, said: Said, reason: string, saved: bool, now: Objects, clock': nat)
    returns (acts: seq<P.Action>, s': P.State, v': View)
    requires Sees(s, P.Namespaced(proj.namespace, proj.name), v) && IsProjection(cr, proj, resolved)
    requires v.hist != [] && v.hist[|v.hist| - 1] == Some(cr) && v.pc == P.Loaded(|v.hist| - 1)
    requires ProjectionDid(v.objects, v.clock, now, clock', f, said, proj, resolved, c, reason, cr.deleting,
                           cr.finalizer, saved)
    requires !cr.deleting && (cr.finalizer || saved) && c.Wrote? ==>
              Stampable(SourceIn(v.objects, resolved, proj.source))
    ensures Reaches(s, P.Namespaced(proj.namespace, proj.name), v, acts, s', v')
    ensures v'.objects == now && v'.clock == clock' && v'.pc.Idle?
    ensures v'.hist == HistAfter(v.hist, cr, DeleteWorks(f, v.objects, proj, resolved), saved)
  {
    var id := P.Namespaced(proj.namespace, proj.name);
    if cr.deleting && cr.finalizer {
      v' := Deleted(v, now, DeleteWorks(f, v.objects, proj, resolved) && saved);
      acts, s' := ProjectionDeletionIsRun(s, id, v, cr, proj, f, resolved, saved);
    } else if !cr.deleting && (cr.finalizer || saved) {
      v' := v.(objects := now, clock := clock', hist := Ensured(v.hist, cr), pc := P.Idle);
      acts, s' := ReadProjectionIsRun(s, v, proj, cr, f, resolved, c, said, reason, now, clock');
    } else {
      v' := v.(pc := P.Idle);
      acts, s' := ReturnIsStep(s, id, v);
    }
  }

  // ----- The reconciles themselves, traced -----

  /** `Reconcile.ReconcileCluster`, accompanied by the protocol from any state that agrees with where it starts. */
  method TraceCluster(api: Server, cr: Cr, holder: S.Holder, cp: ClusterProjection, mode: string,
                      resolved: Option<string>, items: Option<seq<Item>>, ghost cluster: map<string, Namespace>,
                      crSaved: bool, statusSaved: bool, ghost s: P.State, ghost v: View, ghost pcr: P.Cr)
    returns (c: Course, ghost acts: seq<P.Action>, ghost s': P.State, ghost v': View)
    requires Distinct(cp.namespaces) && cp.name != ""
    requires items.Some? && TargetSet(cp, cluster).Some? ==> Listing(items.value, cp, cluster)
    requires Sees(s, P.Cluster(cp.name), v) && v.objects == api.objects && v.clock == api.clock
    requires AtRest(v, pcr) && IsCluster(pcr, cp, resolved)
    requires pcr.deleting == cr.deleting && pcr.finalizer == cr.finalizer
    requires Readable(api.objects, resolved, cp.source) ==> Stampable(SourceIn(api.objects, resolved, cp.source))
    modifies api, cr, holder
    ensures Reaches(s, P.Cluster(cp.name), v, acts, s', v')
    ensures v'.objects == api.objects && v'.clock == api.clock && v'.pc.Idle?
    ensures !old(cr.gone) ==> (cr.gone <==> v'.hist == v.hist + [None])
  {
    ghost var was, before := api.objects, api.requests;
    var report;
    c, report := ReconcileCluster(api, cr, holder, cp, mode, resolved, items, cluster, crSaved, statusSaved);
    acts, s', v' := ClusterReconcileIsRun(s, v, cp, pcr, api.faults, resolved, TargetSet(cp, cluster), c,
                                          Said(before, api.requests), crSaved,
                                          api.objects, api.clock);
    GoneMeans(v.hist, pcr, FinalSweepWorks(api.faults, was, ClusterOwner(cp), resolved), crSaved);
  }

  lemma GoneMeans(hist: seq<Option<P.Cr>>, cr: P.Cr, works: bool, saved: bool)
    ensures HistAfter(hist, cr, works, saved) == hist + [None] <==> cr.deleting && cr.finalizer && works && saved
  {
    var last := HistAfter(hist, cr, works, saved);
    if last == hist + [None] {
      assert |last| == |hist| + 1 && last[|hist|] == None;
    }
  }

  /** The same for `Reconcile.ReconcileProjection`. */
  method TraceProjection(api: Server, cr: Cr, holder: S.Holder, proj: Projection, mode: string,
                         resolved: Option<string>, crSaved: bool, statusSaved: bool, ghost s: P.State,
                         ghost v: View, ghost pcr: P.Cr)
    returns (c: Course, ghost acts: seq<P.Action>, ghost s': P.State, ghost v': View)
    requires Sees(s, P.Namespaced(proj.namespace, proj.name), v) && v.objects == api.objects && v.clock == api.clock
    requires AtRest(v, pcr) && IsProjection(pcr, proj, resolved)
    requires pcr.deleting == cr.deleting && pcr.finalizer == cr.finalizer
    requires Readable(api.objects, resolved, proj.source) ==> Stampable(SourceIn(api.objects, resolved, proj.source))
    modifies api, cr, holder
    ensures Reaches(s, P.Namespaced(proj.namespace, proj.name), v, acts, s', v')
    ensures v'.objects == api.objects && v'.clock == api.clock && v'.pc.Idle?
    ensures !old(cr.gone) ==> (cr.gone <==> v'.hist == v.hist + [None])
  {
    ghost var was, before := api.objects, api.requests;
    var reason, report;
    c, reason, report := ReconcileProjection(api, cr, holder, proj, mode, resolved, crSaved, statusSaved);
    acts, s', v' := ProjectionReconcileIsRun(s, v, proj, pcr, api.faults, resolved, c, Said(before, api.requests),
                                             reason, crSaved, api.objects, api.clock);
    GoneMeans(v.hist, pcr, DeleteWorks(api.faults, was, proj, resolved), crSaved);
  }
}
