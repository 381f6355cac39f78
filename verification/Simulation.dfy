/** The two forms of the reconcile agree: what `Writer` and `Cleanup` do to object trees, call by call, are steps of
    `Protocol` on the trees' marks; `ReconcileRuns` puts whole reconciles together from these. So the invariants of
    `Safety` and `Orphans` speak about the trees. */
module Simulation {
  import opened Wrappers
  import opened Json
  import opened Types
  import opened Keys
  import opened Destination
  import opened Transform
  import opened Preservation
  import opened ApiServer
  import opened Cleanup
  import opened Writer
  import opened Chains
  import P = Protocol
  import Safety

  /** A store of trees, seen as marks and versions. */
  function Marks(objects: Objects): map<Key, P.Entry>
  {
    map k | k in objects :: P.Entry(StampOf(objects[k].tree), objects[k].version)
  }

  /** What one reconcile has to do with: the stored objects, the server's clock, the versions of its custom resource,
      the newest version it has read, and its program point. */
  datatype View = View(objects: Objects, clock: nat, hist: seq<Option<P.Cr>>, seen: nat, pc: P.Pc)

  /** A protocol state that agrees with the view of `id`. */
  ghost predicate Sees(s: P.State, id: P.Id, v: View)
  {
    && Safety.Versioned(s) && P.Known(s, id)
    && s.store == Marks(v.objects) && s.clock == v.clock
    && s.hist[id] == v.hist && s.procs[id] == P.Proc(v.seen, v.pc)
  }

  ghost function StepOf(): (P.State, P.Action, P.State) -> bool
  {
    (s, a, s') => P.Step(s, a, s')
  }

  /** Steps of the reconcile of `id` only. */
  predicate Own(acts: seq<P.Action>, id: P.Id)
  {
    forall i :: 0 <= i < |acts| ==> !P.IsUser(acts[i]) && acts[i].id == id
  }

  /** A run of own steps from one view to another. */
  ghost predicate Reaches(s: P.State, id: P.Id, v: View, acts: seq<P.Action>, s': P.State, v': View)
  {
    Sees(s, id, v) && Sees(s', id, v') && Runs(StepOf(), s, acts, s') && Own(acts, id)
  }

  /** One more step, whose effect on the view is given. */
  lemma Then(s: P.State, id: P.Id, v: View, acts: seq<P.Action>, mid: P.State, m: View, a: P.Action, v': View)
    returns (s': P.State)
    requires Reaches(s, id, v, acts, mid, m) && P.Enabled(mid, a) && !P.IsUser(a) && a.id == id
    requires var n := P.Apply(mid, a);
             && P.Known(n, id) && n.store == Marks(v'.objects) && n.clock == v'.clock
             && n.hist[id] == v'.hist && n.procs[id] == P.Proc(v'.seen, v'.pc)
    ensures s' == P.Apply(mid, a) && Reaches(s, id, v, acts + [a], s', v')
  {
    s' := P.Apply(mid, a);
    Safety.VersionedStep(mid, a, s');
    assert StepOf()(mid, a, s');
    Extended(StepOf(), s, acts, mid, a, s');
  }

  lemma Stay(s: P.State, id: P.Id, v: View)
    requires Sees(s, id, v)
    ensures Reaches(s, id, v, [], s, v)
  {
  }

  lemma Chain(s: P.State, id: P.Id, v: View, xs: seq<P.Action>, mid: P.State, m: View, ys: seq<P.Action>, s': P.State,
              v': View)
    requires Reaches(s, id, v, xs, mid, m) && Reaches(mid, id, m, ys, s', v')
    ensures Reaches(s, id, v, xs + ys, s', v')
  {
    Joined(StepOf(), s, xs, mid, ys, s');
  }

  // ----- Marks -----

  /** The builders stamp as the protocol does. */
  lemma NamespacedStampMatches(source: Object, proj: Projection, ns: string)
    requires Stampable(source)
    ensures StampOf(BuildDestination(source, proj, ns)) ==
            P.StampFor(P.Namespaced(proj.namespace, proj.name), proj.uid, Carried(source, proj.overlay))
  {
    NamespacedStamp(source, proj, ns);
    OwnerKeyIsMark(proj);
  }

  lemma ClusterStampMatches(source: Object, cp: ClusterProjection, ns: string)
    requires Stampable(source)
    ensures StampOf(BuildClusterDestination(source, cp, ns)) ==
            P.StampFor(P.Cluster(cp.name), cp.uid, Carried(source, cp.overlay))
  {
    ClusterStamp(source, cp, ns);
  }

  lemma OwnerKeyIsMark(proj: Projection)
    ensures OwnerKey(proj) == P.Mark(P.Namespaced(proj.namespace, proj.name)) && OwnerKey(proj) != ""
  {
  }

  /** An owner of trees and an id of the protocol that stand for the same custom resource. */
  predicate Names(o: Owner, id: P.Id)
  {
    && o.value == P.Mark(id) && o.value != ""
    && o.annotation == (if id.Namespaced? then OWNED_BY_ANNOTATION else OWNED_BY_CLUSTER_ANNOTATION)
    && o.uidLabel == (if id.Namespaced? then OWNED_BY_UID_LABEL else OWNED_BY_CLUSTER_UID_LABEL)
  }

  lemma OwnsMatches(o: Owner, id: P.Id, tree: Object)
    requires Names(o, id)
    ensures Owns(o, tree) <==> P.OwnedBy(StampOf(tree), id)
    ensures Labelled(o, tree) <==> P.UidLabel(StampOf(tree), id) == Some(o.uid)
  {
  }

  /** The objects that a sweep deletes are those the protocol's sweep collects. */
  lemma SweptMatches(objects: Objects, o: Owner, id: P.Id, cr: P.Cr, kind: string, keep: Option<set<string>>)
    requires Names(o, id) && cr.kind == kind && cr.uid == o.uid
    ensures Swept(objects, o, kind, keep) ==
            P.Collect(Marks(objects), id, cr, if keep.Some? then P.Stale(keep.value) else P.All)
  {
    var mode := if keep.Some? then P.Stale(keep.value) else P.All;
    forall k | k in objects
      ensures Entitled(o, kind, keep, k, objects[k]) <==> P.Picked(id, cr, mode, k, Marks(objects)[k].stamp)
    {
      OwnsMatches(o, id, objects[k].tree);
    }
  }

  /** So does the check of deleteOneDestination at the current coordinates. */
  lemma OneMatches(objects: Objects, o: Owner, id: P.Id, cr: P.Cr)
    requires Names(o, id) && id.Namespaced?
    ensures P.Collect(Marks(objects), id, cr, P.One) ==
            var k := P.Coords(id, cr); if k in objects && Owns(o, objects[k].tree) then {k} else {}
  {
    var k := P.Coords(id, cr);
    if k in objects {
      OwnsMatches(o, id, objects[k].tree);
    }
  }

  // ----- A write -----

  /** The marks after an object was put at a key are those of the plan there, and the old ones elsewhere. */
  lemma ReplacedMarks(was: Objects, now: Objects, plan: Plan, key: Key, o: Owner, id: P.Id)
    requires Replaced(was, now, plan, key, o) && Names(o, id)
    ensures Marks(now) == Marks(was)[key := P.Entry(StampOf(plan.Built()), now[key].version)]
    ensures key in was ==> P.OwnedBy(Marks(was)[key].stamp, id)
  {
    var earlier :| Stores(plan, earlier, now[key].tree);
    StoredMarks(plan, earlier, now[key].tree);
    MarksPut(was, now, key);
    if key in was {
      OwnsMatches(o, id, was[key].tree);
    }
  }

  lemma StoredMarks(plan: Plan, earlier: Option<Object>, tree: Object)
    requires Stores(plan, earlier, tree)
    ensures StampOf(tree) == StampOf(plan.Built())
  {
    DeliveredMaps(tree, plan);
  }

  lemma MarksPut(was: Objects, now: Objects, key: Key)
    requires key in now && now == was[key := now[key]]
    ensures Marks(now) == Marks(was)[key := P.Entry(StampOf(now[key].tree), now[key].version)]
  {
  }

  /** The reconcile is at its writes, with a job at the key that stamps with `stamp`. */
  predicate HasJob(v: View, id: P.Id, stamp: Stamp, key: Key)
  {
    && v.pc.Writing? && key in v.pc.jobs
    && stamp == P.StampFor(id, v.pc.cr.uid, v.pc.carried)
  }

  function WithJob(v: View, key: Key, job: P.Job): View
    requires v.pc.Writing?
  {
    v.(pc := v.pc.(jobs := v.pc.jobs[key := job]))
  }

  function At(store: map<Key, P.Entry>, key: Key): Option<P.Entry>
  {
    if key in store then Some(store[key]) else None
  }

  lemma GetIsStep(s: P.State, id: P.Id, v: View, stamp: Stamp, key: Key) returns (acts: seq<P.Action>, s': P.State)
    requires Sees(s, id, v) && HasJob(v, id, stamp, key) && v.pc.jobs[key].Pending?
    ensures Reaches(s, id, v, acts, s', WithJob(v, key, P.Seen(At(Marks(v.objects), key))))
  {
    var a := P.GetDest(id, key, At(s.store, key));
    assert key in s.store ==> P.InLog(s, key, s.store[key]);
    Stay(s, id, v);
    s' := Then(s, id, v, [], s, v, a, WithJob(v, key, P.Seen(At(Marks(v.objects), key))));
    acts := [] + [a];
  }

  /** The step that stores: an Update of what the Get returned, or a Create if it returned nothing. */
  lemma StoreIsStep(s: P.State, id: P.Id, v: View, stamp: Stamp, key: Key, now: Objects)
    returns (acts: seq<P.Action>, s': P.State)
    requires Sees(s, id, v) && HasJob(v, id, stamp, key) && v.pc.jobs[key] == P.Seen(At(Marks(v.objects), key))
    requires key in v.objects ==> P.OwnedBy(Marks(v.objects)[key].stamp, id)
    requires Marks(now) == Marks(v.objects)[key := P.Entry(stamp, v.clock)]
    ensures Reaches(s, id, v, acts, s', WithJob(v, key, P.Done).(objects := now, clock := v.clock + 1))
  {
    var a := if key in s.store then P.Update(id, key) else P.Create(id, key);
    Stay(s, id, v);
    s' := Then(s, id, v, [], s, v, a, WithJob(v, key, P.Done).(objects := now, clock := v.clock + 1));
    acts := [] + [a];
  }

  lemma EndIsStep(s: P.State, id: P.Id, v: View, key: Key) returns (acts: seq<P.Action>, s': P.State)
    requires Sees(s, id, v) && v.pc.Writing? && key in v.pc.jobs
    ensures Reaches(s, id, v, acts, s', WithJob(v, key, P.Done))
  {
    Stay(s, id, v);
    s' := Then(s, id, v, [], s, v, P.EndJob(id, key), WithJob(v, key, P.Done));
    acts := [] + [P.EndJob(id, key)];
  }

  /** Every write of `Writer.WriteObject` is two steps of the protocol: its Get, and the Create, the Update or the end
      of the job without one. */
  lemma WriteIsRun(s: P.State, id: P.Id, v: View, o: Owner, plan: Plan, key: Key, now: Objects, clock': nat)
    returns (acts: seq<P.Action>, s': P.State)
    requires Sees(s, id, v) && Names(o, id) && HasJob(v, id, StampOf(plan.Built()), key) && v.pc.jobs[key].Pending?
    requires OneWrite(v.objects, v.clock, now, clock', plan, key, o)
    ensures Reaches(s, id, v, acts, s', WithJob(v, key, P.Done).(objects := now, clock := clock'))
  {
    var m := WithJob(v, key, P.Seen(At(Marks(v.objects), key)));
    var xs, mid := GetIsStep(s, id, v, StampOf(plan.Built()), key);
    var ys;
    ys, s' := LastIsStep(mid, id, m, o, plan, key, now, clock');
    JobTwice(v, key, P.Seen(At(Marks(v.objects), key)));
    Chain(s, id, v, xs, mid, m, ys, s', WithJob(v, key, P.Done).(objects := now, clock := clock'));
    acts := xs + ys;
  }

  lemma LastIsStep(s: P.State, id: P.Id, v: View, o: Owner, plan: Plan, key: Key, now: Objects, clock': nat)
    returns (acts: seq<P.Action>, s': P.State)
    requires Sees(s, id, v) && Names(o, id) && HasJob(v, id, StampOf(plan.Built()), key)
    requires v.pc.jobs[key] == P.Seen(At(Marks(v.objects), key))
    requires OneWrite(v.objects, v.clock, now, clock', plan, key, o)
    ensures Reaches(s, id, v, acts, s', WithJob(v, key, P.Done).(objects := now, clock := clock'))
  {
    if now == v.objects && clock' == v.clock {
      acts, s' := EndIsStep(s, id, v, key);
    } else {
      ReplacedMarks(v.objects, now, plan, key, o, id);
      acts, s' := StoreIsStep(s, id, v, StampOf(plan.Built()), key, now);
    }
  }

  lemma JobTwice(v: View, key: Key, job: P.Job)
    requires v.pc.Writing?
    ensures WithJob(WithJob(v, key, job), key, P.Done) == WithJob(v, key, P.Done)
  {
    assert v.pc.jobs[key := job][key := P.Done] == v.pc.jobs[key := P.Done];
  }

  /** The two write functions, with the marks their builders put on. */
  lemma ProjectionWriteIsRun(s: P.State, v: View, proj: Projection, source: Object, kind: string, now: Objects,
                             clock': nat) returns (acts: seq<P.Action>, s': P.State)
    requires var id := P.Namespaced(proj.namespace, proj.name); var (ns, name) := DestinationCoords(proj);
             && Sees(s, id, v) && v.pc.Writing? && Key(kind, ns, name) in v.pc.jobs
             && v.pc.jobs[Key(kind, ns, name)].Pending?
             && v.pc.cr.uid == proj.uid && v.pc.carried == Carried(source, proj.overlay) && Stampable(source)
             && OneWrite(v.objects, v.clock, now, clock', NamespacedPlan(source, proj, proj.namespace),
                         Key(kind, ns, name), NamespacedOwner(proj))
    ensures var id := P.Namespaced(proj.namespace, proj.name); var (ns, name) := DestinationCoords(proj);
            Reaches(s, id, v, acts, s', WithJob(v, Key(kind, ns, name), P.Done).(objects := now, clock := clock'))
  {
    var id := P.Namespaced(proj.namespace, proj.name);
    var (ns, name) := DestinationCoords(proj);
    NamespacedStampMatches(source, proj, proj.namespace);
    OwnerKeyIsMark(proj);
    acts, s' := WriteIsRun(s, id, v, NamespacedOwner(proj), NamespacedPlan(source, proj, proj.namespace),
                           Key(kind, ns, name), now, clock');
  }

  lemma ClusterWriteIsRun(s: P.State, v: View, cp: ClusterProjection, source: Object, t: string, kind: string,
                          now: Objects, clock': nat) returns (acts: seq<P.Action>, s': P.State)
    requires Sees(s, P.Cluster(cp.name), v) && v.pc.Writing? && cp.name != "" && Stampable(source)
    requires v.pc.cr.uid == cp.uid && v.pc.carried == Carried(source, cp.overlay)
    requires var key := Key(kind, t, ClusterDestinationName(cp));
             && key in v.pc.jobs && v.pc.jobs[key].Pending?
             && OneWrite(v.objects, v.clock, now, clock', ClusterPlan(source, cp, t), key, ClusterOwner(cp))
    ensures var key := Key(kind, t, ClusterDestinationName(cp));
            Reaches(s, P.Cluster(cp.name), v, acts, s', WithJob(v, key, P.Done).(objects := now, clock := clock'))
  {
    ClusterStampMatches(source, cp, t);
    acts, s' := WriteIsRun(s, P.Cluster(cp.name), v, ClusterOwner(cp), ClusterPlan(source, cp, t),
                           Key(kind, t, ClusterDestinationName(cp)), now, clock');
  }

  // ----- A sweep -----

  lemma MarksDrop(was: Objects, key: Key)
    ensures Marks(was - {key}) == Marks(was) - {key}
  {
  }

  /** The program point of a sweep with this much left to do. */
  function Sweeping(pc: P.Pc, todo: set<Key>, clean: bool): P.Pc
    requires pc.Sweeping?
  {
    pc.(todo := todo, clean := clean)
  }

  /** Any outcome of a list-and-delete loop, with whichever deletes failed, is a run of the protocol's sweep: it ends
      with nothing left to do, and clean if and only if it was and everything on the list is gone. */
  lemma {:induction false} SweepIsRun(s: P.State, id: P.Id, v: View, now: Objects)
    returns (acts: seq<P.Action>, s': P.State)
    requires Sees(s, id, v) && v.pc.Sweeping? && v.pc.todo <= v.objects.Keys && RemovedWithin(v.objects, now, v.pc.todo)
    ensures Reaches(s, id, v, acts, s',
                    v.(objects := now, pc := Sweeping(v.pc, {}, v.pc.clean && now.Keys !! v.pc.todo)))
    decreases v.pc.todo
  {
    if v.pc.todo == {} {
      assert now == v.objects;
      Stay(s, id, v);
      acts, s' := [], s;
    } else {
      var k :| k in v.pc.todo;
      var mid, m;
      acts, mid, m := DeleteIsStep(s, id, v, k, k in now);
      var rest;
      rest, s' := SweepIsRun(mid, id, m, now);
      Chain(s, id, v, acts, mid, m, rest, s',
            v.(objects := now, pc := Sweeping(v.pc, {}, v.pc.clean && now.Keys !! v.pc.todo)));
      acts := acts + rest;
    }
  }

  lemma DeleteIsStep(s: P.State, id: P.Id, v: View, k: Key, fails: bool)
    returns (acts: seq<P.Action>, s': P.State, v': View)
    requires Sees(s, id, v) && v.pc.Sweeping? && k in v.pc.todo
    ensures v' == v.(objects := if fails then v.objects else v.objects - {k},
                     pc := Sweeping(v.pc, v.pc.todo - {k}, v.pc.clean && !fails))
    ensures Reaches(s, id, v, acts, s', v')
  {
    var a := if fails then P.DeleteFails(id, k) else P.Delete(id, k, true);
    v' := v.(objects := if fails then v.objects else v.objects - {k},
             pc := Sweeping(v.pc, v.pc.todo - {k}, v.pc.clean && !fails));
    MarksDrop(v.objects, k);
    Stay(s, id, v);
    s' := Then(s, id, v, [], s, v, a, v');
    acts := [] + [a];
  }
}
