/** Runs that show why the hypotheses of `Safety` and `Orphans` are needed. Each run uses only steps of the
    controller and of users editing custom resources. */
module Counterexamples {
  import opened Wrappers
  import opened Types
  import opened Keys
  import opened Protocol
  import opened Safety
  import opened Orphans

  function End(states: seq<State>): State
    requires states != []
  {
    states[|states| - 1]
  }

  ghost predicate AllControlled(trace: seq<Action>)
  {
    forall n :: 0 <= n < |trace| ==> Controlled(trace[n])
  }

  // ----- Building runs -----

  lemma Extend(states: seq<State>, trace: seq<Action>, a: Action) returns (states': seq<State>, trace': seq<Action>)
    requires Behavior(states, trace) && Enabled(End(states), a)
    ensures Behavior(states', trace') && End(states') == Apply(End(states), a)
    ensures trace' == trace + [a] && states' == states + [End(states')]
    ensures AllControlled(trace) && Controlled(a) ==> AllControlled(trace')
  {
    states', trace' := states + [Apply(End(states), a)], trace + [a];
  }

  /** Nothing stored, no CR created yet. */
  function Empty(ids: set<Id>): State
  {
    State(map[], 0, map[], map id | id in ids :: [None], {}, map id | id in ids :: Proc(0, Idle))
  }

  lemma EmptyStarts(ids: set<Id>)
    requires forall id | id in ids :: ValidId(id)
    ensures Behavior([Empty(ids)], [])
  {
  }

  const BLANK := Stamp(None, None, None, None)

  /** `id` is created and its reconcile puts the finalizer on. */
  lemma Adopt(states: seq<State>, trace: seq<Action>, id: Id, cr: Cr) returns (states': seq<State>, trace': seq<Action>)
    requires Behavior(states, trace)
    requires Known(End(states), id) && End(states).procs[id] == Proc(0, Idle) && End(states).hist[id] == [None]
    requires !cr.deleting && !cr.finalizer && cr.uid !in End(states).uids
    ensures Behavior(states', trace') && (AllControlled(trace) ==> AllControlled(trace'))
    ensures var s := End(states); var live := cr.(finalizer := true);
            End(states') == s.(procs := s.procs[id := Proc(1, Alive(live))],
                               hist := s.hist[id := [None, Some(cr), Some(live)]],
                               uids := s.uids + {cr.uid})
  {
    states', trace' := Extend(states, trace, CreateCr(id, cr));
    assert End(states').hist[id] == [None, Some(cr)];
    states', trace' := Extend(states', trace', ReadCr(id, 1));
    assert LoadedCr(End(states'), id) == Some(cr);
    states', trace' := Extend(states', trace', EnsureFinalizer(id, true));
    assert End(states').hist[id] == [None, Some(cr), Some(cr.(finalizer := true))];
  }

  /** A later reconcile of `id` reads its newest version and gets past the finalizer. */
  lemma Resume(states: seq<State>, trace: seq<Action>, id: Id) returns (states': seq<State>, trace': seq<Action>)
    requires Behavior(states, trace) && Known(End(states), id)
    requires End(states).procs[id].pc.Idle? && End(states).procs[id].seen < |End(states).hist[id]|
    requires Current(End(states), id).Some? && Current(End(states), id).value.finalizer
    requires !Current(End(states), id).value.deleting
    ensures Behavior(states', trace') && (AllControlled(trace) ==> AllControlled(trace'))
    ensures states <= states' && trace <= trace'
    ensures var s := End(states);
            End(states') == s.(procs := s.procs[id := Proc(|s.hist[id]| - 1, Alive(Current(s, id).value))])
  {
    states', trace' := Extend(states, trace, ReadCr(id, |End(states).hist[id]| - 1));
    assert LoadedCr(End(states'), id) == Current(End(states), id);
    states', trace' := Extend(states', trace', EnsureFinalizer(id, true));
  }

  /** The reconcile of `id` creates its one destination `k` from a source that carries `carried`. */
  lemma Place(states: seq<State>, trace: seq<Action>, id: Id, carried: Stamp, targets: set<string>, k: Key)
    returns (states': seq<State>, trace': seq<Action>)
    requires Behavior(states, trace) && Known(End(states), id) && End(states).procs[id].pc.Alive?
    requires JobKeys(id, End(states).procs[id].pc.cr, targets) == {k} && k !in End(states).store
    ensures Behavior(states', trace') && (AllControlled(trace) && CleanFor(id, carried) ==> AllControlled(trace'))
    ensures |trace'| > |trace| && trace'[|trace|] == FetchSource(id, carried, targets) && states <= states'
    ensures var s := End(states); var stamp := StampFor(id, s.procs[id].pc.cr.uid, carried);
            End(states') == s.(procs := s.procs[id := s.procs[id].(pc := Idle)],
                               store := s.store[k := Entry(stamp, s.clock)],
                               revisions := s.revisions[s.clock := Revision(k, stamp)],
                               clock := s.clock + 1)
  {
    states', trace' := PutNew(states, trace, id, carried, targets, k);
    states', trace' := Extend(states', trace', Return(id));
  }

  /** The same up to the write. */
  lemma PutNew(states: seq<State>, trace: seq<Action>, id: Id, carried: Stamp, targets: set<string>, k: Key)
    returns (states': seq<State>, trace': seq<Action>)
    requires Behavior(states, trace) && Known(End(states), id) && End(states).procs[id].pc.Alive?
    requires JobKeys(id, End(states).procs[id].pc.cr, targets) == {k} && k !in End(states).store
    ensures Behavior(states', trace') && (AllControlled(trace) && CleanFor(id, carried) ==> AllControlled(trace'))
    ensures |trace'| > |trace| && trace'[|trace|] == FetchSource(id, carried, targets) && states <= states'
    ensures var s := End(states); var cr := s.procs[id].pc.cr; var stamp := StampFor(id, cr.uid, carried);
            End(states') == s.(procs := s.procs[id := s.procs[id].(pc := Writing(cr, carried, map[k := Done]))],
                               store := s.store[k := Entry(stamp, s.clock)],
                               revisions := s.revisions[s.clock := Revision(k, stamp)],
                               clock := s.clock + 1)
  {
    states', trace' := LookUp(states, trace, id, carried, targets, k, None);
    var jobs := map[k := Seen(None)];
    assert jobs[k := Done] == map[k := Done];
    states', trace' := Extend(states', trace', Create(id, k));
  }

  /** The reconcile fetches the source and looks for its one destination. */
  lemma LookUp(states: seq<State>, trace: seq<Action>, id: Id, carried: Stamp, targets: set<string>, k: Key,
               found: Option<Entry>)
    returns (states': seq<State>, trace': seq<Action>)
    requires Behavior(states, trace) && Known(End(states), id) && End(states).procs[id].pc.Alive?
    requires JobKeys(id, End(states).procs[id].pc.cr, targets) == {k}
    requires found.Some? ==> InLog(End(states), k, found.value)
    ensures Behavior(states', trace') && (AllControlled(trace) && CleanFor(id, carried) ==> AllControlled(trace'))
    ensures trace' == trace + [FetchSource(id, carried, targets), GetDest(id, k, found)] && states <= states'
    ensures var s := End(states); var cr := s.procs[id].pc.cr;
            End(states') == s.(procs := s.procs[id := s.procs[id].(pc := Writing(cr, carried, map[k := Seen(found)]))])
  {
    states', trace' := Fetch(states, trace, id, carried, targets, k);
    var jobs := End(states').procs[id].pc.jobs;
    states', trace' := Extend(states', trace', GetDest(id, k, found));
    assert jobs[k := Seen(found)] == map[k := Seen(found)];
  }

  lemma Fetch(states: seq<State>, trace: seq<Action>, id: Id, carried: Stamp, targets: set<string>, k: Key)
    returns (states': seq<State>, trace': seq<Action>)
    requires Behavior(states, trace) && Known(End(states), id) && End(states).procs[id].pc.Alive?
    requires JobKeys(id, End(states).procs[id].pc.cr, targets) == {k}
    ensures Behavior(states', trace') && (AllControlled(trace) && CleanFor(id, carried) ==> AllControlled(trace'))
    ensures trace' == trace + [FetchSource(id, carried, targets)] && states <= states'
    ensures var s := End(states); var cr := s.procs[id].pc.cr;
            End(states') == s.(procs := s.procs[id := s.procs[id].(pc := Writing(cr, carried, map[k := Pending]))])
  {
    var jobs := map j | j in JobKeys(id, End(states).procs[id].pc.cr, targets) :: Pending;
    assert jobs == map[k := Pending];
    states', trace' := Extend(states, trace, FetchSource(id, carried, targets));
  }

  /** A user asks for the deletion of `id` and its reconcile reads that. */
  lemma Ask(states: seq<State>, trace: seq<Action>, id: Id) returns (states': seq<State>, trace': seq<Action>)
    requires Behavior(states, trace) && Known(End(states), id)
    requires End(states).procs[id].pc.Idle? && End(states).procs[id].seen <= |End(states).hist[id]|
    requires Current(End(states), id).Some? && Current(End(states), id).value.finalizer
    ensures Behavior(states', trace') && (AllControlled(trace) ==> AllControlled(trace'))
    ensures var s := End(states); var i := |s.hist[id]|; var cr := Current(s, id).value.(deleting := true);
            End(states') == s.(procs := s.procs[id := Proc(i, Loaded(i))],
                               hist := s.hist[id := s.hist[id] + [Some(cr)]],
                               uids := s.uids + {cr.uid})
  {
    states', trace' := Extend(states, trace, DeleteCr(id));
    states', trace' := Extend(states', trace', ReadCr(id, |End(states).hist[id]|));
  }

  /** A CR none of whose owned objects is within reach of its cleanup is deleted; nothing is swept. */
  lemma Retire(states: seq<State>, trace: seq<Action>, id: Id) returns (states': seq<State>, trace': seq<Action>)
    requires Behavior(states, trace) && Known(End(states), id)
    requires End(states).procs[id].pc.Idle? && End(states).procs[id].seen <= |End(states).hist[id]|
    requires Current(End(states), id).Some? && Current(End(states), id).value.finalizer
    requires forall k | k in End(states).store :: k.kind != Current(End(states), id).value.kind ||
               (id.Namespaced? && k != Coords(id, Current(End(states), id).value))
    ensures Behavior(states', trace') && (AllControlled(trace) ==> AllControlled(trace'))
    ensures Known(End(states'), id) && Current(End(states'), id).None? && End(states').store == End(states).store
  {
    states', trace' := Ask(states, trace, id);
    assert LoadedCr(End(states'), id) == Some(Current(End(states), id).value.(deleting := true));
    states', trace' := SweepNothing(states', trace', id);
    states', trace' := LetGo(states', trace', id);
  }

  /** A cleanup that finds nothing. */
  lemma SweepNothing(states: seq<State>, trace: seq<Action>, id: Id) returns (states': seq<State>, trace': seq<Action>)
    requires Behavior(states, trace) && InDeletion(End(states), id)
    requires var cr := LoadedCr(End(states), id).value;
             forall k | k in End(states).store :: k.kind != cr.kind || (id.Namespaced? && k != Coords(id, cr))
    ensures Behavior(states', trace') && (AllControlled(trace) ==> AllControlled(trace'))
    ensures var s := End(states);
            End(states') == s.(procs := s.procs[id := s.procs[id].(pc := Finalizing(s.procs[id].pc.i))])
  {
    var cr := LoadedCr(End(states), id).value;
    assert Collect(End(states).store, id, cr, if id.Namespaced? then One else All) == {};
    states', trace' := Extend(states, trace, Cleanup(id));
    states', trace' := Extend(states', trace', EndSweep(id));
  }

  lemma LetGo(states: seq<State>, trace: seq<Action>, id: Id) returns (states': seq<State>, trace': seq<Action>)
    requires Behavior(states, trace) && Enabled(End(states), RemoveFinalizer(id))
    ensures Behavior(states', trace') && (AllControlled(trace) ==> AllControlled(trace'))
    ensures Known(End(states'), id) && Current(End(states'), id).None? && End(states').store == End(states).store
  {
    states', trace' := Extend(states, trace, RemoveFinalizer(id));
  }

  // ----- Orphans -----

  /** A controlled run after which the CR is gone and an object it owns is still there. */
  ghost predicate LeavesOrphan(states: seq<State>, trace: seq<Action>, id: Id, k: Key)
  {
    && Behavior(states, trace) && AllControlled(trace) && Known(End(states), id)
    && Current(End(states), id).None?
    && k in End(states).store && OwnedBy(End(states).store[k].stamp, id)
  }

  const TEAM := Namespaced("team", "p")
  const OLD := Cr("u1", "ConfigMap", "old", false, false)
  const OLD_KEY := Key("ConfigMap", "team", "old")

  const FLEET := Cluster("c")
  const FLEET_CR := Cr("u2", "ConfigMap", "copy", false, false)
  const COPY_KEY := Key("ConfigMap", "src", "copy")

  const TEAM_LIVE := OLD.(finalizer := true)
  const TEAM_STAMP := StampFor(TEAM, "u1", BLANK)

  /** The Projection is created and writes its destination. */
  lemma TeamPlaces(ids: set<Id>) returns (states: seq<State>, trace: seq<Action>)
    requires TEAM in ids && forall id | id in ids :: ValidId(id)
    ensures Behavior(states, trace) && AllControlled(trace)
    ensures End(states) == TeamPlaced(ids)
  {
    EmptyStarts(ids);
    states, trace := Adopt([Empty(ids)], [], TEAM, OLD);
    states, trace := Place(states, trace, TEAM, BLANK, {}, OLD_KEY);
  }

  function TeamPlaced(ids: set<Id>): State
    requires TEAM in ids
  {
    var s := Empty(ids);
    s.(procs := s.procs[TEAM := Proc(1, Idle)],
       hist := s.hist[TEAM := [None, Some(OLD), Some(TEAM_LIVE)]],
       uids := {"u1"},
       store := map[OLD_KEY := Entry(TEAM_STAMP, 0)],
       revisions := map[0 := Revision(OLD_KEY, TEAM_STAMP)],
       clock := 1)
  }

  /** Renaming a Projection's destination and then deleting the Projection leaves the old destination behind: the
      finalizer looks at the current coordinates only. */
  lemma RenamedProjectionLeavesOrphan() returns (states: seq<State>, trace: seq<Action>)
    ensures LeavesOrphan(states, trace, TEAM, OLD_KEY)
  {
    states, trace := TeamPlaces({TEAM});
    states, trace := Extend(states, trace, EditCr(TEAM, "ConfigMap", "new"));
    assert Current(End(states), TEAM) == Some(TEAM_LIVE.(destName := "new"));
    assert |End(states).hist[TEAM]| == 4;
    states, trace := Retire(states, trace, TEAM);
  }

  /** Deleting a Projection whose kind no longer resolves removes the finalizer without a sweep. */
  lemma UnresolvedKindLeavesOrphan() returns (states: seq<State>, trace: seq<Action>)
    ensures LeavesOrphan(states, trace, TEAM, OLD_KEY)
  {
    states, trace := TeamPlaces({TEAM});
    assert Current(End(states), TEAM) == Some(TEAM_LIVE);
    states, trace := Ask(states, trace, TEAM);
    states, trace := Extend(states, trace, SkipCleanup(TEAM));
    states, trace := LetGo(states, trace, TEAM);
  }

  /** The ClusterProjection is created and writes its copy into the namespace "src". */
  lemma FleetPlaces(ids: set<Id>) returns (states: seq<State>, trace: seq<Action>)
    requires FLEET in ids && forall id | id in ids :: ValidId(id)
    ensures Behavior(states, trace) && AllControlled(trace)
    ensures End(states) == FleetPlaced(ids)
  {
    EmptyStarts(ids);
    states, trace := Adopt([Empty(ids)], [], FLEET, FLEET_CR);
    states, trace := Place(states, trace, FLEET, BLANK, {"src"}, COPY_KEY);
  }

  const COPY_STAMP := Stamp(None, None, Some("c"), Some("u2"))
  const FLEET_LIVE := FLEET_CR.(finalizer := true)

  function FleetPlaced(ids: set<Id>): State
    requires FLEET in ids
  {
    var s := Empty(ids);
    s.(procs := s.procs[FLEET := Proc(1, Idle)],
       hist := s.hist[FLEET := [None, Some(FLEET_CR), Some(FLEET_LIVE)]],
       uids := {"u2"},
       store := map[COPY_KEY := Entry(COPY_STAMP, 0)],
       revisions := map[0 := Revision(COPY_KEY, COPY_STAMP)],
       clock := 1)
  }

  /** Changing the source kind of a ClusterProjection and then deleting it leaves the copies of the old kind behind. */
  lemma ChangedKindLeavesOrphan() returns (states: seq<State>, trace: seq<Action>)
    ensures LeavesOrphan(states, trace, FLEET, COPY_KEY)
  {
    states, trace := FleetPlaces({FLEET});
    states, trace := Extend(states, trace, EditCr(FLEET, "Secret", "copy"));
    assert Current(End(states), FLEET) == Some(FLEET_LIVE.(kind := "Secret"));
    assert |End(states).hist[FLEET]| == 4 && |"Secret"| != |"ConfigMap"|;
    states, trace := Retire(states, trace, FLEET);
  }

  const NEW_KEY := Key("ConfigMap", "src", "new")

  /** Renaming a ClusterProjection's destination leaves the old copy in a namespace that stays a target, next to the new
      one, although the reconcile wrote and swept without a failure. */
  lemma RenamedFleetKeepsOldCopy() returns (states: seq<State>, trace: seq<Action>)
    ensures Behavior(states, trace) && AllControlled(trace) && |trace| > 2
    ensures trace[|trace| - 2] == StaleSweep(FLEET) && trace[|trace| - 1] == EndSweep(FLEET)
    ensures var store := End(states).store;
            && store.Keys == {COPY_KEY, NEW_KEY}
            && OwnedBy(store[COPY_KEY].stamp, FLEET) && OwnedBy(store[NEW_KEY].stamp, FLEET)
  {
    states, trace := FleetWritesNew();
    states, trace := SweepKeeps(states, trace);
  }

  lemma FleetWritesNew() returns (states: seq<State>, trace: seq<Action>)
    ensures Behavior(states, trace) && AllControlled(trace) && Known(End(states), FLEET) && |trace| > 0
    ensures End(states).procs[FLEET].pc == Writing(RENAMED, BLANK, map[NEW_KEY := Done])
    ensures End(states).store.Keys == {COPY_KEY, NEW_KEY}
    ensures OwnedBy(End(states).store[COPY_KEY].stamp, FLEET) && OwnedBy(End(states).store[NEW_KEY].stamp, FLEET)
  {
    states, trace := FleetRenamed();
    assert |NEW_KEY.name| != |COPY_KEY.name|;
    assert JobKeys(FLEET, RENAMED, {"src"}) == {NEW_KEY};
    states, trace := PutNew(states, trace, FLEET, BLANK, {"src"}, NEW_KEY);
  }

  const RENAMED := FLEET_LIVE.(destName := "new")

  /** The ClusterProjection has its copy, is renamed, and is reconciled again. */
  lemma FleetRenamed() returns (states: seq<State>, trace: seq<Action>)
    ensures Behavior(states, trace) && AllControlled(trace) && Known(End(states), FLEET)
    ensures End(states).procs[FLEET].pc == Alive(RENAMED)
    ensures End(states).store == map[COPY_KEY := Entry(COPY_STAMP, 0)]
  {
    states, trace := FleetPlaces({FLEET});
    states, trace := Extend(states, trace, EditCr(FLEET, "ConfigMap", "new"));
    assert Current(End(states), FLEET) == Some(RENAMED) && |End(states).hist[FLEET]| == 4;
    states, trace := Resume(states, trace, FLEET);
  }

  lemma SweepKeeps(states: seq<State>, trace: seq<Action>) returns (states': seq<State>, trace': seq<Action>)
    requires Behavior(states, trace) && Known(End(states), FLEET)
    requires End(states).procs[FLEET].pc == Writing(RENAMED, BLANK, map[NEW_KEY := Done])
    requires forall k | k in End(states).store :: k.ns == "src"
    ensures Behavior(states', trace') && (AllControlled(trace) ==> AllControlled(trace'))
    ensures trace' == trace + [StaleSweep(FLEET), EndSweep(FLEET)] && End(states').store == End(states).store
  {
    var jobs := End(states).procs[FLEET].pc.jobs;
    assert jobs[NEW_KEY] == Done && (set k | k in jobs :: k.ns) == {"src"};
    assert Collect(End(states).store, FLEET, RENAMED, Stale({"src"})) == {};
    states', trace' := Extend(states, trace, StaleSweep(FLEET));
    states', trace' := Extend(states', trace', EndSweep(FLEET));
  }

  // ----- Chained projections -----

  /** The Projection TEAM takes FLEET's copy as its source: what it carries are the marks stored there. */
  lemma TeamChains() returns (states: seq<State>, trace: seq<Action>, i: nat)
    ensures Behavior(states, trace) && i < |trace|
    ensures COPY_KEY in states[i].store && OwnedBy(states[i].store[COPY_KEY].stamp, FLEET)
    ensures trace[i] == FetchSource(TEAM, states[i].store[COPY_KEY].stamp, {})
    ensures var s := End(states);
            && Known(s, FLEET) && s.procs[FLEET] == Proc(1, Idle)
            && s.hist[FLEET] == [None, Some(FLEET_CR), Some(FLEET_LIVE)]
            && s.store == map[COPY_KEY := Entry(COPY_STAMP, 0), OLD_KEY := Entry(CHAINED, 1)]
            && InLog(s, COPY_KEY, Entry(COPY_STAMP, 0))
  {
    states, trace := FleetPlaces({TEAM, FLEET});
    states, trace := Adopt(states, trace, TEAM, OLD);
    i := |trace|;
    var before := states;
    assert End(states).store == map[COPY_KEY := Entry(COPY_STAMP, 0)];
    states, trace := Place(states, trace, TEAM, COPY_STAMP, {}, OLD_KEY);
    assert states[i] == before[i] == End(before);
  }

  const CHAINED := StampFor(TEAM, "u1", COPY_STAMP)

  /** FLEET's next reconcile finds its own copy up to date and is about to sweep. */
  lemma FleetKeeps(states: seq<State>, trace: seq<Action>) returns (states': seq<State>, trace': seq<Action>)
    requires Behavior(states, trace) && Known(End(states), FLEET) && End(states).procs[FLEET] == Proc(1, Idle)
    requires End(states).hist[FLEET] == [None, Some(FLEET_CR), Some(FLEET_LIVE)]
    requires InLog(End(states), COPY_KEY, Entry(COPY_STAMP, 0))
    ensures Behavior(states', trace') && End(states').store == End(states).store && states <= states' && trace <= trace'
    ensures Known(End(states'), FLEET)
    ensures End(states').procs[FLEET].pc == Writing(FLEET_LIVE, BLANK, map[COPY_KEY := Done])
  {
    assert Current(End(states), FLEET) == Some(FLEET_LIVE);
    states', trace' := Resume(states, trace, FLEET);
    var early, sofar := states', trace';
    states', trace' := LeaveAlone(states', trace', FLEET, {"src"}, COPY_KEY, Entry(COPY_STAMP, 0));
    assert states <= early <= states' && trace <= sofar <= trace';
  }

  /** The reconcile of `id` finds its one destination and has nothing to update. */
  lemma LeaveAlone(states: seq<State>, trace: seq<Action>, id: Id, targets: set<string>, k: Key, e: Entry)
    returns (states': seq<State>, trace': seq<Action>)
    requires Behavior(states, trace) && Known(End(states), id) && End(states).procs[id].pc.Alive?
    requires JobKeys(id, End(states).procs[id].pc.cr, targets) == {k} && InLog(End(states), k, e)
    ensures Behavior(states', trace') && states <= states' && trace <= trace'
    ensures var s := End(states); var cr := s.procs[id].pc.cr;
            End(states') == s.(procs := s.procs[id := s.procs[id].(pc := Writing(cr, BLANK, map[k := Done]))])
  {
    states', trace' := LookUp(states, trace, id, BLANK, targets, k, Some(e));
    states', trace' := Extend(states', trace', EndJob(id, k));
    assert map[k := Seen(Some(e))][k := Done] == map[k := Done];
  }

  /** A Projection whose source is a destination of a ClusterProjection produces a co-owned object, and the
      ClusterProjection's next stale sweep deletes it although the Projection owns it. */
  lemma ChainedProjectionLosesItsCopy() returns (states: seq<State>, trace: seq<Action>, i: nat)
    ensures Behavior(states, trace) && i < |trace|
    ensures COPY_KEY in states[i].store && OwnedBy(states[i].store[COPY_KEY].stamp, FLEET)
    ensures trace[i] == FetchSource(TEAM, states[i].store[COPY_KEY].stamp, {})
    ensures trace[|trace| - 1] == Delete(FLEET, OLD_KEY, true)
    ensures var before := states[|trace| - 1].store;
            OLD_KEY in before && CoOwned(before[OLD_KEY].stamp) && OwnedBy(before[OLD_KEY].stamp, TEAM)
    ensures OLD_KEY !in End(states).store
  {
    states, trace, i := TeamChains();
    var chained, sofar := states, trace;
    states, trace := FleetKeeps(states, trace);
    assert states[i] == chained[i] && trace[i] == sofar[i];
    assert OLD_KEY in End(states).store && End(states).store[OLD_KEY].stamp == CHAINED;
    states, trace := TakeAway(states, trace, StaleSweep(FLEET), OLD_KEY);
  }

  /** The other way round: a ClusterProjection whose source is a Projection's destination produces a copy with the
      Projection's marks, and when the Projection's own source is gone its 404 sweep deletes the ClusterProjection's
      copy. */
  lemma ReverseChainLosesItsCopy() returns (states: seq<State>, trace: seq<Action>, i: nat)
    ensures Behavior(states, trace) && i < |trace|
    ensures OLD_KEY in states[i].store && OwnedBy(states[i].store[OLD_KEY].stamp, TEAM)
    ensures trace[i] == FetchSource(FLEET, states[i].store[OLD_KEY].stamp, {"src"})
    ensures |trace| > 1 && trace[|trace| - 2] == SourceGone(TEAM) && trace[|trace| - 1] == Delete(TEAM, COPY_KEY, true)
    ensures var before := states[|trace| - 1].store;
            COPY_KEY in before && CoOwned(before[COPY_KEY].stamp) && OwnedBy(before[COPY_KEY].stamp, FLEET)
    ensures COPY_KEY !in End(states).store
  {
    states, trace, i := FleetChains();
    var chained, sofar := states, trace;
    states, trace := Resume(states, trace, TEAM);
    assert states[i] == chained[i] && trace[i] == sofar[i];
    assert End(states).store[COPY_KEY].stamp == REVERSED;
    var early, upto := states, trace;
    states, trace := TakeAway(states, trace, SourceGone(TEAM), COPY_KEY);
    assert states[i] == early[i] && trace[i] == upto[i];
  }

  const REVERSED := StampFor(FLEET, "u2", TEAM_STAMP)

  lemma FleetChains() returns (states: seq<State>, trace: seq<Action>, i: nat)
    ensures Behavior(states, trace) && i < |trace|
    ensures OLD_KEY in states[i].store && OwnedBy(states[i].store[OLD_KEY].stamp, TEAM)
    ensures trace[i] == FetchSource(FLEET, states[i].store[OLD_KEY].stamp, {"src"})
    ensures var s := End(states);
            && Known(s, TEAM) && s.procs[TEAM] == Proc(1, Idle) && s.hist[TEAM] == [None, Some(OLD), Some(TEAM_LIVE)]
            && s.store == map[OLD_KEY := Entry(TEAM_STAMP, 0), COPY_KEY := Entry(REVERSED, 1)]
  {
    states, trace := TeamPlaces({TEAM, FLEET});
    states, trace := Adopt(states, trace, FLEET, FLEET_CR);
    i := |trace|;
    var before := states;
    assert End(states).store == map[OLD_KEY := Entry(TEAM_STAMP, 0)];
    states, trace := Place(states, trace, FLEET, TEAM_STAMP, {"src"}, COPY_KEY);
    assert states[i] == before[i] == End(before);
  }

  // ----- When a sweep takes what somebody else owns -----

  /** Every sweep of either tier: the stale sweep, after a 404, after a veto, and for the finalizer. */
  predicate StartsSweep(a: Action)
  {
    a.StaleSweep? || a.SourceGone? || a.SourceVetoed? || a.Cleanup?
  }

  /** The version of the custom resource that a sweep works from. */
  function SweepCr(s: State, a: Action): Cr
    requires Enabled(s, a) && StartsSweep(a)
  {
    if a.Cleanup? then LoadedCr(s, a.id).value else s.procs[a.id].pc.cr
  }

  /** What a sweep that starts now takes: always an object of the kind whose annotation names the sweeper. A
      Projection's veto and finalizer look at its coordinates only and at no label; the other sweeps need the UID
      label, and the stale sweep spares the namespaces it has just written to. */
  predicate Takes(s: State, a: Action, k: Key)
    requires Enabled(s, a) && StartsSweep(a) && k in s.store
  {
    var cr := SweepCr(s, a);
    && OwnedBy(s.store[k].stamp, a.id) && k.kind == cr.kind
    && if a.id.Namespaced? && !a.SourceGone? then k == Coords(a.id, cr)
       else
         && UidLabel(s.store[k].stamp, a.id) == Some(cr.uid)
         && (a.StaleSweep? ==> forall j | j in s.procs[a.id].pc.jobs :: j.ns != k.ns)
  }

  lemma TakeAway(states: seq<State>, trace: seq<Action>, a: Action, k: Key)
    returns (states': seq<State>, trace': seq<Action>)
    requires Behavior(states, trace) && StartsSweep(a) && Enabled(End(states), a) && k in End(states).store
    requires Takes(End(states), a, k)
    ensures Behavior(states', trace') && trace' == trace + [a, Delete(a.id, k, true)]
    ensures states <= states' && states'[|trace'| - 1].store == End(states).store
    ensures End(states').store == End(states).store - {k}
  {
    states', trace' := Extend(states, trace, a);
    SweepStarts(End(states), a, k);
    states', trace' := Extend(states', trace', Delete(a.id, k, true));
  }

  lemma SweepStarts(s: State, a: Action, k: Key)
    requires StartsSweep(a) && Enabled(s, a) && k in s.store
    ensures var s' := Apply(s, a);
            s'.store == s.store && Known(s', a.id) && s'.procs[a.id].pc.Sweeping? &&
            (k in s'.procs[a.id].pc.todo <==> Takes(s, a, k))
  {
    if a.StaleSweep? {
      var jobs := s.procs[a.id].pc.jobs;
      assert k.ns in (set j | j in jobs :: j.ns) <==> exists j :: j in jobs && j.ns == k.ns;
    }
  }

  ghost predicate CanTake(states: seq<State>, trace: seq<Action>, a: Action, k: Key)
    requires StartsSweep(a)
  {
    exists states' :: Behavior(states', trace + [a, Delete(a.id, k, true)]) && states <= states'
  }

  /** In any run, with users and stale reads, and for every sweep of either tier: an object that another CR owns can be
      swept by `a.id` if and only if `Takes` says so. The object is then co-owned, which no controlled run produces. */
  lemma SweepTakesForeignExactly(states: seq<State>, trace: seq<Action>, a: Action, other: Id, k: Key)
    requires Behavior(states, trace) && StartsSweep(a) && Enabled(End(states), a)
    requires ValidId(a.id) && ValidId(other) && other != a.id
    requires k in End(states).store && OwnedBy(End(states).store[k].stamp, other)
    ensures CanTake(states, trace, a, k) <==> Takes(End(states), a, k)
    ensures CanTake(states, trace, a, k) ==> CoOwned(End(states).store[k].stamp) && !ControlledBehavior(states, trace)
  {
    if Takes(End(states), a, k) {
      var states', trace' := TakeAway(states, trace, a, k);
    }
    if CanTake(states, trace, a, k) {
      var states' :| Behavior(states', trace + [a, Delete(a.id, k, true)]) && states <= states';
      TakenMeans(states, trace, states', a, k);
      if !CoOwned(End(states).store[k].stamp) {
        UniqueOwner(End(states).store[k].stamp, a.id, other);
      }
      if ControlledBehavior(states, trace) {
        SafeAlways(states, trace, |trace|);
      }
    }
  }

  lemma TakenMeans(states: seq<State>, trace: seq<Action>, states': seq<State>, a: Action, k: Key)
    requires Behavior(states, trace) && StartsSweep(a) && Enabled(End(states), a) && k in End(states).store
    requires states <= states' && Behavior(states', trace + [a, Delete(a.id, k, true)])
    ensures Takes(End(states), a, k)
  {
    var n := |trace|;
    var trace' := trace + [a, Delete(a.id, k, true)];
    assert trace'[n] == a && trace'[n + 1] == Delete(a.id, k, true);
    assert Step(states'[n], trace'[n], states'[n + 1]) && Step(states'[n + 1], trace'[n + 1], states'[n + 2]);
    assert states'[n] == End(states);
    SweepStarts(End(states), a, k);
  }

  /** In a controlled run no Delete takes an object that somebody else owns. */
  lemma DeletesSpareOthers(states: seq<State>, trace: seq<Action>, n: nat, other: Id)
    requires ControlledBehavior(states, trace) && n < |trace| && trace[n].Delete? && ValidId(other)
    requires trace[n].key in states[n].store && OwnedBy(states[n].store[trace[n].key].stamp, other)
    ensures other == trace[n].id
  {
    DeletesHitOwn(states, trace, n);
    SafeAlways(states, trace, n);
    assert Step(states[n], trace[n], states[n + 1]);
    EffectsKnown(states[n], trace[n]);
    OneOwner(states, trace, n, trace[n].key, other, trace[n].id);
  }
}
