/** No orphans: over whole runs with failures after any step, a custom resource that is gone has left no object
    behind. The finalizer handshake is what makes it so. */
module Orphans {
  import opened Wrappers
  import opened Types
  import opened Protocol
  import opened Safety

  type History = h: seq<Option<Cr>> | h != [] witness [None]

  function Last(h: History): Option<Cr>
  {
    h[|h| - 1]
  }

  /** What must stay fixed while a CR lives: the kind, and for a Projection also the destination name. */
  predicate SameTarget(id: Id, a: Cr, b: Cr)
  {
    a.kind == b.kind && (id.Namespaced? ==> a.destName == b.destName)
  }

  /** The steps under which the guarantee holds: the source kind always resolves in the deletion path, and an
      edit keeps the kind (and, for a Projection, the destination name). */
  ghost predicate Settled(s: State, a: Action)
  {
    && !a.SkipCleanup?
    && (a.EditCr? && Known(s, a.id) && Current(s, a.id).Some? ==>
          SameTarget(a.id, Current(s, a.id).value, Current(s, a.id).value.(kind := a.kind, destName := a.destName)))
  }

  /** A controlled run that starts before any of its CRs exists, in a store that none of them owns a part of. */
  ghost predicate SettledBehavior(states: seq<State>, trace: seq<Action>)
  {
    && ControlledBehavior(states, trace)
    && (forall id | id in states[0].hist :: states[0].hist[id] == [None])
    && (forall id, k | id in states[0].procs && k in states[0].store :: !OwnedBy(states[0].store[k].stamp, id))
    && forall n :: 0 <= n < |trace| ==> Settled(states[n], trace[n])
  }

  // ----- The invariant of one CR -----

  /** Versions with one UID are one incarnation, and an incarnation keeps its target. */
  ghost predicate KindsFixed(id: Id, h: History, uids: set<string>)
  {
    && (forall i :: 0 <= i < |h| && h[i].Some? ==> h[i].value.uid in uids)
    && (forall i, j :: 0 <= i < |h| && 0 <= j < |h| && h[i].Some? && h[j].Some? && h[i].value.uid == h[j].value.uid ==>
          SameTarget(id, h[i].value, h[j].value))
  }

  /** Once the controller may read a live version with the finalizer, the finalizer stays on that incarnation:
      only this CR's own reconcile removes it, and only after reading a deleting version. */
  ghost predicate Held(h: History, seen: nat)
  {
    forall i, j :: seen <= i <= j < |h| && h[i].Some? && h[i].value.finalizer && !h[i].value.deleting ==>
      h[j].Some? && h[j].value.uid == h[i].value.uid && h[j].value.finalizer
  }

  predicate AliveOk(id: Id, h: History, cr: Cr)
  {
    Last(h).Some? && Last(h).value.uid == cr.uid && Last(h).value.finalizer && SameTarget(id, Last(h).value, cr)
  }

  predicate JobsAt(id: Id, cr: Cr, jobs: map<Key, Job>)
  {
    forall k | k in jobs :: k.kind == cr.kind && (id.Namespaced? ==> k == Coords(id, cr))
  }

  predicate DeletingAt(h: History, seen: nat, i: nat)
  {
    i == seen && i < |h| && h[i].Some? && h[i].value.deleting
  }

  predicate OwnedWithin(store: map<Key, Entry>, id: Id, todo: set<Key>)
  {
    forall k | k in store && OwnedBy(store[k].stamp, id) :: k in todo
  }

  predicate PcOk(store: map<Key, Entry>, id: Id, h: History, seen: nat, pc: Pc)
  {
    match pc
    case Idle => true
    case Loaded(i) => i == seen && i < |h| && h[i].Some?
    case Alive(cr) => AliveOk(id, h, cr)
    case Writing(cr, _, jobs) => AliveOk(id, h, cr) && JobsAt(id, cr, jobs)
    case Sweeping(cr, todo, clean, after) =>
      after.Finalize? ==>
        DeletingAt(h, seen, after.i) && (clean && after.i == |h| - 1 ==> OwnedWithin(store, id, todo))
    case Finalizing(i) =>
      DeletingAt(h, seen, i) && (i == |h| - 1 ==> OwnedWithin(store, id, {}))
  }

  /** An owned object has a live owner that still carries its finalizer and would find the object. */
  predicate Attended(id: Id, h: History, key: Key, stamp: Stamp)
  {
    && Last(h).Some?
    && Last(h).value.finalizer
    && UidLabel(stamp, id) == Some(Last(h).value.uid)
    && key.kind == Last(h).value.kind
    && (id.Namespaced? ==> key == Coords(id, Last(h).value))
  }

  ghost predicate AllAttended(store: map<Key, Entry>, id: Id, h: History)
  {
    forall k | k in store && OwnedBy(store[k].stamp, id) :: Attended(id, h, k, store[k].stamp)
  }

  ghost predicate Linked(store: map<Key, Entry>, uids: set<string>, id: Id, h: History, p: Proc)
  {
    && KindsFixed(id, h, uids)
    && Held(h, p.seen)
    && PcOk(store, id, h, p.seen, p.pc)
    && AllAttended(store, id, h)
  }

  ghost predicate LinkedFor(s: State, id: Id)
  {
    Known(s, id) && Linked(s.store, s.uids, id, s.hist[id], s.procs[id])
  }

  ghost predicate LinkedState(s: State)
  {
    forall id | id in s.procs :: LinkedFor(s, id)
  }

  // ----- Steps of others -----

  /** Another actor's step: this CR's history and reconcile stand still, and no object becomes this CR's. */
  lemma LinkedApart(store: map<Key, Entry>, store': map<Key, Entry>, uids: set<string>, uids': set<string>, id: Id,
                    h: History, p: Proc)
    requires Linked(store, uids, id, h, p) && uids <= uids'
    requires forall k | k in store' && OwnedBy(store'[k].stamp, id) :: k in store && store[k].stamp == store'[k].stamp
    ensures Linked(store', uids', id, h, p)
  {
  }

  // ----- New versions of the CR -----

  lemma KindsAppend(id: Id, h: History, uids: set<string>, cr: Cr)
    requires KindsFixed(id, h, uids)
    requires cr.uid !in uids || (Last(h).Some? && Last(h).value.uid == cr.uid && SameTarget(id, Last(h).value, cr))
    ensures KindsFixed(id, h + [Some(cr)], uids + {cr.uid})
  {
    var h' := h + [Some(cr)];
    forall i, j | 0 <= i < |h'| && 0 <= j < |h'| && h'[i].Some? && h'[j].Some? && h'[i].value.uid == h'[j].value.uid
      ensures SameTarget(id, h'[i].value, h'[j].value)
    {
      var i' := if i < |h| then i else |h| - 1;
      var j' := if j < |h| then j else |h| - 1;
      if Last(h).Some? && Last(h).value.uid == cr.uid {
        assert SameTarget(id, h[i'].value, h[j'].value);
      }
    }
  }

  /** The next version of the same incarnation, finalizer kept: an edit, a deletion request, a status update. */
  lemma LinkedNextVersion(store: map<Key, Entry>, uids: set<string>, id: Id, h: History, p: Proc, cr: Cr)
    requires Linked(store, uids, id, h, p)
    requires Last(h).Some? && cr.uid == Last(h).value.uid && SameTarget(id, Last(h).value, cr)
    requires cr.finalizer == Last(h).value.finalizer
    ensures Linked(store, uids + {cr.uid}, id, h + [Some(cr)], p)
  {
    KindsAppend(id, h, uids, cr);
    assert Last(h + [Some(cr)]) == Some(cr);
    HeldAppend(h, p.seen, cr);
  }

  lemma HeldAppend(h: History, seen: nat, cr: Cr)
    requires Held(h, seen)
    requires Last(h).Some? ==> cr.uid == Last(h).value.uid && (Last(h).value.finalizer ==> cr.finalizer)
    ensures Held(h + [Some(cr)], seen)
  {
    var h' := h + [Some(cr)];
    forall i, j | seen <= i <= j < |h'| && h'[i].Some? && h'[i].value.finalizer && !h'[i].value.deleting
      ensures h'[j].Some? && h'[j].value.uid == h'[i].value.uid && h'[j].value.finalizer
    {
      if i < |h| {
        assert h[|h| - 1].Some?;
      }
    }
  }

  /** The CR vanishes: allowed only when nothing is owned and no live version may still be read. */
  lemma LinkedVanish(store: map<Key, Entry>, uids: set<string>, id: Id, h: History, p: Proc, pc': Pc)
    requires Linked(store, uids, id, h, p)
    requires OwnedWithin(store, id, {})
    requires Last(h).Some? && (!Last(h).value.finalizer || (p.seen == |h| - 1 && Last(h).value.deleting))
    requires pc'.Idle? || (pc' == p.pc && !p.pc.Alive? && !p.pc.Writing?)
    ensures Linked(store, uids, id, h + [None], Proc(p.seen, pc'))
  {
    NothingHeld(h, p.seen);
  }

  lemma NothingHeld(h: History, seen: nat)
    requires Held(h, seen)
    requires Last(h).Some? ==> !Last(h).value.finalizer || (seen == |h| - 1 && Last(h).value.deleting)
    ensures forall i :: seen <= i < |h| && h[i].Some? ==> !h[i].value.finalizer || h[i].value.deleting
  {
    forall i | seen <= i < |h| && h[i].Some? ensures !h[i].value.finalizer || h[i].value.deleting {
      assert h[|h| - 1] == Last(h);
    }
  }

  // ----- One step -----

  lemma LinkedCrStep(s: State, a: Action, s': State)
    requires LinkedState(s) && Safe(s) && Step(s, a, s') && Settled(s, a)
    requires a.CreateCr? || a.EditCr? || a.DeleteCr? || a.UpdateStatus?
    ensures LinkedFor(s', a.id)
  {
    var h := s.hist[a.id];
    var p := s.procs[a.id];
    assert LinkedFor(s, a.id);
    if a.CreateCr? {
      KindsAppend(a.id, h, s.uids, a.cr);
      HeldAppend(h, p.seen, a.cr);
    } else if a.DeleteCr? && !Last(h).value.finalizer {
      LinkedVanish(s.store, s.uids, a.id, h, p, p.pc);
    } else {
      NextVersion(s, a, s');
      LinkedNextVersion(s.store, s.uids, a.id, h, p, Last(s'.hist[a.id]).value);
    }
  }

  /** An edit, a status update or a deletion request adds a version of the same incarnation and does nothing else. */
  lemma NextVersion(s: State, a: Action, s': State)
    requires Step(s, a, s') && Settled(s, a) && (a.EditCr? || a.UpdateStatus? || a.DeleteCr?)
    requires a.DeleteCr? ==> Last(s.hist[a.id]).value.finalizer
    ensures Known(s, a.id) && Last(s.hist[a.id]).Some? && s'.store == s.store && s'.procs == s.procs
    ensures a.id in s'.hist && s'.hist[a.id] != [] && Last(s'.hist[a.id]).Some?
    ensures var cr := Last(s'.hist[a.id]).value;
            && s'.hist[a.id] == s.hist[a.id] + [Some(cr)] && s'.uids == s.uids + {cr.uid}
            && cr.uid == Last(s.hist[a.id]).value.uid && SameTarget(a.id, Last(s.hist[a.id]).value, cr)
            && cr.finalizer == Last(s.hist[a.id]).value.finalizer
  {
  }

  lemma LinkedRead(s: State, a: Action, s': State)
    requires LinkedState(s) && Safe(s) && Step(s, a, s') && (a.ReadCr? || a.Return?)
    ensures LinkedFor(s', a.id)
  {
    assert LinkedFor(s, a.id);
  }

  lemma LinkedEnsure(s: State, a: Action, s': State)
    requires LinkedState(s) && Safe(s) && Step(s, a, s') && a.EnsureFinalizer?
    ensures LinkedFor(s', a.id)
  {
    var h := s.hist[a.id];
    var p := s.procs[a.id];
    assert LinkedFor(s, a.id);
    var cr := h[p.pc.i].value;
    if !cr.finalizer {
      KindsAppend(a.id, h, s.uids, cr.(finalizer := true));
      HeldAppend(h, p.seen, cr.(finalizer := true));
    } else {
      assert h[|h| - 1].Some?;
    }
  }

  lemma LinkedFinalize(s: State, a: Action, s': State)
    requires LinkedState(s) && Safe(s) && Step(s, a, s') && a.RemoveFinalizer?
    ensures LinkedFor(s', a.id)
  {
    var h := s.hist[a.id];
    var p := s.procs[a.id];
    assert LinkedFor(s, a.id);
    LinkedVanish(s.store, s.uids, a.id, h, p, Idle);
  }

  /** A sweep of the current deleting version finds everything the CR owns. */
  lemma CollectFindsAll(store: map<Key, Entry>, id: Id, h: History, cr: Cr, mode: Mode)
    requires AllAttended(store, id, h) && Last(h) == Some(cr)
    requires mode == (if id.Namespaced? then One else All)
    ensures OwnedWithin(store, id, Collect(store, id, cr, mode))
  {
    forall k | k in store && OwnedBy(store[k].stamp, id) ensures k in Collect(store, id, cr, mode) {
      assert Attended(id, h, k, store[k].stamp);
    }
  }

  lemma LinkedCleanup(s: State, a: Action, s': State)
    requires LinkedState(s) && Safe(s) && Step(s, a, s') && a.Cleanup?
    ensures LinkedFor(s', a.id)
  {
    var h := s.hist[a.id];
    var p := s.procs[a.id];
    assert LinkedFor(s, a.id);
    if p.pc.i == |h| - 1 {
      CollectFindsAll(s.store, a.id, h, h[p.pc.i].value, if a.id.Namespaced? then One else All);
    }
  }

  predicate IsMidway(a: Action)
  {
    a.SourceGone? || a.SourceVetoed? || a.StaleSweep? || a.EndSweep? || a.DeleteFails? ||
    a.FetchSource? || a.GetDest? || a.EndJob?
  }

  /** The steps inside a reconcile that change neither store nor CR keep its program point consistent. */
  lemma MidwayPc(s: State, a: Action)
    requires IsMidway(a) && LinkedFor(s, a.id) && Enabled(s, a)
    ensures Effects(s, a) == Move(s, a.id, Effects(s, a).jump.pc)
    ensures PcOk(s.store, a.id, s.hist[a.id], s.procs[a.id].seen, Effects(s, a).jump.pc)
  {
  }

  lemma LinkedJump(s: State, id: Id, pc: Pc)
    requires LinkedFor(s, id) && PcOk(s.store, id, s.hist[id], s.procs[id].seen, pc)
    ensures LinkedFor(Commit(s, Move(s, id, pc)), id)
  {
  }

  lemma LinkedMidway(s: State, a: Action, s': State)
    requires LinkedState(s) && Safe(s) && Step(s, a, s') && IsMidway(a)
    ensures LinkedFor(s', a.id)
  {
    assert LinkedFor(s, a.id);
    MidwayPc(s, a);
    LinkedJump(s, a.id, Effects(s, a).jump.pc);
  }

  lemma LinkedDelete(s: State, a: Action, s': State)
    requires LinkedState(s) && Safe(s) && Step(s, a, s') && a.Delete?
    ensures LinkedFor(s', a.id)
  {
    assert LinkedFor(s, a.id);
    DeleteStep(s, a, s');
  }

  lemma LinkedWrite(s: State, a: Action, s': State)
    requires LinkedState(s) && Safe(s) && Step(s, a, s') && IsWrite(a)
    ensures LinkedFor(s', a.id)
  {
    assert LinkedFor(s, a.id);
    WriteStep(s, a, s');
    assert s'.hist == s.hist && s'.uids == s.uids;
    var pc := s.procs[a.id].pc;
    WriteAttended(s.store, a.id, s.hist[a.id], pc, a.key, s'.store[a.key]);
    assert s'.store == s.store[a.key := s'.store[a.key]];
  }

  /** The object a reconcile writes is one that its CR's cleanup will find. */
  lemma WriteAttended(store: map<Key, Entry>, id: Id, h: History, pc: Pc, key: Key, e: Entry)
    requires AllAttended(store, id, h) && pc.Writing? && AliveOk(id, h, pc.cr) && JobsAt(id, pc.cr, pc.jobs)
    requires key in pc.jobs
    requires e.stamp == StampFor(id, pc.cr.uid, pc.carried)
    ensures AllAttended(store[key := e], id, h)
  {
  }

  lemma LinkedOwn(s: State, a: Action, s': State)
    requires LinkedState(s) && Safe(s) && Step(s, a, s') && Controlled(a) && Settled(s, a)
    ensures LinkedFor(s', a.id)
  {
    if a.CreateCr? || a.EditCr? || a.DeleteCr? || a.UpdateStatus? {
      LinkedCrStep(s, a, s');
    } else if a.ReadCr? || a.Return? {
      LinkedRead(s, a, s');
    } else if a.EnsureFinalizer? {
      LinkedEnsure(s, a, s');
    } else if a.RemoveFinalizer? {
      LinkedFinalize(s, a, s');
    } else if a.Cleanup? {
      LinkedCleanup(s, a, s');
    } else if a.Delete? {
      LinkedDelete(s, a, s');
    } else if IsWrite(a) {
      LinkedWrite(s, a, s');
    } else {
      LinkedMidway(s, a, s');
    }
  }

  /** What a step may do to the rest of the system: others' CRs and reconciles stand still, and no object is
      handed to anyone but the actor. */
  lemma StepApart(s: State, a: Action, s': State, id: Id)
    requires Safe(s) && Step(s, a, s') && Controlled(a) && Known(s, id) && id != a.id
    ensures Known(s', id) && s'.hist[id] == s.hist[id] && s'.procs[id] == s.procs[id] && s.uids <= s'.uids
  {
    EffectsKnown(s, a);
    CommitApart(s, Effects(s, a), a.id, id);
  }

  lemma CommitApart(s: State, e: Effect, actor: Id, id: Id)
    requires Known(s, id) && id != actor
    requires e.version.NewVersion? ==> e.version.of == actor && actor in s.hist
    requires e.jump.Goto? ==> e.jump.proc == actor
    ensures var s' := Commit(s, e);
            Known(s', id) && s'.hist[id] == s.hist[id] && s'.procs[id] == s.procs[id] && s.uids <= s'.uids
  {
  }

  lemma StoreApart(s: State, a: Action, s': State, id: Id)
    requires Safe(s) && Step(s, a, s') && Controlled(a) && Known(s, id) && id != a.id
    ensures forall k | k in s'.store && OwnedBy(s'.store[k].stamp, id) ::
              k in s.store && s.store[k].stamp == s'.store[k].stamp
  {
    if IsWrite(a) {
      WriteStep(s, a, s');
      SafeWrite(s, a, s');
      var pc := s.procs[a.id].pc;
      assert CleanPc(a.id, pc);
      StampExclusive(a.id, pc.cr.uid, pc.carried);
      if OwnedBy(s'.store[a.key].stamp, id) {
        UniqueOwner(s'.store[a.key].stamp, id, a.id);
      }
    } else if a.Delete? {
      DeleteStep(s, a, s');
    } else {
      QuietStep(s, a, s');
    }
  }

  lemma KeysKept(s: State, a: Action, s': State)
    requires Safe(s) && Step(s, a, s')
    ensures s'.procs.Keys == s.procs.Keys
  {
    EffectsKnown(s, a);
    KnownCommit(s, Effects(s, a));
  }

  lemma LinkedStep(s: State, a: Action, s': State)
    requires LinkedState(s) && Safe(s) && Step(s, a, s') && Controlled(a) && Settled(s, a)
    ensures LinkedState(s')
  {
    SafeStep(s, a, s');
    forall id | id in s'.procs ensures LinkedFor(s', id) {
      if id == a.id {
        LinkedOwn(s, a, s');
      } else {
        KeysKept(s, a, s');
        StepApart(s, a, s', id);
        StoreApart(s, a, s', id);
        LinkedApart(s.store, s'.store, s.uids, s'.uids, id, s.hist[id], s.procs[id]);
      }
    }
  }

  lemma {:induction false} LinkedAlways(states: seq<State>, trace: seq<Action>, n: nat)
    requires SettledBehavior(states, trace) && n <= |trace|
    ensures LinkedState(states[n])
  {
    if n > 0 {
      LinkedAlways(states, trace, n - 1);
      SafeAlways(states, trace, n - 1);
      LinkedStep(states[n - 1], trace[n - 1], states[n]);
    }
  }

  /** Once a Projection or ClusterProjection is gone, no stored object carries its annotation. */
  lemma NoOrphans(states: seq<State>, trace: seq<Action>, n: nat, id: Id, k: Key)
    requires SettledBehavior(states, trace) && n <= |trace|
    requires Known(states[n], id) && Current(states[n], id).None? && k in states[n].store
    ensures !OwnedBy(states[n].store[k].stamp, id)
  {
    LinkedAlways(states, trace, n);
    assert LinkedFor(states[n], id);
  }

  /** While it lives, everything it owns carries its present UID and lies within reach of its own cleanup. */
  lemma OwnedIsReachable(states: seq<State>, trace: seq<Action>, n: nat, id: Id, k: Key)
    requires SettledBehavior(states, trace) && n <= |trace|
    requires Known(states[n], id) && k in states[n].store && OwnedBy(states[n].store[k].stamp, id)
    ensures Current(states[n], id).Some? && Current(states[n], id).value.finalizer
    ensures k in Collect(states[n].store, id, Current(states[n], id).value, if id.Namespaced? then One else All)
  {
    LinkedAlways(states, trace, n);
    var s := states[n];
    assert LinkedFor(s, id);
    CollectFindsAll(s.store, id, s.hist[id], Current(s, id).value, if id.Namespaced? then One else All);
  }
}
