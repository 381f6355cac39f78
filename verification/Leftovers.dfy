/** What a deleted custom resource leaves behind, exactly, in every run: no hypothesis on edits of its kind or name, nor
    on the kind being resolvable. */
module Leftovers {
  import opened Wrappers
  import opened Types
  import opened Protocol
  import opened Safety
  import opened Orphans

  predicate Owned(s: State, id: Id, k: Key)
  {
    k in s.store && OwnedBy(s.store[k].stamp, id)
  }

  /** The deletion path gets under way: a sweep, or straight to the finalizer if the kind does not resolve. */
  predicate Starts(a: Action, id: Id)
  {
    a == Cleanup(id) || a == SkipCleanup(id)
  }

  /** The object is one the deletion path that starts with `a` will delete: for a Projection the one at the
      coordinates, for a ClusterProjection every one with the kind and the UID label, of the version of the custom
      resource that was read. */
  predicate Reached(s: State, a: Action, k: Key)
    requires Enabled(s, a) && (a.Cleanup? || a.SkipCleanup?) && k in s.store
  {
    a.Cleanup? &&
    var cr := LoadedCr(s, a.id).value;
    if a.id.Namespaced? then k == Coords(a.id, cr)
    else k.kind == cr.kind && UidLabel(s.store[k].stamp, a.id) == Some(cr.uid)
  }

  function Covered(s: State, a: Action): set<Key>
    requires Enabled(s, a) && (a.Cleanup? || a.SkipCleanup?)
  {
    if a.SkipCleanup? then {}
    else Collect(s.store, a.id, LoadedCr(s, a.id).value, if a.id.Namespaced? then One else All)
  }

  lemma CoveredMeans(s: State, a: Action, k: Key)
    requires Enabled(s, a) && (a.Cleanup? || a.SkipCleanup?) && Owned(s, a.id, k)
    ensures k in Covered(s, a) <==> Reached(s, a, k)
  {
  }

  // ----- From the start of the deletion path to the finalizer -----

  /** The reconcile is on its way to removing the finalizer. */
  predicate OnTheWay(pc: Pc)
  {
    pc.Finalizing? || (pc.Sweeping? && pc.clean && pc.after.Finalize?)
  }

  function Todo(pc: Pc): set<Key>
  {
    if pc.Sweeping? then pc.todo else {}
  }

  /** While it is, it owns what it owned at the start, less what the sweep has deleted so far. */
  ghost predicate Tracked(start: State, covered: set<Key>, s: State, id: Id)
  {
    Known(s, id) && (OnTheWay(s.procs[id].pc) ==> Remaining(start, covered, s, id, Todo(s.procs[id].pc)))
  }

  ghost predicate Remaining(start: State, covered: set<Key>, s: State, id: Id, todo: set<Key>)
  {
    todo <= covered && forall k :: Owned(s, id, k) <==> Owned(start, id, k) && (k !in covered || k in todo)
  }

  lemma TrackedStart(s: State, a: Action, s': State, id: Id)
    requires Step(s, a, s') && Starts(a, id)
    ensures Tracked(s, Covered(s, a), s', id)
  {
  }

  /** Nobody else gives to `id` or takes from it. */
  lemma OwnedApart(s: State, a: Action, s': State, id: Id)
    requires Safe(s) && Step(s, a, s') && Controlled(a) && Known(s, id) && id != a.id
    ensures forall k :: Owned(s', id, k) <==> Owned(s, id, k)
  {
    StoreApart(s, a, s', id);
    forall k | Owned(s, id, k) ensures Owned(s', id, k) {
      KeptByOthers(s, a, s', id, k);
    }
  }

  lemma KeptByOthers(s: State, a: Action, s': State, id: Id, k: Key)
    requires Safe(s) && Step(s, a, s') && Controlled(a) && Known(s, id) && id != a.id && Owned(s, id, k)
    ensures Owned(s', id, k)
  {
    if a.Delete? {
      DeleteStep(s, a, s');
      SafeDelete(s, a, s');
      if a.key == k {
        UniqueOwner(s.store[k].stamp, id, a.id);
      }
    } else {
      StaysPut(s, a, s', k);
      OwnerKeptByStep(s, a, s', k, id);
    }
  }

  lemma StaysPut(s: State, a: Action, s': State, k: Key)
    requires Safe(s) && Step(s, a, s') && !IsUser(a) && !a.Delete? && k in s.store
    ensures k in s'.store
  {
    if IsWrite(a) {
      WriteStep(s, a, s');
    } else {
      QuietStep(s, a, s');
    }
  }

  /** The own steps that keep a reconcile on its way are a successful Delete and the end of the sweep; steps on the
      custom resource itself do not move it. */
  lemma OwnWay(s: State, a: Action, s': State)
    requires Step(s, a, s') && !IsUser(a) && !a.Cleanup? && !a.SkipCleanup? && Known(s, a.id) && Known(s', a.id)
    requires OnTheWay(s'.procs[a.id].pc)
    ensures OnTheWay(s.procs[a.id].pc)
    ensures a.Delete? || (s'.store == s.store && Todo(s'.procs[a.id].pc) == Todo(s.procs[a.id].pc))
  {
  }

  lemma TrackedDelete(start: State, covered: set<Key>, s: State, a: Action, s': State)
    requires Step(s, a, s') && a.Delete? && Tracked(start, covered, s, a.id) && Known(s', a.id)
    requires OnTheWay(s.procs[a.id].pc)
    ensures Tracked(start, covered, s', a.id)
  {
    DeleteStep(s, a, s');
    var todo := Todo(s.procs[a.id].pc);
    forall k ensures Owned(s', a.id, k) <==> Owned(start, a.id, k) && (k !in covered || k in todo - {a.key}) {
      assert Owned(s, a.id, k) <==> Owned(start, a.id, k) && (k !in covered || k in todo);
    }
  }

  lemma TrackedOwn(start: State, covered: set<Key>, s: State, a: Action, s': State)
    requires Step(s, a, s') && !IsUser(a) && !Starts(a, a.id) && Tracked(start, covered, s, a.id) && Known(s', a.id)
    ensures Tracked(start, covered, s', a.id)
  {
    if OnTheWay(s'.procs[a.id].pc) {
      OwnWay(s, a, s');
      if a.Delete? {
        TrackedDelete(start, covered, s, a, s');
      }
    }
  }

  lemma TrackedApart(start: State, covered: set<Key>, s: State, s': State, id: Id)
    requires Tracked(start, covered, s, id) && Known(s', id) && s'.procs[id] == s.procs[id]
    requires forall k :: Owned(s', id, k) <==> Owned(s, id, k)
    ensures Tracked(start, covered, s', id)
  {
  }

  lemma TrackedStep(start: State, covered: set<Key>, s: State, a: Action, s': State, id: Id)
    requires Safe(s) && Step(s, a, s') && Controlled(a) && !Starts(a, id) && Tracked(start, covered, s, id)
    ensures Tracked(start, covered, s', id)
  {
    StillKnown(s, a, s', id);
    if id != a.id {
      StepApart(s, a, s', id);
      OwnedApart(s, a, s', id);
      TrackedApart(start, covered, s, s', id);
    } else {
      TrackedOwn(start, covered, s, a, s');
    }
  }

  lemma StillKnown(s: State, a: Action, s': State, id: Id)
    requires Safe(s) && Step(s, a, s')
    ensures Known(s', id) <==> Known(s, id)
  {
    EffectsKnown(s, a);
    KnownCommit(s, Effects(s, a));
  }

  lemma {:induction false} TrackedRun(states: seq<State>, trace: seq<Action>, m: nat, n: nat, id: Id)
    requires ControlledBehavior(states, trace) && m < n <= |trace| && Starts(trace[m], id)
    requires forall i :: m < i < n ==> !Starts(trace[i], id)
    ensures Enabled(states[m], trace[m]) && Tracked(states[m], Covered(states[m], trace[m]), states[n], id)
    decreases n
  {
    assert Step(states[m], trace[m], states[m + 1]);
    if n == m + 1 {
      TrackedStart(states[m], trace[m], states[n], id);
    } else {
      TrackedRun(states, trace, m, n - 1, id);
      SafeAlways(states, trace, n - 1);
      assert Step(states[n - 1], trace[n - 1], states[n]) && Controlled(trace[n - 1]);
      TrackedStep(states[m], Covered(states[m], trace[m]), states[n - 1], trace[n - 1], states[n], id);
    }
  }

  /** A reconcile on its way has started: the last start is the one that counts. */
  lemma {:induction false} LastStart(states: seq<State>, trace: seq<Action>, n: nat, id: Id) returns (m: nat)
    requires ControlledBehavior(states, trace) && n <= |trace| && Known(states[n], id)
    requires OnTheWay(states[n].procs[id].pc)
    ensures m < n && Starts(trace[m], id) && forall i :: m < i < n ==> !Starts(trace[i], id)
    decreases n
  {
    NotAtStart(states, trace, n, id);
    if Starts(trace[n - 1], id) {
      m := n - 1;
    } else {
      SafeAlways(states, trace, n - 1);
      WayBack(states[n - 1], trace[n - 1], states[n], id);
      m := LastStart(states, trace, n - 1, id);
    }
  }

  lemma NotAtStart(states: seq<State>, trace: seq<Action>, n: nat, id: Id)
    requires ControlledBehavior(states, trace) && n <= |trace| && Known(states[n], id)
    requires OnTheWay(states[n].procs[id].pc)
    ensures n > 0 && Step(states[n - 1], trace[n - 1], states[n]) && Controlled(trace[n - 1])
  {
  }

  lemma WayBack(s: State, a: Action, s': State, id: Id)
    requires Safe(s) && Step(s, a, s') && Controlled(a) && !Starts(a, id)
    requires Known(s', id) && OnTheWay(s'.procs[id].pc)
    ensures Known(s, id) && OnTheWay(s.procs[id].pc)
  {
    StillKnown(s, a, s', id);
    if id != a.id {
      StepApart(s, a, s', id);
    } else {
      OwnWay(s, a, s');
    }
  }

  /** In every controlled run, whatever was edited and however the deletion went: each removal of the finalizer follows
      a start of the deletion path, and an object is still owned after the removal if and only if it was owned at that
      start and was not within its reach. */
  lemma LeftBehindExactly(states: seq<State>, trace: seq<Action>, n: nat, id: Id) returns (m: nat)
    requires ControlledBehavior(states, trace) && n < |trace| && trace[n] == RemoveFinalizer(id)
    ensures m < n && Starts(trace[m], id) && Enabled(states[m], trace[m])
    ensures Known(states[n + 1], id) && Current(states[n + 1], id).None?
    ensures forall k :: Owned(states[n + 1], id, k) <==> Owned(states[m], id, k) && !Reached(states[m], trace[m], k)
  {
    assert Step(states[n], trace[n], states[n + 1]);
    m := LastStart(states, trace, n, id);
    TrackedRun(states, trace, m, n, id);
    Removed(states[n], states[n + 1], id);
    forall k ensures Owned(states[n + 1], id, k) <==> Owned(states[m], id, k) && !Reached(states[m], trace[m], k) {
      if Owned(states[m], id, k) {
        CoveredMeans(states[m], trace[m], k);
      }
    }
  }

  lemma Removed(s: State, s': State, id: Id)
    requires Step(s, RemoveFinalizer(id), s')
    ensures Known(s', id) && Current(s', id).None? && s'.store == s.store && s.procs[id].pc.Finalizing?
  {
  }
}
