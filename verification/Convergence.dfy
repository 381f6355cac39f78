/** Convergence in the middle of everything: a ClusterProjection's reconcile whose own calls succeed reaches its targets
    whatever other reconciles do between its calls, and whatever happens to its custom resource meanwhile. */
module Convergence {
  import opened Wrappers
  import opened Types
  import opened Protocol
  import opened Safety
  import opened Orphans
  import opened Leftovers

  /** The object carries both marks of this incarnation of `id`. */
  predicate Mine(s: State, id: Id, cr: Cr, k: Key)
  {
    k in s.store && OwnedBy(s.store[k].stamp, id) && UidLabel(s.store[k].stamp, id) == Some(cr.uid)
  }

  /** A step that does not spoil the reconcile of `id`: a step of somebody else, of a user on the custom resource, or an
      own call that succeeds. A job that ends without a write has found its object in place. */
  predicate Smooth(s: State, a: Action, id: Id)
  {
    Controlled(a) &&
    (a.id == id ==>
      match a
      case CreateCr(_, _) => true
      case EditCr(_, _, _) => true
      case DeleteCr(_) => true
      case UpdateStatus(_) => true
      case GetDest(_, _, _) => true
      case Create(_, _) => true
      case Update(_, _) => true
      case EndJob(_, k) => HasJob(s, id, k) && Mine(s, id, s.procs[id].pc.cr, k)
      case StaleSweep(_) => true
      case Delete(_, _, _) => true
      case _ => false)
  }

  // ----- Between the fetch and the end of the sweep -----

  /** Every target that is done carries the marks. */
  ghost predicate Filling(s: State, id: Id, cr: Cr, targets: set<string>)
  {
    && Known(s, id) && s.procs[id].pc.Writing? && s.procs[id].pc.cr == cr
    && s.procs[id].pc.jobs.Keys == JobKeys(id, cr, targets)
    && forall k | k in s.procs[id].pc.jobs :: s.procs[id].pc.jobs[k].Done? ==> Mine(s, id, cr, k)
  }

  /** Every target carries the marks, and what else does is on the list. */
  ghost predicate Pruning(s: State, id: Id, cr: Cr, targets: set<string>)
  {
    && Known(s, id) && s.procs[id].pc.Sweeping? && s.procs[id].pc.cr == cr
    && (forall k | k in JobKeys(id, cr, targets) :: Mine(s, id, cr, k))
    && (forall k | k in s.procs[id].pc.todo :: k.ns !in targets)
    && (forall k :: Mine(s, id, cr, k) && k.kind == cr.kind ==> k.ns in targets || k in s.procs[id].pc.todo)
  }

  ghost predicate Underway(s: State, id: Id, cr: Cr, targets: set<string>)
  {
    Filling(s, id, cr, targets) || Pruning(s, id, cr, targets)
  }

  lemma FetchStarts(s: State, a: Action, s': State)
    requires Step(s, a, s') && a.FetchSource? && a.id.Cluster?
    ensures s.procs[a.id].pc.Alive? && Filling(s', a.id, s.procs[a.id].pc.cr, a.targets)
  {
  }

  lemma MineApart(s: State, a: Action, s': State, id: Id, cr: Cr, k: Key)
    requires Safe(s) && Step(s, a, s') && Controlled(a) && Known(s, id) && id != a.id
    ensures Mine(s', id, cr, k) <==> Mine(s, id, cr, k)
  {
    OwnedApart(s, a, s', id);
    StoreApart(s, a, s', id);
    assert Owned(s', id, k) <==> Owned(s, id, k);
  }

  lemma UnderwayApart(s: State, a: Action, s': State, id: Id, cr: Cr, targets: set<string>)
    requires Safe(s) && Step(s, a, s') && Controlled(a) && id != a.id && Underway(s, id, cr, targets)
    ensures Underway(s', id, cr, targets)
  {
    StepApart(s, a, s', id);
    forall k ensures Mine(s', id, cr, k) <==> Mine(s, id, cr, k) {
      MineApart(s, a, s', id, cr, k);
    }
  }

  lemma FillingWrite(s: State, a: Action, s': State, cr: Cr, targets: set<string>)
    requires Safe(s) && Step(s, a, s') && IsWrite(a) && Filling(s, a.id, cr, targets)
    ensures Filling(s', a.id, cr, targets)
  {
    WriteStep(s, a, s');
    KnownStays(s, a, s');
    var jobs, jobs' := s.procs[a.id].pc.jobs, s'.procs[a.id].pc.jobs;
    forall k | k in jobs' && jobs'[k].Done? ensures Mine(s', a.id, cr, k) {
      assert k != a.key ==> jobs[k].Done?;
    }
  }

  lemma KnownStays(s: State, a: Action, s': State)
    requires Safe(s) && Step(s, a, s') && !IsUser(a)
    ensures Known(s', a.id) <==> Known(s, a.id)
  {
    StillKnown(s, a, s', a.id);
  }

  predicate ReadsOrSkips(a: Action)
  {
    a.GetDest? || a.EndJob?
  }

  lemma FillingJob(s: State, a: Action, s': State, cr: Cr, targets: set<string>)
    requires Safe(s) && Step(s, a, s') && ReadsOrSkips(a) && Smooth(s, a, a.id) && Filling(s, a.id, cr, targets)
    ensures Filling(s', a.id, cr, targets)
  {
    QuietStep(s, a, s');
    KnownStays(s, a, s');
    var jobs, jobs' := s.procs[a.id].pc.jobs, s'.procs[a.id].pc.jobs;
    forall k | k in jobs' && jobs'[k].Done? ensures Mine(s', a.id, cr, k) {
      assert k != a.key ==> jobs[k].Done?;
    }
  }

  lemma SweepBegins(s: State, a: Action, s': State, cr: Cr, targets: set<string>)
    requires Safe(s) && Step(s, a, s') && a.StaleSweep? && Filling(s, a.id, cr, targets)
    ensures Pruning(s', a.id, cr, targets)
  {
    QuietStep(s, a, s');
    KnownStays(s, a, s');
    var jobs := s.procs[a.id].pc.jobs;
    KeepsTargets(a.id, cr, targets, jobs);
    forall k | k in JobKeys(a.id, cr, targets) ensures Mine(s', a.id, cr, k) {
      assert k in jobs && jobs[k].Done?;
    }
  }

  /** The namespaces a stale sweep keeps are the targets. */
  lemma KeepsTargets(id: Id, cr: Cr, targets: set<string>, jobs: map<Key, Job>)
    requires id.Cluster? && jobs.Keys == JobKeys(id, cr, targets)
    ensures (set k | k in jobs :: k.ns) == targets
  {
    forall t | t in targets ensures t in (set k | k in jobs :: k.ns) {
      assert Key(cr.kind, t, cr.destName) in jobs;
    }
  }

  lemma PruningDelete(s: State, a: Action, s': State, cr: Cr, targets: set<string>)
    requires Safe(s) && Step(s, a, s') && a.Delete? && a.id.Cluster? && Pruning(s, a.id, cr, targets)
    ensures Pruning(s', a.id, cr, targets)
  {
    DeleteStep(s, a, s');
    KnownStays(s, a, s');
    forall k | k in JobKeys(a.id, cr, targets) ensures Mine(s', a.id, cr, k) {
      assert Mine(s, a.id, cr, k) && k.ns in targets && a.key.ns !in targets;
    }
    forall k | Mine(s', a.id, cr, k) && k.kind == cr.kind ensures k.ns in targets || k in s'.procs[a.id].pc.todo {
      assert Mine(s, a.id, cr, k);
    }
  }

  predicate OnCr(a: Action)
  {
    a.CreateCr? || a.EditCr? || a.DeleteCr? || a.UpdateStatus?
  }

  lemma UnderwayCr(s: State, a: Action, s': State, cr: Cr, targets: set<string>)
    requires Safe(s) && Step(s, a, s') && OnCr(a) && Underway(s, a.id, cr, targets)
    ensures Underway(s', a.id, cr, targets)
  {
    QuietStep(s, a, s');
    KnownStays(s, a, s');
    forall k ensures Mine(s', a.id, cr, k) <==> Mine(s, a.id, cr, k) {
    }
  }

  lemma UnderwayOwn(s: State, a: Action, s': State, cr: Cr, targets: set<string>)
    requires Safe(s) && Step(s, a, s') && !IsUser(a) && Smooth(s, a, a.id) && a.id.Cluster?
    requires Underway(s, a.id, cr, targets)
    ensures Underway(s', a.id, cr, targets)
  {
    if OnCr(a) {
      UnderwayCr(s, a, s', cr, targets);
    } else if IsWrite(a) {
      FillingWrite(s, a, s', cr, targets);
    } else if a.Delete? {
      PruningDelete(s, a, s', cr, targets);
    } else if a.StaleSweep? {
      SweepBegins(s, a, s', cr, targets);
    } else {
      FillingJob(s, a, s', cr, targets);
    }
  }

  lemma {:induction false} UnderwayRun(states: seq<State>, trace: seq<Action>, m: nat, n: nat, id: Id)
    requires ControlledBehavior(states, trace) && m < n <= |trace| && id.Cluster?
    requires trace[m].FetchSource? && trace[m].id == id
    requires forall i :: m < i < n ==> Smooth(states[i], trace[i], id)
    ensures Known(states[m], id) && states[m].procs[id].pc.Alive?
    ensures Underway(states[n], id, states[m].procs[id].pc.cr, trace[m].targets)
    decreases n
  {
    assert Step(states[m], trace[m], states[m + 1]);
    FetchStarts(states[m], trace[m], states[m + 1]);
    if n > m + 1 {
      UnderwayRun(states, trace, m, n - 1, id);
      UnderwayStep(states, trace, n - 1, id, states[m].procs[id].pc.cr, trace[m].targets);
    }
  }

  lemma UnderwayStep(states: seq<State>, trace: seq<Action>, i: nat, id: Id, cr: Cr, targets: set<string>)
    requires ControlledBehavior(states, trace) && i < |trace| && id.Cluster?
    requires Smooth(states[i], trace[i], id) && Underway(states[i], id, cr, targets)
    ensures Underway(states[i + 1], id, cr, targets)
  {
    SafeAlways(states, trace, i);
    assert Step(states[i], trace[i], states[i + 1]);
    if trace[i].id == id {
      UnderwayOwn(states[i], trace[i], states[i + 1], cr, targets);
    } else {
      UnderwayApart(states[i], trace[i], states[i + 1], id, cr, targets);
    }
  }

  /** The marked namespaces are exactly the targets, and each target has its object. */
  ghost predicate ConvergedMarks(s: State, id: Id, cr: Cr, targets: set<string>)
  {
    && (forall t | t in targets :: Mine(s, id, cr, Key(cr.kind, t, cr.destName)))
    && (set k | k in s.store && Mine(s, id, cr, k) && k.kind == cr.kind :: k.ns) == targets
  }

  /** From the fetch of its source to the end of its stale sweep, with anybody's steps in between: if its own calls
      succeed, the ClusterProjection has converged when the sweep ends. */
  lemma InterleavedConvergence(states: seq<State>, trace: seq<Action>, m: nat, n: nat, id: Id)
    requires ControlledBehavior(states, trace) && m < n < |trace| && id.Cluster?
    requires trace[m].FetchSource? && trace[m].id == id && trace[n] == EndSweep(id)
    requires forall i :: m < i < n ==> Smooth(states[i], trace[i], id)
    ensures Known(states[m], id) && states[m].procs[id].pc.Alive?
    ensures ConvergedMarks(states[n + 1], id, states[m].procs[id].pc.cr, trace[m].targets)
  {
    UnderwayRun(states, trace, m, n, id);
    assert Step(states[n], trace[n], states[n + 1]);
    QuietStep(states[n], trace[n], states[n + 1]);
    SweepDone(states[n], states[n + 1], id, states[m].procs[id].pc.cr, trace[m].targets);
  }

  lemma SweepDone(s: State, s': State, id: Id, cr: Cr, targets: set<string>)
    requires id.Cluster? && Underway(s, id, cr, targets) && Step(s, EndSweep(id), s') && s'.store == s.store
    ensures ConvergedMarks(s', id, cr, targets)
  {
    forall t | t in targets
      ensures Mine(s', id, cr, Key(cr.kind, t, cr.destName))
      ensures t in (set k | k in s'.store && Mine(s', id, cr, k) && k.kind == cr.kind :: k.ns)
    {
      assert Key(cr.kind, t, cr.destName) in JobKeys(id, cr, targets);
      assert Mine(s, id, cr, Key(cr.kind, t, cr.destName));
    }
    forall k | k in s'.store && Mine(s', id, cr, k) && k.kind == cr.kind ensures k.ns in targets {
      assert Mine(s, id, cr, k);
    }
  }
}
