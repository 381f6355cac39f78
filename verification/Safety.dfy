/** Safety of the ownership protocol over every interleaving. */
module Safety {
  import opened Wrappers
  import opened Types
  import opened Protocol

  // ----- Versions: true under every step, users included -----

  predicate JobsLogged(s: State, pc: Pc)
  {
    pc.Writing? ==>
      forall k | k in pc.jobs :: pc.jobs[k].Seen? && pc.jobs[k].found.Some? ==> InLog(s, k, pc.jobs[k].found.value)
  }

  ghost predicate Versioned(s: State)
  {
    && s.hist.Keys == s.procs.Keys
    && (forall id | id in s.procs :: Known(s, id) && ValidId(id))
    && (forall v | v in s.revisions :: v < s.clock)
    && (forall k | k in s.store :: InLog(s, k, s.store[k]))
    && (forall id | id in s.procs :: JobsLogged(s, s.procs[id].pc))
  }

  lemma KnownCommit(s: State, e: Effect)
    requires Versioned(s)
    requires e.version.NewVersion? ==> Known(s, e.version.of)
    requires e.jump.Goto? ==> Known(s, e.jump.proc)
    ensures var s' := Commit(s, e);
            s'.hist.Keys == s'.procs.Keys == s.procs.Keys && forall id | id in s.procs :: Known(s', id)
  {
  }

  lemma LogCommit(s: State, e: Effect)
    requires Versioned(s)
    requires e.version.NewVersion? ==> Known(s, e.version.of)
    ensures var s' := Commit(s, e);
            && (forall v | v in s'.revisions :: v < s'.clock)
            && (forall v | v in s.revisions :: v in s'.revisions && s'.revisions[v] == s.revisions[v])
            && (forall k | k in s'.store :: InLog(s', k, s'.store[k]))
  {
  }

  lemma JobsCommit(s: State, e: Effect)
    requires Versioned(s)
    requires e.version.NewVersion? ==> Known(s, e.version.of)
    requires e.jump.Goto? ==> JobsLogged(s, e.jump.pc)
    ensures var s' := Commit(s, e);
            forall id | id in s'.procs :: JobsLogged(s', s'.procs[id].pc)
  {
    LogCommit(s, e);
    var s' := Commit(s, e);
    forall id | id in s'.procs ensures JobsLogged(s', s'.procs[id].pc) {
      assert JobsLogged(s, s'.procs[id].pc);
    }
  }

  /** No step invents an answer to a Get: a job either keeps what it saw or has just read it from the log. */
  lemma JobsStep(s: State, a: Action)
    requires Versioned(s) && Enabled(s, a) && Effects(s, a).jump.Goto?
    ensures JobsLogged(s, Effects(s, a).jump.pc)
  {
    var id := Effects(s, a).jump.proc;
    assert id == a.id && JobsLogged(s, s.procs[id].pc);
  }

  lemma VersionedStep(s: State, a: Action, s': State)
    requires Versioned(s) && Step(s, a, s')
    ensures Versioned(s')
  {
    var e := Effects(s, a);
    EffectsKnown(s, a);
    KnownCommit(s, e);
    LogCommit(s, e);
    if e.jump.Goto? {
      JobsStep(s, a);
    }
    JobsCommit(s, e);
  }

  lemma {:induction false} VersionedAlways(states: seq<State>, trace: seq<Action>, n: nat)
    requires Behavior(states, trace) && n <= |trace|
    ensures Versioned(states[n])
  {
    if n > 0 {
      VersionedAlways(states, trace, n - 1);
      VersionedStep(states[n - 1], trace[n - 1], states[n]);
    }
  }

  /** A version number identifies one revision, so an accepted Update replaces exactly what was checked. */
  lemma WriteStep(s: State, a: Action, s': State)
    requires Versioned(s) && Step(s, a, s') && IsWrite(a)
    ensures a.key in s.store ==> OwnedBy(s.store[a.key].stamp, a.id)
    ensures HasJob(s, a.id, a.key)
    ensures s.procs[a.id].pc.jobs[a.key] == Seen(if a.key in s.store then Some(s.store[a.key]) else None)
    ensures var pc := s.procs[a.id].pc;
            s'.store == s.store[a.key := Entry(StampFor(a.id, pc.cr.uid, pc.carried), s.clock)] &&
            s'.procs == s.procs[a.id := s.procs[a.id].(pc := pc.(jobs := pc.jobs[a.key := Done]))]
  {
  }

  /** In every interleaving, with users changing stored objects at any moment and every Get possibly stale, no
      accepted Create or Update replaces an object whose own-tier annotation does not name the writer. */
  lemma WritesNeverReplaceForeign(states: seq<State>, trace: seq<Action>, n: nat, k: Key)
    requires Behavior(states, trace) && n < |trace| && IsWrite(trace[n])
    requires k in states[n].store && !OwnedBy(states[n].store[k].stamp, trace[n].id)
    ensures k in states[n + 1].store && states[n + 1].store[k] == states[n].store[k]
  {
    VersionedAlways(states, trace, n);
    WriteStep(states[n], trace[n], states[n + 1]);
  }

  // ----- Exclusivity: controller steps only -----

  /** No user step on stored objects, and no source or overlay that carries the other tier's mark. */
  predicate Controlled(a: Action)
  {
    !IsUser(a) && (a.FetchSource? ==> CleanFor(a.id, a.carried))
  }

  ghost predicate Exclusive(s: State)
  {
    forall k | k in s.store :: !CoOwned(s.store[k].stamp)
  }

  /** A run of controller steps from a state without co-owned objects. */
  ghost predicate ControlledBehavior(states: seq<State>, trace: seq<Action>)
  {
    && Behavior(states, trace)
    && Exclusive(states[0])
    && forall n :: 0 <= n < |trace| ==> Controlled(trace[n])
  }

  predicate CleanPc(id: Id, pc: Pc)
  {
    pc.Writing? ==> CleanFor(id, pc.carried)
  }

  /** Everything a running sweep still has to delete exists and is the sweeper's. */
  predicate SweepOwned(store: map<Key, Entry>, id: Id, pc: Pc)
  {
    pc.Sweeping? ==> forall k | k in pc.todo :: k in store && OwnedBy(store[k].stamp, id)
  }

  ghost predicate Safe(s: State)
  {
    && Versioned(s)
    && Exclusive(s)
    && (forall id | id in s.procs :: CleanPc(id, s.procs[id].pc) && SweepOwned(s.store, id, s.procs[id].pc))
  }

  lemma StampExclusive(id: Id, uid: string, carried: Stamp)
    requires CleanFor(id, carried)
    ensures !CoOwned(StampFor(id, uid, carried)) && OwnedBy(StampFor(id, uid, carried), id)
  {
  }

  lemma SafeWrite(s: State, a: Action, s': State)
    requires Safe(s) && Step(s, a, s') && IsWrite(a)
    ensures Safe(s')
  {
    VersionedStep(s, a, s');
    WriteStep(s, a, s');
    var pc := s.procs[a.id].pc;
    assert CleanPc(a.id, pc);
    StampExclusive(a.id, pc.cr.uid, pc.carried);
    forall id | id in s'.procs ensures CleanPc(id, s'.procs[id].pc) && SweepOwned(s'.store, id, s'.procs[id].pc) {
      assert Known(s, id) && ValidId(id) && CleanPc(id, s.procs[id].pc) && SweepOwned(s.store, id, s.procs[id].pc);
      SweepSurvivesPut(s.store, id, s'.procs[id].pc, a.key, s'.store[a.key], a.id);
    }
  }

  /** A write on an object of the writer keeps every sweep list owned: an object on it is the sweeper's own. */
  lemma SweepSurvivesPut(store: map<Key, Entry>, id: Id, pc: Pc, key: Key, e: Entry, writer: Id)
    requires SweepOwned(store, id, pc) && ValidId(id) && ValidId(writer) && OwnedBy(e.stamp, writer)
    requires key in store ==> OwnedBy(store[key].stamp, writer) && !CoOwned(store[key].stamp)
    ensures SweepOwned(store[key := e], id, pc)
  {
    if pc.Sweeping? && key in pc.todo {
      UniqueOwner(store[key].stamp, id, writer);
    }
  }

  lemma DeleteStep(s: State, a: Action, s': State)
    requires Step(s, a, s') && a.Delete?
    ensures Sweeps(s, a.id, a.key) && s'.store == s.store - {a.key}
    ensures var pc := s.procs[a.id].pc;
            var pc' := pc.(todo := pc.todo - {a.key}, clean := pc.clean && a.reported);
            s'.procs == s.procs[a.id := s.procs[a.id].(pc := pc')]
  {
  }

  lemma SafeDelete(s: State, a: Action, s': State)
    requires Safe(s) && Step(s, a, s') && a.Delete?
    ensures Safe(s')
    ensures a.key in s.store && OwnedBy(s.store[a.key].stamp, a.id)
  {
    VersionedStep(s, a, s');
    DeleteStep(s, a, s');
    assert SweepOwned(s.store, a.id, s.procs[a.id].pc);
    forall id | id in s'.procs ensures SweepOwned(s'.store, id, s'.procs[id].pc) {
      assert SweepOwned(s.store, id, s.procs[id].pc);
      if id != a.id && s.procs[id].pc.Sweeping? && a.key in s.procs[id].pc.todo {
        UniqueOwner(s.store[a.key].stamp, id, a.id);
      }
    }
  }

  predicate IsQuiet(a: Action)
  {
    !IsWrite(a) && !a.Delete? && !IsUser(a)
  }

  lemma QuietStep(s: State, a: Action, s': State)
    requires Step(s, a, s') && IsQuiet(a)
    ensures s'.store == s.store
    ensures Effects(s, a).jump.NoJump? ==> s'.procs == s.procs
    ensures Effects(s, a).jump.Goto? ==>
              Known(s, a.id) && s'.procs == s.procs[a.id := Proc(Effects(s, a).jump.seen, Effects(s, a).jump.pc)]
  {
  }

  lemma QuietPc(s: State, a: Action)
    requires Safe(s) && Enabled(s, a) && IsQuiet(a) && Controlled(a) && Effects(s, a).jump.Goto?
    ensures CleanPc(a.id, Effects(s, a).jump.pc) && SweepOwned(s.store, a.id, Effects(s, a).jump.pc)
  {
    EffectsKnown(s, a);
    QuietWriting(s, a);
    QuietSweeping(s, a);
  }

  lemma QuietWriting(s: State, a: Action)
    requires Enabled(s, a) && IsQuiet(a) && Controlled(a) && Effects(s, a).jump.Goto?
    requires Known(s, a.id) && CleanPc(a.id, s.procs[a.id].pc)
    ensures CleanPc(a.id, Effects(s, a).jump.pc)
  {
  }

  /** A sweep starts with owned objects only, and a failed delete leaves the rest of the list as it was. */
  lemma QuietSweeping(s: State, a: Action)
    requires Enabled(s, a) && IsQuiet(a) && Effects(s, a).jump.Goto?
    requires Known(s, a.id) && SweepOwned(s.store, a.id, s.procs[a.id].pc)
    ensures SweepOwned(s.store, a.id, Effects(s, a).jump.pc)
  {
  }

  lemma SafeStep(s: State, a: Action, s': State)
    requires Safe(s) && Step(s, a, s') && Controlled(a)
    ensures Safe(s')
  {
    if IsWrite(a) {
      SafeWrite(s, a, s');
    } else if a.Delete? {
      SafeDelete(s, a, s');
    } else {
      VersionedStep(s, a, s');
      QuietStep(s, a, s');
      if Effects(s, a).jump.Goto? {
        QuietPc(s, a);
      }
    }
  }

  lemma {:induction false} SafeAlways(states: seq<State>, trace: seq<Action>, n: nat)
    requires ControlledBehavior(states, trace) && n <= |trace|
    ensures Safe(states[n])
  {
    if n > 0 {
      SafeAlways(states, trace, n - 1);
      SafeStep(states[n - 1], trace[n - 1], states[n]);
    }
  }

  /** At most one custom resource, of either tier, owns an object. */
  lemma OneOwner(states: seq<State>, trace: seq<Action>, n: nat, k: Key, a: Id, b: Id)
    requires ControlledBehavior(states, trace) && n <= |trace|
    requires ValidId(a) && ValidId(b) && k in states[n].store
    requires OwnedBy(states[n].store[k].stamp, a) && OwnedBy(states[n].store[k].stamp, b)
    ensures a == b
  {
    SafeAlways(states, trace, n);
    UniqueOwner(states[n].store[k].stamp, a, b);
  }

  /** Every Delete that reaches the server hits an object its sender owns at that moment, although the call
      carries no precondition. */
  lemma DeletesHitOwn(states: seq<State>, trace: seq<Action>, n: nat)
    requires ControlledBehavior(states, trace) && n < |trace| && trace[n].Delete?
    ensures trace[n].key in states[n].store && OwnedBy(states[n].store[trace[n].key].stamp, trace[n].id)
  {
    SafeAlways(states, trace, n);
    SafeDelete(states[n], trace[n], states[n + 1]);
  }

  lemma OwnerKeptByStep(s: State, a: Action, s': State, k: Key, id: Id)
    requires Safe(s) && Step(s, a, s') && Controlled(a) && ValidId(id)
    requires k in s.store && OwnedBy(s.store[k].stamp, id) && k in s'.store
    ensures OwnedBy(s'.store[k].stamp, id)
  {
    if IsWrite(a) {
      WriteStep(s, a, s');
      if a.key == k {
        UniqueOwner(s.store[k].stamp, id, a.id);
      }
    } else if a.Delete? {
      DeleteStep(s, a, s');
    } else {
      QuietStep(s, a, s');
    }
  }

  /** The key holds an object in every state from i to j. */
  ghost predicate Occupied(states: seq<State>, i: nat, j: nat, k: Key)
    requires i <= j < |states|
  {
    forall n | i <= n <= j :: k in states[n].store
  }

  lemma OwnerKeptAt(states: seq<State>, trace: seq<Action>, n: nat, k: Key, id: Id)
    requires ControlledBehavior(states, trace) && ValidId(id) && n < |trace|
    requires k in states[n].store && OwnedBy(states[n].store[k].stamp, id) && k in states[n + 1].store
    ensures OwnedBy(states[n + 1].store[k].stamp, id)
  {
    SafeAlways(states, trace, n);
    OwnerKeptByStep(states[n], trace[n], states[n + 1], k, id);
  }

  /** Ownership at a key changes only through absence: as long as the key stays occupied, its owner stays. */
  lemma {:induction false} OwnerChangesThroughAbsence(states: seq<State>, trace: seq<Action>, i: nat, j: nat, k: Key,
                                                      id: Id)
    requires ControlledBehavior(states, trace) && ValidId(id) && i <= j <= |trace|
    requires Occupied(states, i, j, k)
    requires OwnedBy(states[i].store[k].stamp, id)
    ensures OwnedBy(states[j].store[k].stamp, id)
    decreases j
  {
    if i < j {
      OwnerChangesThroughAbsence(states, trace, i, j - 1, k, id);
      OwnerKeptAt(states, trace, j - 1, k, id);
    }
  }
}
