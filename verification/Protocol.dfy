/** The ownership protocol as a transition system. Every API call of every reconcile is a separate step, and
    the steps of any number of Projections and ClusterProjections interleave freely with each other, with users
    editing the custom resources and, where a theorem allows it, with users editing the stored objects.

    Objects are represented by their ownership marks and their resourceVersion; `Transform.NamespacedStamp` and
    `Transform.ClusterStamp` say that the marks written here are those of the built objects. */
module Protocol {
  import opened Wrappers
  import opened Types
  import opened Keys

  /** A custom resource by name. Its annotation value is shared by all incarnations of that name. */
  datatype Id = Namespaced(ns: string, name: string) | Cluster(name: string)

  predicate ValidId(id: Id)
  {
    id.Namespaced? ==> Plain(id.ns)
  }

  /** One version of a stored object. */
  datatype Entry = Entry(stamp: Stamp, version: nat)

  /** The key and marks that a resourceVersion was given to. */
  datatype Revision = Revision(key: Key, stamp: Stamp)

  /** One version of a custom resource; `kind` is the resolved source kind, `destName` the destination name. */
  datatype Cr = Cr(uid: string, kind: string, destName: string, deleting: bool, finalizer: bool)

  /** The write of one destination: its Get has not run, has returned, or the job has ended. */
  datatype Job = Pending | Seen(found: Option<Entry>) | Done

  /** What a sweep is for: stripping the finalizer of CR version `i` afterwards, or only a status report. */
  datatype After = Finalize(i: nat) | Report

  datatype Mode = One | All | Stale(keep: set<string>)

  datatype Pc =
    | Idle
    | Loaded(i: nat)
    | Alive(cr: Cr)
    | Writing(cr: Cr, carried: Stamp, jobs: map<Key, Job>)
    | Sweeping(cr: Cr, todo: set<Key>, clean: bool, after: After)
    | Finalizing(i: nat)

  /** The reconcile of one CR; `seen` is the newest CR version it has read so far. */
  datatype Proc = Proc(seen: nat, pc: Pc)

  datatype State = State(
    store: map<Key, Entry>,
    clock: nat,
    revisions: map<nat, Revision>,
    hist: map<Id, seq<Option<Cr>>>,
    uids: set<string>,
    procs: map<Id, Proc>)

  datatype Action =
    // users and the CRs
    | CreateCr(id: Id, cr: Cr)
    | EditCr(id: Id, kind: string, destName: string)
    | DeleteCr(id: Id)
    // users and the stored objects
    | UserPut(key: Key, stamp: Stamp)
    | UserDelete(key: Key)
    // the reconciles
    | ReadCr(id: Id, i: nat)
    | Return(id: Id)
    | UpdateStatus(id: Id)
    | EnsureFinalizer(id: Id, reported: bool)
    | SkipCleanup(id: Id)
    | Cleanup(id: Id)
    | SourceGone(id: Id)
    | SourceVetoed(id: Id)
    | FetchSource(id: Id, carried: Stamp, targets: set<string>)
    | GetDest(id: Id, key: Key, found: Option<Entry>)
    | Create(id: Id, key: Key)
    | Update(id: Id, key: Key)
    | EndJob(id: Id, key: Key)
    | StaleSweep(id: Id)
    | Delete(id: Id, key: Key, reported: bool)
    | DeleteFails(id: Id, key: Key)
    | EndSweep(id: Id)
    | RemoveFinalizer(id: Id)

  predicate IsWrite(a: Action)
  {
    a.Create? || a.Update?
  }

  predicate IsUser(a: Action)
  {
    a.UserPut? || a.UserDelete?
  }

  // ----- Ownership marks -----

  function Mark(id: Id): string
  {
    if id.Namespaced? then Join(id.ns, id.name) else id.name
  }

  /** isOwnedBy / isOwnedByCluster. */
  predicate OwnedBy(s: Stamp, id: Id)
  {
    (if id.Namespaced? then s.nsOwner else s.clOwner) == Some(Mark(id))
  }

  function UidLabel(s: Stamp, id: Id): Option<string>
  {
    if id.Namespaced? then s.nsUid else s.clUid
  }

  /** The marks a builder produces: the own tier overwritten, the other tier as source and overlay carry it. */
  function StampFor(id: Id, uid: string, carried: Stamp): Stamp
  {
    if id.Namespaced? then carried.(nsOwner := Some(Mark(id)), nsUid := Some(uid))
    else carried.(clOwner := Some(Mark(id)), clUid := Some(uid))
  }

  /** Source and overlay carry no mark of the other tier. */
  predicate CleanFor(id: Id, carried: Stamp)
  {
    if id.Namespaced? then carried.clOwner.None? else carried.nsOwner.None?
  }

  lemma UniqueOwner(s: Stamp, a: Id, b: Id)
    requires ValidId(a) && ValidId(b) && !CoOwned(s) && OwnedBy(s, a) && OwnedBy(s, b)
    ensures a == b
  {
    if a.Namespaced? && b.Namespaced? {
      JoinInjective(a.ns, a.name, b.ns, b.name);
    }
  }

  // ----- What a reconcile looks at -----

  predicate Known(s: State, id: Id)
  {
    id in s.procs && id in s.hist && s.hist[id] != []
  }

  function Current(s: State, id: Id): Option<Cr>
    requires Known(s, id)
  {
    s.hist[id][|s.hist[id]| - 1]
  }

  function Coords(id: Id, cr: Cr): Key
    requires id.Namespaced?
  {
    Key(cr.kind, id.ns, cr.destName)
  }

  /** Which stored object a cleanup picks: the annotation always, plus the coordinates (One), the UID label
      (All), or the UID label and a namespace outside the kept set (Stale). */
  predicate Picked(id: Id, cr: Cr, mode: Mode, key: Key, stamp: Stamp)
  {
    && key.kind == cr.kind
    && OwnedBy(stamp, id)
    && match mode
       case One => id.Namespaced? && key == Coords(id, cr)
       case All => UidLabel(stamp, id) == Some(cr.uid)
       case Stale(keep) => UidLabel(stamp, id) == Some(cr.uid) && key.ns !in keep
  }

  function Collect(store: map<Key, Entry>, id: Id, cr: Cr, mode: Mode): set<Key>
  {
    set k | k in store && Picked(id, cr, mode, k, store[k].stamp)
  }

  function JobKeys(id: Id, cr: Cr, targets: set<string>): set<Key>
  {
    if id.Namespaced? then {Coords(id, cr)} else set t | t in targets :: Key(cr.kind, t, cr.destName)
  }

  predicate InLog(s: State, key: Key, e: Entry)
  {
    e.version in s.revisions && s.revisions[e.version] == Revision(key, e.stamp)
  }

  predicate HasJob(s: State, id: Id, key: Key)
  {
    Known(s, id) && s.procs[id].pc.Writing? && key in s.procs[id].pc.jobs
  }

  predicate Sweeps(s: State, id: Id, key: Key)
  {
    Known(s, id) && s.procs[id].pc.Sweeping? && key in s.procs[id].pc.todo
  }

  // ----- Guards -----

  predicate Enabled(s: State, a: Action)
  {
    match a
    case CreateCr(id, cr) => Known(s, id) && Current(s, id).None? && cr.uid !in s.uids && !cr.deleting
    case EditCr(id, _, _) => Known(s, id) && Current(s, id).Some?
    case DeleteCr(id) => Known(s, id) && Current(s, id).Some?
    case UserPut(_, _) => true
    case UserDelete(_) => true
    // a cached read: any version at least as new as the last one read
    case ReadCr(id, i) => Known(s, id) && s.procs[id].pc.Idle? && s.procs[id].seen <= i < |s.hist[id]|
    // any error or the end of the reconcile, at any point; also a crash of the controller
    case Return(id) => Known(s, id)
    case UpdateStatus(id) => Known(s, id) && Current(s, id).Some?
    // present in the version read: nothing to do; otherwise an Update that needs the version read to be current
    case EnsureFinalizer(id, _) =>
      && Known(s, id) && LoadedCr(s, id).Some? && !LoadedCr(s, id).value.deleting
      && (LoadedCr(s, id).value.finalizer || s.procs[id].pc.i == |s.hist[id]| - 1)
    case SkipCleanup(id) => InDeletion(s, id)
    case Cleanup(id) => InDeletion(s, id)
    case SourceGone(id) => Known(s, id) && s.procs[id].pc.Alive?
    case SourceVetoed(id) => Known(s, id) && s.procs[id].pc.Alive?
    case FetchSource(id, _, _) => Known(s, id) && s.procs[id].pc.Alive?
    // a possibly stale read: nothing, or any version the key ever had
    case GetDest(id, key, found) =>
      HasJob(s, id, key) && s.procs[id].pc.jobs[key].Pending? && (found.Some? ==> InLog(s, key, found.value))
    case Create(id, key) => HasJob(s, id, key) && s.procs[id].pc.jobs[key] == Seen(None) && key !in s.store
    case Update(id, key) =>
      && HasJob(s, id, key) && s.procs[id].pc.jobs[key].Seen? && s.procs[id].pc.jobs[key].found.Some?
      && OwnedBy(s.procs[id].pc.jobs[key].found.value.stamp, id)
      && key in s.store && s.store[key].version == s.procs[id].pc.jobs[key].found.value.version
    // fetch error, conflict, no update needed, or a refused write
    case EndJob(id, key) => HasJob(s, id, key)
    case StaleSweep(id) =>
      && Known(s, id) && id.Cluster? && s.procs[id].pc.Writing?
      && forall k | k in s.procs[id].pc.jobs :: s.procs[id].pc.jobs[k].Done?
    case Delete(id, key, _) => Sweeps(s, id, key)
    case DeleteFails(id, key) => Sweeps(s, id, key)
    case EndSweep(id) => Known(s, id) && s.procs[id].pc.Sweeping? && s.procs[id].pc.todo == {}
    case RemoveFinalizer(id) =>
      Known(s, id) && s.procs[id].pc.Finalizing? && s.procs[id].pc.i == |s.hist[id]| - 1 && Current(s, id).Some?
  }

  function LoadedCr(s: State, id: Id): Option<Cr>
    requires Known(s, id)
  {
    if s.procs[id].pc.Loaded? && s.procs[id].pc.i < |s.hist[id]| then s.hist[id][s.procs[id].pc.i] else None
  }

  predicate InDeletion(s: State, id: Id)
  {
    Known(s, id) && LoadedCr(s, id).Some? && LoadedCr(s, id).value.deleting && LoadedCr(s, id).value.finalizer
  }

  // ----- Effects -----

  /** What a step does to the stored objects, to the versions of one CR, and to one reconcile. */
  datatype Write = NoWrite | PutAt(key: Key, stamp: Stamp) | DropAt(key: Key)
  datatype Version = NoVersion | NewVersion(of: Id, cr: Option<Cr>)
  datatype Jump = NoJump | Goto(proc: Id, seen: nat, pc: Pc)
  datatype Effect = Effect(write: Write, version: Version, jump: Jump)

  function GotoPc(s: State, id: Id, pc: Pc): Jump
    requires Known(s, id)
  {
    Goto(id, s.procs[id].seen, pc)
  }

  function Move(s: State, id: Id, pc: Pc): Effect
    requires Known(s, id)
  {
    Effect(NoWrite, NoVersion, GotoPc(s, id, pc))
  }

  function Append(id: Id, cr: Option<Cr>): Effect
  {
    Effect(NoWrite, NewVersion(id, cr), NoJump)
  }

  function SetJob(s: State, id: Id, key: Key, job: Job): Effect
    requires HasJob(s, id, key)
  {
    var pc := s.procs[id].pc;
    Move(s, id, pc.(jobs := pc.jobs[key := job]))
  }

  function Sweep(s: State, id: Id, cr: Cr, mode: Mode, after: After): Effect
    requires Known(s, id)
  {
    Move(s, id, Sweeping(cr, Collect(s.store, id, cr, mode), true, after))
  }

  function WriteJob(s: State, id: Id, key: Key): Effect
    requires HasJob(s, id, key)
  {
    var pc := s.procs[id].pc;
    SetJob(s, id, key, Done).(write := PutAt(key, StampFor(id, pc.cr.uid, pc.carried)))
  }

  function Effects(s: State, a: Action): Effect
    requires Enabled(s, a)
  {
    match a
    case CreateCr(id, cr) => Append(id, Some(cr))
    case EditCr(id, kind, destName) => Append(id, Some(Current(s, id).value.(kind := kind, destName := destName)))
    case DeleteCr(id) =>
      var cr := Current(s, id).value;
      Append(id, if cr.finalizer then Some(cr.(deleting := true)) else None)
    case UserPut(key, stamp) => Effect(PutAt(key, stamp), NoVersion, NoJump)
    case UserDelete(key) => Effect(DropAt(key), NoVersion, NoJump)
    case ReadCr(id, i) => Effect(NoWrite, NoVersion, Goto(id, i, if s.hist[id][i].Some? then Loaded(i) else Idle))
    case Return(id) => Move(s, id, Idle)
    case UpdateStatus(id) => Append(id, Current(s, id))
    case EnsureFinalizer(id, reported) =>
      var cr := LoadedCr(s, id).value;
      var cr' := cr.(finalizer := true);
      if cr.finalizer then Move(s, id, Alive(cr))
      else Effect(NoWrite, NewVersion(id, Some(cr')), GotoPc(s, id, if reported then Alive(cr') else Idle))
    // the source kind no longer resolves: the finalizer goes without a sweep
    case SkipCleanup(id) => Move(s, id, Finalizing(s.procs[id].pc.i))
    case Cleanup(id) =>
      Sweep(s, id, LoadedCr(s, id).value, if id.Namespaced? then One else All, Finalize(s.procs[id].pc.i))
    case SourceGone(id) => Sweep(s, id, s.procs[id].pc.cr, All, Report)
    case SourceVetoed(id) => Sweep(s, id, s.procs[id].pc.cr, if id.Namespaced? then One else All, Report)
    case FetchSource(id, carried, targets) =>
      var cr := s.procs[id].pc.cr;
      Move(s, id, Writing(cr, carried, map k | k in JobKeys(id, cr, targets) :: Pending))
    case GetDest(id, key, found) => SetJob(s, id, key, Seen(found))
    case Create(id, key) => WriteJob(s, id, key)
    case Update(id, key) => WriteJob(s, id, key)
    case EndJob(id, key) => SetJob(s, id, key, Done)
    case StaleSweep(id) =>
      var pc := s.procs[id].pc;
      Sweep(s, id, pc.cr, Stale(set k | k in pc.jobs :: k.ns), Report)
    case Delete(id, key, reported) =>
      var pc := s.procs[id].pc;
      Move(s, id, pc.(todo := pc.todo - {key}, clean := pc.clean && reported)).(write := DropAt(key))
    case DeleteFails(id, key) =>
      var pc := s.procs[id].pc;
      Move(s, id, pc.(todo := pc.todo - {key}, clean := false))
    case EndSweep(id) =>
      var pc := s.procs[id].pc;
      Move(s, id, if pc.clean && pc.after.Finalize? then Finalizing(pc.after.i) else Idle)
    // a deleting CR without finalizers is removed by the server
    case RemoveFinalizer(id) => Effect(NoWrite, NewVersion(id, None), GotoPc(s, id, Idle))
  }

  /** Every object stored gets a fresh resourceVersion; every UID ever given to a CR is remembered. */
  function Commit(s: State, e: Effect): State
    requires e.version.NewVersion? ==> e.version.of in s.hist
  {
    State(
      match e.write {
        case NoWrite => s.store
        case PutAt(key, stamp) => s.store[key := Entry(stamp, s.clock)]
        case DropAt(key) => s.store - {key}
      },
      if e.write.PutAt? then s.clock + 1 else s.clock,
      if e.write.PutAt? then s.revisions[s.clock := Revision(e.write.key, e.write.stamp)] else s.revisions,
      if e.version.NewVersion? then s.hist[e.version.of := s.hist[e.version.of] + [e.version.cr]] else s.hist,
      if e.version.NewVersion? && e.version.cr.Some? then s.uids + {e.version.cr.value.uid} else s.uids,
      if e.jump.Goto? then s.procs[e.jump.proc := Proc(e.jump.seen, e.jump.pc)] else s.procs)
  }

  /** A step touches no CR and no reconcile but the actor's. */
  lemma EffectsKnown(s: State, a: Action)
    requires Enabled(s, a)
    ensures Effects(s, a).version.NewVersion? ==>
              Known(s, Effects(s, a).version.of) && !IsUser(a) && Effects(s, a).version.of == a.id
    ensures Effects(s, a).jump.Goto? ==>
              Known(s, Effects(s, a).jump.proc) && !IsUser(a) && Effects(s, a).jump.proc == a.id
  {
  }

  function Apply(s: State, a: Action): State
    requires Enabled(s, a)
  {
    EffectsKnown(s, a);
    Commit(s, Effects(s, a))
  }

  // ----- Behaviours -----

  ghost predicate Step(s: State, a: Action, s': State)
  {
    Enabled(s, a) && s' == Apply(s, a)
  }

  /** Every reconcile starts idle; ids come from admission; the stored versions are in the log. */
  ghost predicate Start(s: State)
  {
    && s.hist.Keys == s.procs.Keys
    && (forall id | id in s.procs :: Known(s, id) && ValidId(id) && s.procs[id] == Proc(0, Idle))
    && (forall v | v in s.revisions :: v < s.clock)
    && (forall k | k in s.store :: InLog(s, k, s.store[k]))
  }

  /** A finite run: any interleaving of enabled steps. */
  ghost predicate Behavior(states: seq<State>, trace: seq<Action>)
  {
    && |states| == |trace| + 1
    && Start(states[0])
    && forall n :: 0 <= n < |trace| ==> Step(states[n], trace[n], states[n + 1])
  }
}
