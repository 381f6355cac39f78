/** The worker pool running writeClusterDestination: whatever the schedule, the concurrent fan-out leaves the store
    that the reconcile relies on. A cell of the pool is the object (if any) at one target's key, with the Create and
    Update calls issued there. */
module PooledWrites {
  import opened Wrappers
  import opened Json
  import opened Types
  import opened Destination
  import opened Transform
  import opened Preservation
  import opened ApiServer
  import opened Cleanup
  import opened Lists
  import opened Writer
  import opened ClusterWrites
  import F = FanOut

  datatype Cell = Cell(obj: Option<Stored>, sent: seq<Request>)

  /** How the server treats each target, fixed for one fan-out: which calls fail, what is stored of what was sent. */
  datatype Oracle = Oracle(
    getFails: string -> bool,
    writeFails: string -> bool,
    stored: (string, Object) -> Object,
    version: string -> nat)

  ghost predicate Lawful(orc: Oracle)
  {
    forall ns, tree :: StoredAs(tree, orc.stored(ns, tree), DroppedSpecFields(GvkOf(tree)))
  }

  /** The target's own calls go through. */
  predicate GoodAt(orc: Oracle, ns: string)
  {
    !orc.getFails(ns) && !orc.writeFails(ns)
  }

  /** A call that is accepted: the server stores what it makes of the tree. */
  function Accepted(orc: Oracle, ns: string, r: Request, current: Cell): Cell
  {
    Cell(Some(Stored(orc.stored(ns, r.tree), orc.version(ns))), current.sent + [r])
  }

  /** A call that is refused. */
  function Refused(r: Request, current: Cell): Cell
  {
    current.(sent := current.sent + [r])
  }

  /** writeClusterDestination on one cell: what its Get returned, and what is there when it writes. */
  ghost function WriteCell(orc: Oracle, cp: ClusterProjection, source: Object, kind: string, ns: string, fetched: Cell,
                           current: Cell): (Cell, F.Outcome)
  {
    var dst, key := ClusterPlan(source, cp, ns).Built(), TargetKey(cp, ns, kind);
    if orc.getFails(ns) then (current, F.Outcome("DestinationFetchFailed", ""))
    else if fetched.obj.None? then
      var create := Request(key, dst, None);
      if current.obj.Some? || orc.writeFails(ns) then
        (Refused(create, current), F.Outcome("DestinationCreateFailed", ""))
      else (Accepted(orc, ns, create, current), F.Outcome("", ""))
    else if !Owns(ClusterOwner(cp), fetched.obj.value.tree) then (current, F.Outcome("DestinationConflict", ""))
    else
      var merged := Preserve(fetched.obj.value.tree, dst);
      var update := Request(key, merged, Some(fetched.obj.value.version));
      if Agree(fetched.obj.value.tree, merged) then (current, F.Outcome("", ""))
      else if current.obj.None? || current.obj.value.version != fetched.obj.value.version || orc.writeFails(ns) then
        (Refused(update, current), F.Outcome("DestinationUpdateFailed", ""))
      else (Accepted(orc, ns, update, current), F.Outcome("", ""))
  }

  function ObjectAt(objects: Objects, k: Key): Option<Stored>
  {
    if k in objects then Some(objects[k]) else None
  }

  /** The store with one key's object replaced or removed. */
  function With(was: Objects, k: Key, obj: Option<Stored>): Objects
  {
    if obj.Some? then was[k := obj.value] else was - {k}
  }

  /** The oracle's answers, key by key. */
  function FaultsOf(orc: Oracle): Faults
  {
    Faults((via, k: Key) => orc.getFails(k.ns), kind => false, (k: Key) => orc.writeFails(k.ns), k => false)
  }

  /** The write on a cell is a write as `Writer` has it: the same relation between the store before and after, what is
      said to the server, its answers and the reason. */
  ghost predicate CellDid(was: Objects, orc: Oracle, cp: ClusterProjection, source: Object, ns: string, kind: string,
                          cell: Cell, after: Cell, reason: string, clock: nat)
  {
    TargetDid(was, orc.version(ns), cell.sent, With(was, TargetKey(cp, ns, kind), after.obj), clock, after.sent,
              FaultsOf(orc), cp, source, ns, kind, reason)
  }

  lemma CellWrote(was: Objects, orc: Oracle, cp: ClusterProjection, source: Object, ns: string, kind: string,
                  cell: Cell) returns (clock: nat)
    requires Lawful(orc) && cell.obj == ObjectAt(was, TargetKey(cp, ns, kind))
    ensures var (after, outcome) := WriteCell(orc, cp, source, kind, ns, cell, cell);
            CellDid(was, orc, cp, source, ns, kind, cell, after, outcome.reason, clock)
  {
    var key, plan, o := TargetKey(cp, ns, kind), ClusterPlan(source, cp, ns), ClusterOwner(cp);
    assert With(was, key, cell.obj) == was;
    clock := orc.version(ns);
    if orc.getFails(ns) {
      GetFailed(was, orc.version(ns), cell.sent, FaultsOf(orc), plan, kind, key, o);
    } else if cell.obj.None? {
      clock := CellCreated(was, orc, cp, source, ns, kind, cell);
    } else {
      clock := CellRefreshed(was, orc, cp, source, ns, kind, cell);
    }
  }

  lemma CellCreated(was: Objects, orc: Oracle, cp: ClusterProjection, source: Object, ns: string, kind: string,
                    cell: Cell) returns (clock: nat)
    requires Lawful(orc) && cell.obj == ObjectAt(was, TargetKey(cp, ns, kind)) && cell.obj.None? && !orc.getFails(ns)
    ensures var (after, outcome) := WriteCell(orc, cp, source, kind, ns, cell, cell);
            CellDid(was, orc, cp, source, ns, kind, cell, after, outcome.reason, clock)
  {
    var key, plan, o := TargetKey(cp, ns, kind), ClusterPlan(source, cp, ns), ClusterOwner(cp);
    var c := orc.version(ns);
    clock := if orc.writeFails(ns) then c else c + 1;
    if orc.writeFails(ns) {
      assert With(was, key, cell.obj) == was;
      CreateRefused(was, c, cell.sent, FaultsOf(orc), plan, kind, key, o);
    } else {
      var now := With(was, key, Some(Stored(orc.stored(ns, plan.Built()), c)));
      CreateAccepted(was, c, cell.sent, now, FaultsOf(orc), plan, kind, key, o);
    }
  }

  lemma CellRefreshed(was: Objects, orc: Oracle, cp: ClusterProjection, source: Object, ns: string, kind: string,
                      cell: Cell) returns (clock: nat)
    requires Lawful(orc) && cell.obj == ObjectAt(was, TargetKey(cp, ns, kind)) && cell.obj.Some? && !orc.getFails(ns)
    ensures var (after, outcome) := WriteCell(orc, cp, source, kind, ns, cell, cell);
            CellDid(was, orc, cp, source, ns, kind, cell, after, outcome.reason, clock)
  {
    var key, plan, o := TargetKey(cp, ns, kind), ClusterPlan(source, cp, ns), ClusterOwner(cp);
    var c, f, merged := orc.version(ns), FaultsOf(orc), Preserve(was[key].tree, plan.Built());
    clock := c;
    if !Owns(o, was[key].tree) {
      assert With(was, key, cell.obj) == was;
      Conflicted(was, c, cell.sent, f, plan, kind, key, o);
    } else if Agree(was[key].tree, merged) {
      assert With(was, key, cell.obj) == was;
      NothingToSay(was, c, cell.sent, f, plan, kind, key, o, merged);
    } else if orc.writeFails(ns) {
      UpdateLost(was, orc, cp, source, ns, kind, cell, merged);
    } else {
      clock := c + 1;
      UpdateStored(was, orc, cp, source, ns, kind, cell, merged);
    }
  }

  lemma UpdateLost(was: Objects, orc: Oracle, cp: ClusterProjection, source: Object, ns: string, kind: string,
                   cell: Cell, merged: Object)
    requires Lawful(orc) && cell.obj == ObjectAt(was, TargetKey(cp, ns, kind)) && cell.obj.Some? && !orc.getFails(ns)
    requires merged == Preserve(cell.obj.value.tree, ClusterPlan(source, cp, ns).Built()) && orc.writeFails(ns)
    requires Owns(ClusterOwner(cp), cell.obj.value.tree) && !Agree(cell.obj.value.tree, merged)
    ensures var (after, outcome) := WriteCell(orc, cp, source, kind, ns, cell, cell);
            CellDid(was, orc, cp, source, ns, kind, cell, after, outcome.reason, orc.version(ns))
  {
    var key, plan, o := TargetKey(cp, ns, kind), ClusterPlan(source, cp, ns), ClusterOwner(cp);
    var c, f := orc.version(ns), FaultsOf(orc);
    var update := Request(key, merged, Some(was[key].version));
    assert With(was, key, cell.obj) == was;
    UpdateRefused(was, c, cell.sent, f, plan, kind, key, o, merged);
    assert WriteCell(orc, cp, source, kind, ns, cell, cell).0 == Refused(update, cell);
  }

  lemma UpdateStored(was: Objects, orc: Oracle, cp: ClusterProjection, source: Object, ns: string, kind: string,
                     cell: Cell, merged: Object)
    requires Lawful(orc) && cell.obj == ObjectAt(was, TargetKey(cp, ns, kind)) && cell.obj.Some? && !orc.getFails(ns)
    requires merged == Preserve(cell.obj.value.tree, ClusterPlan(source, cp, ns).Built()) && !orc.writeFails(ns)
    requires Owns(ClusterOwner(cp), cell.obj.value.tree) && !Agree(cell.obj.value.tree, merged)
    ensures var (after, outcome) := WriteCell(orc, cp, source, kind, ns, cell, cell);
            CellDid(was, orc, cp, source, ns, kind, cell, after, outcome.reason, orc.version(ns) + 1)
  {
    var key, plan, o := TargetKey(cp, ns, kind), ClusterPlan(source, cp, ns), ClusterOwner(cp);
    var c, f := orc.version(ns), FaultsOf(orc);
    var update := Request(key, merged, Some(was[key].version));
    var now := With(was, key, Accepted(orc, ns, update, cell).obj);
    UpdateAccepted(was, c, cell.sent, now, f, plan, kind, key, o, merged);
    assert WriteCell(orc, cp, source, kind, ns, cell, cell).0 == Accepted(orc, ns, update, cell);
  }

  /** The object at a key after the fan-out: the cell's for a target, untouched otherwise. */
  function After(was: Objects, cells: map<string, Cell>, cp: ClusterProjection, kind: string, k: Key): Option<Stored>
  {
    if k.ns in cells && k == TargetKey(cp, k.ns, kind) then cells[k.ns].obj else ObjectAt(was, k)
  }

  /** The store with the targets' cells put back. */
  function Placed(was: Objects, cells: map<string, Cell>, cp: ClusterProjection, kind: string): Objects
  {
    map k | k in was.Keys + (set ns | ns in cells :: TargetKey(cp, ns, kind)) && After(was, cells, cp, kind, k).Some? ::
      After(was, cells, cp, kind, k).value
  }

  lemma PlacedAt(was: Objects, cells: map<string, Cell>, cp: ClusterProjection, kind: string, k: Key)
    ensures ObjectAt(Placed(was, cells, cp, kind), k) == After(was, cells, cp, kind, k)
  {
    if k.ns in cells && k == TargetKey(cp, k.ns, kind) {
      assert k in (set ns | ns in cells :: TargetKey(cp, ns, kind));
    }
  }

  /** The pool is set up for this ClusterProjection: its cells are the store's, its write is writeClusterDestination. */
  ghost predicate SetUp(c: F.Config<Cell>, was: Objects, orc: Oracle, cp: ClusterProjection, source: Object,
                        kind: string)
  {
    && F.Fit(c) && Lawful(orc)
    && c.cells.Keys == SetOf(c.targets)
    && (forall ns | ns in c.cells :: c.cells[ns].obj == ObjectAt(was, TargetKey(cp, ns, kind)))
    && (forall ns, fetched, current ::
          c.write(ns, fetched, current) == WriteCell(orc, cp, source, kind, ns, fetched, current))
  }

  /** One target of a finished pool: done as its own write does it, failed without a failing answer exactly if somebody
      else holds it, and left alone without a call if it is as planned already. */
  ghost predicate TargetPooled(c: F.Config<Cell>, s: F.Pool<Cell>, was: Objects, orc: Oracle, cp: ClusterProjection,
                               source: Object, kind: string, t: string)
  {
    && t in c.cells && t in s.cells
    && TargetDone(was, Placed(was, s.cells, cp, kind), cp, source, t, kind, t in s.rollup.failures)
    && (GoodAt(orc, t) ==> (t in s.rollup.failures <==> !TargetFree(was, cp, t, kind)))
    && (InPlace(was, cp, source, t, kind) ==> s.cells[t] == c.cells[t])
    && TargetSaid(c, s, was, orc, cp, source, kind, t)
  }

  /** What was said at one target, and the reason its failure is reported with. */
  ghost predicate TargetSaid(c: F.Config<Cell>, s: F.Pool<Cell>, was: Objects, orc: Oracle, cp: ClusterProjection,
                             source: Object, kind: string, t: string)
    requires t in c.cells && t in s.cells
  {
    var key := TargetKey(cp, t, kind);
    exists reason ::
      && Exchange(was, c.cells[t].sent, s.cells[t].sent, Placed(was, s.cells, cp, kind), orc.getFails(t),
                  orc.writeFails(t), ClusterPlan(source, cp, t), key, ClusterOwner(cp), reason)
      && (if reason == "" then t !in s.rollup.failures
          else t in s.rollup.failures && s.rollup.failures[t] == reason + ": ")
  }

  lemma TargetFannedOut(c: F.Config<Cell>, s: F.Pool<Cell>, was: Objects, orc: Oracle, cp: ClusterProjection,
                        source: Object, kind: string, t: string)
    requires SetUp(c, was, orc, cp, source, kind) && t in c.targets
    requires (s.cells, s.rollup) == F.Loop(c.targets, c.cells, c.write)
    ensures TargetPooled(c, s, was, orc, cp, source, kind, t)
  {
    var k, now := TargetKey(cp, t, kind), Placed(was, s.cells, cp, kind);
    F.LoopOutcomes(c, t);
    PlacedAt(was, s.cells, cp, kind, k);
    var (after, outcome) := WriteCell(orc, cp, source, kind, t, c.cells[t], c.cells[t]);
    assert c.write(t, c.cells[t], c.cells[t]) == (after, outcome);
    var clock := CellWrote(was, orc, cp, source, t, kind, c.cells[t]);
    var alone := With(was, k, after.obj);
    TargetWritten(was, was, alone, |after.sent| - |c.cells[t].sent|, GoodAt(orc, t), cp, source, t, kind,
                  outcome.reason);
    assert ObjectAt(alone, k) == after.obj;
    SaidHere(c, s, was, orc, cp, source, kind, t, alone, outcome.reason);
    TargetKept(was, alone, now, cp, source, t, kind, outcome.reason != "");
    if InPlace(was, cp, source, t, kind) {
      assert alone == was && |after.sent| == |c.cells[t].sent| && c.cells[t].sent <= after.sent;
    }
  }

  lemma SaidHere(c: F.Config<Cell>, s: F.Pool<Cell>, was: Objects, orc: Oracle, cp: ClusterProjection, source: Object,
                 kind: string, t: string, alone: Objects, reason: string)
    requires t in c.cells && t in s.cells
    requires Exchange(was, c.cells[t].sent, s.cells[t].sent, alone, orc.getFails(t), orc.writeFails(t),
                      ClusterPlan(source, cp, t), TargetKey(cp, t, kind), ClusterOwner(cp), reason)
    requires Same(alone, Placed(was, s.cells, cp, kind), TargetKey(cp, t, kind))
    requires if reason == "" then t !in s.rollup.failures
             else t in s.rollup.failures && s.rollup.failures[t] == reason + ": "
    ensures TargetSaid(c, s, was, orc, cp, source, kind, t)
  {
    assert Exchange(was, c.cells[t].sent, s.cells[t].sent, Placed(was, s.cells, cp, kind), orc.getFails(t),
                    orc.writeFails(t), ClusterPlan(source, cp, t), TargetKey(cp, t, kind), ClusterOwner(cp), reason);
  }

  ghost predicate AllGood(orc: Oracle, targets: set<string>)
  {
    forall t | t in targets :: GoodAt(orc, t)
  }

  /** Each target is on its own: with good answers at it, it fails exactly if somebody else holds it. */
  ghost predicate OnTheirOwn(orc: Oracle, was: Objects, cp: ClusterProjection, targets: set<string>, kind: string,
                             failures: set<string>)
  {
    forall t | t in targets && GoodAt(orc, t) :: t in failures <==> !TargetFree(was, cp, t, kind)
  }

  ghost predicate AllPooled(c: F.Config<Cell>, s: F.Pool<Cell>, was: Objects, orc: Oracle, cp: ClusterProjection,
                            source: Object, kind: string)
  {
    forall t | t in SetOf(c.targets) :: TargetPooled(c, s, was, orc, cp, source, kind, t)
  }

  lemma PoolTargets(c: F.Config<Cell>, s: F.Pool<Cell>, was: Objects, orc: Oracle, cp: ClusterProjection,
                    source: Object, kind: string)
    requires SetUp(c, was, orc, cp, source, kind) && F.Inv(c, s) && s.done
    ensures AllPooled(c, s, was, orc, cp, source, kind)
    ensures s.cells.Keys == SetOf(c.targets) && s.rollup.failures.Keys <= SetOf(c.targets)
  {
    F.PoolRefinesLoop(c, s);
    forall t | t in SetOf(c.targets) ensures TargetPooled(c, s, was, orc, cp, source, kind, t) {
      TargetFannedOut(c, s, was, orc, cp, source, kind, t);
    }
  }

  lemma PooledIsFannedOut(c: F.Config<Cell>, s: F.Pool<Cell>, was: Objects, orc: Oracle, cp: ClusterProjection,
                          source: Object, kind: string)
    requires AllPooled(c, s, was, orc, cp, source, kind)
    requires s.cells.Keys == SetOf(c.targets) && s.rollup.failures.Keys <= SetOf(c.targets)
    ensures FannedOut(was, Placed(was, s.cells, cp, kind), cp, source, SetOf(c.targets), kind, s.rollup.failures.Keys)
  {
    var now := Placed(was, s.cells, cp, kind);
    forall t | t in SetOf(c.targets) ensures TargetDone(was, now, cp, source, t, kind, t in s.rollup.failures.Keys) {
      assert TargetPooled(c, s, was, orc, cp, source, kind, t);
    }
    forall k | !IsTarget(k, cp, SetOf(c.targets), kind) ensures Same(was, now, k) {
      PlacedAt(was, s.cells, cp, kind, k);
    }
  }

  lemma PooledOnTheirOwn(c: F.Config<Cell>, s: F.Pool<Cell>, was: Objects, orc: Oracle, cp: ClusterProjection,
                         source: Object, kind: string)
    requires AllPooled(c, s, was, orc, cp, source, kind)
    ensures OnTheirOwn(orc, was, cp, SetOf(c.targets), kind, s.rollup.failures.Keys)
  {
    forall t | t in SetOf(c.targets) && GoodAt(orc, t)
      ensures t in s.rollup.failures.Keys <==> !TargetFree(was, cp, t, kind)
    {
      assert TargetPooled(c, s, was, orc, cp, source, kind, t);
    }
  }

  /** Targets that are as planned already have the cells they had. */
  ghost predicate Quiet(c: F.Config<Cell>, s: F.Pool<Cell>, was: Objects, cp: ClusterProjection, source: Object,
                        kind: string)
  {
    forall t | t in s.cells && InPlace(was, cp, source, t, kind) :: t in c.cells && s.cells[t] == c.cells[t]
  }

  lemma PooledIsQuiet(c: F.Config<Cell>, s: F.Pool<Cell>, was: Objects, orc: Oracle, cp: ClusterProjection,
                      source: Object, kind: string)
    requires AllPooled(c, s, was, orc, cp, source, kind) && s.cells.Keys == SetOf(c.targets)
    ensures Quiet(c, s, was, cp, source, kind)
  {
    forall t | t in s.cells && InPlace(was, cp, source, t, kind) ensures t in c.cells && s.cells[t] == c.cells[t] {
      assert TargetPooled(c, s, was, orc, cp, source, kind, t);
    }
  }

  lemma QuietMeans(c: F.Config<Cell>, s: F.Pool<Cell>, was: Objects, cp: ClusterProjection, source: Object,
                   kind: string)
    requires Quiet(c, s, was, cp, source, kind) && s.cells.Keys == c.cells.Keys
    requires AllInPlace(was, cp, source, s.cells.Keys, kind)
    ensures s.cells == c.cells
  {
  }

  /** Every schedule and every worker count: a finished pool has written each target as planned or left it untouched,
      changed nothing else, and reports exactly the targets it left as failed. A target whose own answers are good fails
      exactly if somebody else holds it, whatever happens at the others; targets that are as planned already cause no
      call. */
  lemma PoolFansOut(c: F.Config<Cell>, s: F.Pool<Cell>, was: Objects, orc: Oracle, cp: ClusterProjection,
                    source: Object, kind: string)
    requires SetUp(c, was, orc, cp, source, kind) && F.Inv(c, s) && s.done
    ensures FannedOut(was, Placed(was, s.cells, cp, kind), cp, source, SetOf(c.targets), kind, s.rollup.failures.Keys)
    ensures OnTheirOwn(orc, was, cp, SetOf(c.targets), kind, s.rollup.failures.Keys)
    ensures AllInPlace(was, cp, source, SetOf(c.targets), kind) ==> s.cells == c.cells
    ensures forall t | t in c.targets ::
              t in c.cells && t in s.cells && TargetSaid(c, s, was, orc, cp, source, kind, t)
  {
    PoolTargets(c, s, was, orc, cp, source, kind);
    PooledIsFannedOut(c, s, was, orc, cp, source, kind);
    PooledOnTheirOwn(c, s, was, orc, cp, source, kind);
    PooledIsQuiet(c, s, was, orc, cp, source, kind);
    if AllInPlace(was, cp, source, SetOf(c.targets), kind) {
      QuietMeans(c, s, was, cp, source, kind);
    }
  }

  lemma AllOnTheirOwn(orc: Oracle, was: Objects, cp: ClusterProjection, targets: set<string>, kind: string,
                      failures: set<string>)
    requires OnTheirOwn(orc, was, cp, targets, kind, failures) && failures <= targets
    requires AllGood(orc, targets) && AllFree(was, cp, targets, kind)
    ensures failures == {}
  {
  }

  /** The concurrent fan-out converges: with good answers, free targets and a stampable source, nothing fails and after
      the stale sweep the cluster matches the spec. */
  lemma PoolConverges(c: F.Config<Cell>, s: F.Pool<Cell>, was: Objects, now: Objects, orc: Oracle,
                      cp: ClusterProjection, source: Object, kind: string)
    requires SetUp(c, was, orc, cp, source, kind) && F.Inv(c, s) && s.done && Stampable(source)
    requires AllGood(orc, SetOf(c.targets)) && AllFree(was, cp, SetOf(c.targets), kind)
    requires var mid := Placed(was, s.cells, cp, kind);
             now == mid - Swept(mid, ClusterOwner(cp), kind, Some(SetOf(c.targets)))
    ensures s.rollup.failures.Keys == {}
    ensures Converged(now, cp, source, SetOf(c.targets), kind)
  {
    PoolTargets(c, s, was, orc, cp, source, kind);
    PooledOnTheirOwn(c, s, was, orc, cp, source, kind);
    AllOnTheirOwn(orc, was, cp, SetOf(c.targets), kind, s.rollup.failures.Keys);
    PooledIsFannedOut(c, s, was, orc, cp, source, kind);
    ConvergedAfterSweep(was, Placed(was, s.cells, cp, kind), now, cp, source, SetOf(c.targets), kind);
  }
}
