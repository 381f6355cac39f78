/** The write phase of a ClusterProjection: the fan-out over its targets, and the sweep of what is no longer one. */
module ClusterWrites {
  import opened Wrappers
  import opened Json
  import opened Types
  import opened Destination
  import opened Transform
  import opened Preservation
  import opened ApiServer
  import opened Cleanup
  import opened Writer
  import opened Lists
  import F = FanOut

  function TargetKey(cp: ClusterProjection, t: string, kind: string): Key
  {
    Key(kind, t, ClusterDestinationName(cp))
  }

  predicate IsTarget(k: Key, cp: ClusterProjection, targets: set<string>, kind: string)
  {
    k.ns in targets && k == TargetKey(cp, k.ns, kind)
  }

  /** The key is free or already this ClusterProjection's. */
  predicate TargetFree(was: Objects, cp: ClusterProjection, t: string, kind: string)
  {
    TargetKey(cp, t, kind) in was ==> Owns(ClusterOwner(cp), was[TargetKey(cp, t, kind)].tree)
  }

  /** The target holds what a write of its plan delivered. */
  ghost predicate Landed(now: Objects, cp: ClusterProjection, source: Object, t: string, kind: string)
  {
    TargetKey(cp, t, kind) in now && Delivered(now[TargetKey(cp, t, kind)].tree, ClusterPlan(source, cp, t))
  }

  /** One target after the fan-out: as planned if its write succeeded, untouched if it failed. */
  ghost predicate TargetDone(was: Objects, now: Objects, cp: ClusterProjection, source: Object, t: string,
                             kind: string, failed: bool)
  {
    var k := TargetKey(cp, t, kind);
    && (!failed ==> Landed(now, cp, source, t, kind))
    && (failed ==> Same(was, now, k))
    && (!TargetFree(was, cp, t, kind) ==> failed)
  }

  /** The fan-out has dealt with the namespaces in `done` and touched nothing else. */
  ghost predicate FannedOut(was: Objects, now: Objects, cp: ClusterProjection, source: Object, done: set<string>,
                            kind: string, failures: set<string>)
  {
    && failures <= done
    && (forall k | !IsTarget(k, cp, done, kind) :: Same(was, now, k))
    && (forall t | t in done :: TargetDone(was, now, cp, source, t, kind, t in failures))
  }

  lemma TargetKept(was: Objects, before: Objects, now: Objects, cp: ClusterProjection, source: Object, t: string,
                   kind: string, failed: bool)
    requires TargetDone(was, before, cp, source, t, kind, failed) && Same(before, now, TargetKey(cp, t, kind))
    ensures TargetDone(was, now, cp, source, t, kind, failed)
  {
  }

  lemma TargetWritten(was: Objects, before: Objects, now: Objects, sent: int, answers: bool, cp: ClusterProjection,
                      source: Object, t: string, kind: string, reason: string)
    requires Same(was, before, TargetKey(cp, t, kind))
    requires Wrote(before, now, sent, answers, ClusterPlan(source, cp, t), kind, ClusterOwner(cp), reason)
    ensures TargetDone(was, now, cp, source, t, kind, reason != "")
    ensures forall k | k != TargetKey(cp, t, kind) :: Same(before, now, k)
    ensures answers && TargetFree(was, cp, t, kind) ==> reason == ""
    ensures sent >= 0
    ensures InPlace(before, cp, source, t, kind) ==> now == before && sent == 0
  {
  }

  /** The target already holds the planned object. */
  ghost predicate InPlace(was: Objects, cp: ClusterProjection, source: Object, t: string, kind: string)
  {
    TargetKey(cp, t, kind) in was && UpToDate(was[TargetKey(cp, t, kind)].tree, ClusterPlan(source, cp, t))
  }

  ghost predicate AllInPlace(was: Objects, cp: ClusterProjection, source: Object, targets: set<string>, kind: string)
  {
    forall t | t in targets :: InPlace(was, cp, source, t, kind)
  }

  lemma FannedOutStep(was: Objects, before: Objects, now: Objects, cp: ClusterProjection, source: Object,
                      done: set<string>, t: string, kind: string, failures: set<string>, failed: bool)
    requires FannedOut(was, before, cp, source, done, kind, failures) && t !in done
    requires TargetDone(was, now, cp, source, t, kind, failed)
    requires forall k | k != TargetKey(cp, t, kind) :: Same(before, now, k)
    ensures FannedOut(was, now, cp, source, done + {t}, kind, if failed then failures + {t} else failures)
  {
    var failures' := if failed then failures + {t} else failures;
    forall u | u in done + {t} ensures TargetDone(was, now, cp, source, u, kind, u in failures') {
      if u != t {
        TargetKept(was, before, now, cp, source, u, kind, u in failures);
      }
    }
    forall k | !IsTarget(k, cp, done + {t}, kind) ensures Same(was, now, k) {
      assert !IsTarget(k, cp, done, kind) && Same(was, before, k) && Same(before, now, k);
    }
  }

  predicate TargetAnswers(f: Faults, cp: ClusterProjection, t: string, kind: string)
  {
    Answers(f, TargetKey(cp, t, kind))
  }

  /** Each target is on its own: if its own calls go through, it fails exactly if somebody else holds it, whatever
      happens at the others. */
  ghost predicate Isolated(f: Faults, was: Objects, cp: ClusterProjection, done: set<string>, kind: string,
                           failures: set<string>)
  {
    forall t | t in done && TargetAnswers(f, cp, t, kind) :: t in failures <==> !TargetFree(was, cp, t, kind)
  }

  lemma IsolatedStep(f: Faults, was: Objects, cp: ClusterProjection, done: set<string>, t: string, kind: string,
                     failures: set<string>, failed: bool)
    requires Isolated(f, was, cp, done, kind, failures) && t !in done && failures <= done
    requires TargetAnswers(f, cp, t, kind) ==> (failed <==> !TargetFree(was, cp, t, kind))
    ensures Isolated(f, was, cp, done + {t}, kind, if failed then failures + {t} else failures)
  {
  }

  ghost predicate AllAnswer(f: Faults, cp: ClusterProjection, targets: set<string>, kind: string)
  {
    forall t | t in targets :: TargetAnswers(f, cp, t, kind)
  }

  predicate AllFree(was: Objects, cp: ClusterProjection, targets: set<string>, kind: string)
  {
    forall t | t in targets :: TargetFree(was, cp, t, kind)
  }

  lemma NoneFail(f: Faults, was: Objects, cp: ClusterProjection, targets: set<string>, kind: string,
                 failures: set<string>)
    requires Isolated(f, was, cp, targets, kind, failures) && failures <= targets
    requires AllAnswer(f, cp, targets, kind) && AllFree(was, cp, targets, kind)
    ensures failures == {}
  {
  }

  /** The targets written one after the other, each by one write on what the one before left. */
  ghost predicate WrittenInOrder(was: Objects, clock: nat, targets: seq<string>, now: Objects, clock': nat,
                                 cp: ClusterProjection, source: Object, kind: string)
    decreases |targets|
  {
    if targets == [] then now == was && clock' == clock
    else
      var n := |targets| - 1;
      exists mid, c ::
        && WrittenInOrder(was, clock, targets[..n], mid, c, cp, source, kind)
        && TargetWrite(mid, c, now, clock', cp, source, targets[n], kind)
  }

  ghost predicate TargetWrite(was: Objects, clock: nat, now: Objects, clock': nat, cp: ClusterProjection,
                              source: Object, t: string, kind: string)
  {
    OneWrite(was, clock, now, clock', ClusterPlan(source, cp, t), TargetKey(cp, t, kind), ClusterOwner(cp))
  }

  /** What the fan-out says to the server, target after target, with the reason that each one's failure is reported
      with: every target gets its own attempt, on what is at its own key, whatever became of the others. */
  ghost predicate Told(was: Objects, before: seq<Request>, targets: seq<string>, after: seq<Request>, now: Objects,
                       failures: map<string, string>, f: Faults, cp: ClusterProjection, source: Object, kind: string)
    decreases |targets|
  {
    if targets == [] then after == before
    else
      var n := |targets| - 1;
      exists mid, reason ::
        && Told(was, before, targets[..n], mid, now, failures, f, cp, source, kind)
        && TargetExchange(was, mid, after, now, failures, f, cp, source, targets[n], kind, reason)
  }

  ghost predicate TargetExchange(was: Objects, before: seq<Request>, after: seq<Request>, now: Objects,
                                 failures: map<string, string>, f: Faults, cp: ClusterProjection, source: Object,
                                 t: string, kind: string, reason: string)
  {
    var key := TargetKey(cp, t, kind);
    && Exchange(was, before, after, now, f.get(Cached, key), f.write(key), ClusterPlan(source, cp, t), key,
                ClusterOwner(cp), reason)
    && (if reason == "" then t !in failures else t in failures && failures[t] == reason + ": ")
  }

  /** An exchange is about its own key and its own entry. */
  lemma ExchangeLocal(was: Objects, was': Objects, before: seq<Request>, after: seq<Request>, now: Objects,
                      now': Objects, failures: map<string, string>, failures': map<string, string>, f: Faults,
                      cp: ClusterProjection, source: Object, t: string, kind: string, reason: string)
    requires TargetExchange(was, before, after, now, failures, f, cp, source, t, kind, reason)
    requires Same(was, was', TargetKey(cp, t, kind)) && Same(now, now', TargetKey(cp, t, kind))
    requires (t in failures' <==> t in failures) && (t in failures ==> failures'[t] == failures[t])
    ensures TargetExchange(was', before, after, now', failures', f, cp, source, t, kind, reason)
  {
  }

  lemma {:induction false} ToldKept(was: Objects, before: seq<Request>, targets: seq<string>, after: seq<Request>,
                                    now: Objects, now': Objects, failures: map<string, string>,
                                    failures': map<string, string>, f: Faults, cp: ClusterProjection, source: Object,
                                    kind: string)
    requires Told(was, before, targets, after, now, failures, f, cp, source, kind)
    requires forall t | t in targets :: Same(now, now', TargetKey(cp, t, kind))
    requires forall t | t in targets ::
               (t in failures' <==> t in failures) && (t in failures ==> failures'[t] == failures[t])
    ensures Told(was, before, targets, after, now', failures', f, cp, source, kind)
    decreases |targets|
  {
    if targets != [] {
      var n := |targets| - 1;
      var mid, reason :| Told(was, before, targets[..n], mid, now, failures, f, cp, source, kind) &&
                         TargetExchange(was, mid, after, now, failures, f, cp, source, targets[n], kind, reason);
      ToldKept(was, before, targets[..n], mid, now, now', failures, failures', f, cp, source, kind);
      assert targets[n] in targets;
      ExchangeLocal(was, was, mid, after, now, now', failures, failures', f, cp, source, targets[n], kind, reason);
    }
  }

  lemma ToldStep(was: Objects, before: seq<Request>, targets: seq<string>, i: nat, mid: seq<Request>,
                 after: seq<Request>, now: Objects, failures: map<string, string>, f: Faults, cp: ClusterProjection,
                 source: Object, kind: string, reason: string)
    requires i < |targets| && Told(was, before, targets[..i], mid, now, failures, f, cp, source, kind)
    requires TargetExchange(was, mid, after, now, failures, f, cp, source, targets[i], kind, reason)
    ensures Told(was, before, targets[..i + 1], after, now, failures, f, cp, source, kind)
  {
    var upto := targets[..i + 1];
    assert upto[..|upto| - 1] == targets[..i] && upto[|upto| - 1] == targets[i];
  }

  lemma InOrderStep(was: Objects, clock: nat, targets: seq<string>, i: nat, mid: Objects, c: nat, now: Objects,
                    clock': nat, cp: ClusterProjection, source: Object, kind: string)
    requires i < |targets| && WrittenInOrder(was, clock, targets[..i], mid, c, cp, source, kind)
    requires TargetWrite(mid, c, now, clock', cp, source, targets[i], kind)
    ensures WrittenInOrder(was, clock, targets[..i + 1], now, clock', cp, source, kind)
  {
    var upto := targets[..i + 1];
    assert upto[..|upto| - 1] == targets[..i] && upto[|upto| - 1] == targets[i];
  }

  /** The fan-out after the targets in `done`: the store, and the counts and failures so far. */
  ghost predicate Going(was: Objects, now: Objects, f: Faults, cp: ClusterProjection, source: Object,
                        done: set<string>, kind: string, r: F.Rollup)
  {
    && r.failed == |r.failures|
    && FannedOut(was, now, cp, source, done, kind, r.failures.Keys)
    && Isolated(f, was, cp, done, kind, r.failures.Keys)
  }

  /** One job of the fan-out, counted. */
  method WriteTarget(api: Server, cp: ClusterProjection, source: Object, ns: string, kind: string, r: F.Rollup,
                     ghost was: Objects, ghost done: set<string>) returns (r': F.Rollup)
    requires Going(was, api.objects, api.faults, cp, source, done, kind, r) && ns !in done
    modifies api
    ensures Going(was, api.objects, api.faults, cp, source, done + {ns}, kind, r')
    ensures r'.written + r'.failed == r.written + r.failed + 1
    ensures old(api.requests) <= api.requests
    ensures TargetWrite(old(api.objects), old(api.clock), api.objects, api.clock, cp, source, ns, kind)
    ensures forall k | k != TargetKey(cp, ns, kind) :: Same(old(api.objects), api.objects, k)
    ensures Entered(r.failures, r'.failures, ns)
    ensures exists reason :: TargetExchange(was, old(api.requests), api.requests, api.objects, r'.failures, api.faults,
                                            cp, source, ns, kind, reason)
    ensures InPlace(old(api.objects), cp, source, ns, kind) ==>
              api.objects == old(api.objects) && api.requests == old(api.requests)
  {
    ghost var before, clock, requests := api.objects, api.clock, api.requests;
    var reason := WriteClusterDestination(api, cp, source, ns, kind);
    r' := Counted(r, ns, reason);
    TargetGoing(was, before, clock, requests, api.objects, api.clock, api.requests, api.faults, cp, source, done, ns,
                kind, r, r', reason);
    TargetTold(was, before, clock, requests, api.objects, api.clock, api.requests, api.faults, cp, source, done, ns,
               kind, r, r', reason);
  }

  /** One write of the fan-out, as `Writer.WriteClusterDestination` promises it. */
  ghost predicate TargetDid(was: Objects, clock: nat, before: seq<Request>, now: Objects, clock': nat,
                            after: seq<Request>, f: Faults, cp: ClusterProjection, source: Object, t: string,
                            kind: string, reason: string)
  {
    Write(was, clock, before, now, clock', after, f, ClusterPlan(source, cp, t), kind, TargetKey(cp, t, kind),
          ClusterOwner(cp), reason)
  }

  lemma TargetGoing(was: Objects, mid: Objects, clock: nat, before: seq<Request>, now: Objects, clock': nat,
                    after: seq<Request>, f: Faults, cp: ClusterProjection, source: Object, done: set<string>, t: string,
                    kind: string, r: F.Rollup, r': F.Rollup, reason: string)
    requires Going(was, mid, f, cp, source, done, kind, r) && t !in done && r' == Counted(r, t, reason)
    requires TargetDid(mid, clock, before, now, clock', after, f, cp, source, t, kind, reason)
    ensures Going(was, now, f, cp, source, done + {t}, kind, r')
    ensures InPlace(mid, cp, source, t, kind) ==> now == mid && |after| == |before|
    ensures forall k | k != TargetKey(cp, t, kind) :: Same(mid, now, k)
    ensures |after| >= |before|
  {
    var answers := TargetAnswers(f, cp, t, kind);
    assert !IsTarget(TargetKey(cp, t, kind), cp, done, kind);
    TargetWritten(was, mid, now, |after| - |before|, answers, cp, source, t, kind, reason);
    FannedOutStep(was, mid, now, cp, source, done, t, kind, r.failures.Keys, reason != "");
    IsolatedStep(f, was, cp, done, t, kind, r.failures.Keys, reason != "");
  }

  lemma TargetTold(was: Objects, mid: Objects, clock: nat, before: seq<Request>, now: Objects, clock': nat,
                   after: seq<Request>, f: Faults, cp: ClusterProjection, source: Object, done: set<string>, t: string,
                   kind: string, r: F.Rollup, r': F.Rollup, reason: string)
    requires Going(was, mid, f, cp, source, done, kind, r) && t !in done && r' == Counted(r, t, reason)
    requires TargetDid(mid, clock, before, now, clock', after, f, cp, source, t, kind, reason)
    ensures TargetExchange(was, before, after, now, r'.failures, f, cp, source, t, kind, reason)
    ensures Entered(r.failures, r'.failures, t) && before <= after
  {
    assert !IsTarget(TargetKey(cp, t, kind), cp, done, kind);
    assert t !in r.failures;
    assert TargetExchange(mid, before, after, now, r'.failures, f, cp, source, t, kind, reason);
    ExchangeLocal(mid, was, before, after, now, now, r'.failures, r'.failures, f, cp, source, t, kind, reason);
  }

  /** Nothing but the entry of `t` was changed. */
  ghost predicate Entered(failures: map<string, string>, failures': map<string, string>, t: string)
  {
    forall u | u != t :: (u in failures' <==> u in failures) && (u in failures ==> failures'[u] == failures[u])
  }

  /** fanOut, as the plain loop that every schedule of the worker pool agrees with (`FanOut.RunPool`,
      `PooledWrites.PoolFansOut`). */
  method WriteTargets(api: Server, cp: ClusterProjection, source: Object, targets: seq<string>, kind: string)
    returns (r: F.Rollup)
    requires Distinct(targets)
    modifies api
    ensures r.written + r.failed == |targets|
    ensures Going(old(api.objects), api.objects, api.faults, cp, source, SetOf(targets), kind, r)
    ensures WrittenInOrder(old(api.objects), old(api.clock), targets, api.objects, api.clock, cp, source, kind)
    ensures Told(old(api.objects), old(api.requests), targets, api.requests, api.objects, r.failures, api.faults, cp,
                 source, kind)
    ensures old(api.requests) <= api.requests
    ensures AllInPlace(old(api.objects), cp, source, SetOf(targets), kind) ==>
              api.objects == old(api.objects) && api.requests == old(api.requests)
  {
    r := F.Rollup(0, 0, map[]);
    ghost var was, clock := api.objects, api.clock;
    for i := 0 to |targets|
      invariant r.written + r.failed == i
      invariant Going(was, api.objects, api.faults, cp, source, SetOf(targets[..i]), kind, r)
      invariant WrittenInOrder(was, clock, targets[..i], api.objects, api.clock, cp, source, kind)
      invariant Told(was, old(api.requests), targets[..i], api.requests, api.objects, r.failures, api.faults, cp,
                     source, kind)
      invariant old(api.requests) <= api.requests
      invariant AllInPlace(was, cp, source, SetOf(targets), kind) ==>
                api.objects == was && api.requests == old(api.requests)
    {
      NextTarget(targets, i);
      ghost var mid, c, upto, failures := api.objects, api.clock, api.requests, r.failures;
      r := WriteTarget(api, cp, source, targets[i], kind, r, was, SetOf(targets[..i]));
      InOrderStep(was, clock, targets, i, mid, c, api.objects, api.clock, cp, source, kind);
      ghost var reason :| TargetExchange(was, upto, api.requests, api.objects, r.failures, api.faults, cp, source,
                                         targets[i], kind, reason);
      ToldKept(was, old(api.requests), targets[..i], upto, mid, api.objects, failures, r.failures, api.faults, cp,
               source, kind);
      ToldStep(was, old(api.requests), targets, i, upto, api.requests, api.objects, r.failures, api.faults, cp, source,
               kind, reason);
    }
    assert targets[..|targets|] == targets;
  }

  lemma NextTarget(targets: seq<string>, i: nat)
    requires Distinct(targets) && i < |targets|
    ensures targets[i] in SetOf(targets) && targets[i] !in SetOf(targets[..i])
    ensures SetOf(targets[..i + 1]) == SetOf(targets[..i]) + {targets[i]}
  {
    assert targets[..i + 1] == targets[..i] + [targets[i]];
  }

  function Counted(r: F.Rollup, ns: string, reason: string): (r': F.Rollup)
    ensures r'.failures.Keys == if reason != "" then r.failures.Keys + {ns} else r.failures.Keys
    ensures ns !in r.failures && r.failed == |r.failures| ==> r'.failed == |r'.failures|
    ensures r'.written + r'.failed == r.written + r.failed + 1
  {
    F.Count(r, F.Result(ns, F.Outcome(reason, "")))
  }

  /** The store after fan-out and stale sweep: targets are done, nothing else was written, and an object was removed
      only if it carried both marks in a namespace that is no target. */
  ghost predicate Projected(was: Objects, now: Objects, cp: ClusterProjection, source: Object, targets: set<string>,
                            kind: string, failures: set<string>)
  {
    && (forall t | t in targets :: TargetDone(was, now, cp, source, t, kind, t in failures))
    && (forall k | k in now && !IsTarget(k, cp, targets, kind) :: k in was && now[k] == was[k])
    && (forall k | k in was && k !in now :: Entitled(ClusterOwner(cp), kind, Some(targets), k, was[k]))
  }

  lemma SweepAfterFanOut(was: Objects, mid: Objects, now: Objects, cp: ClusterProjection, source: Object,
                         targets: set<string>, kind: string, failures: set<string>)
    requires FannedOut(was, mid, cp, source, targets, kind, failures)
    requires RemovedWithin(mid, now, Swept(mid, ClusterOwner(cp), kind, Some(targets)))
    ensures Projected(was, now, cp, source, targets, kind, failures)
  {
    forall t | t in targets
      ensures TargetDone(was, now, cp, source, t, kind, t in failures)
      ensures (TargetKey(cp, t, kind) in was ==> TargetKey(cp, t, kind) in now)
    {
      assert Same(mid, now, TargetKey(cp, t, kind));
      TargetKept(was, mid, now, cp, source, t, kind, t in failures);
    }
    forall k | k in now && !IsTarget(k, cp, targets, kind) ensures k in was && now[k] == was[k] {
      assert Same(was, mid, k);
    }
    forall k | k in was && k !in now ensures Entitled(ClusterOwner(cp), kind, Some(targets), k, was[k]) {
      if !IsTarget(k, cp, targets, kind) {
        assert Same(was, mid, k);
      }
    }
  }

  /** A copy under an earlier destination name, in a namespace that is still a target. */
  predicate OldCopy(objects: Objects, cp: ClusterProjection, targets: set<string>, kind: string, k: Key)
  {
    && k in objects && k.kind == kind && k.ns in targets && k.name != ClusterDestinationName(cp)
    && Labelled(ClusterOwner(cp), objects[k].tree) && Owns(ClusterOwner(cp), objects[k].tree)
  }

  /** The sweep keeps whole namespaces: it neither removes nor adds a copy under an earlier name, so a rename is
      complete exactly when no target namespace held such a copy before. */
  lemma OldCopiesSurvive(was: Objects, now: Objects, cp: ClusterProjection, source: Object, targets: set<string>,
                         kind: string, failures: set<string>, k: Key)
    requires Projected(was, now, cp, source, targets, kind, failures)
    ensures OldCopy(now, cp, targets, kind, k) <==> OldCopy(was, cp, targets, kind, k)
  {
    assert k.name != ClusterDestinationName(cp) ==> !IsTarget(k, cp, targets, kind);
  }

  /** An object of the kind with both marks. */
  predicate Marked(now: Objects, cp: ClusterProjection, kind: string, k: Key)
    requires k in now
  {
    k.kind == kind && Labelled(ClusterOwner(cp), now[k].tree) && Owns(ClusterOwner(cp), now[k].tree)
  }

  /** The cluster matches the spec: the namespaces that hold an object of the kind with both marks are exactly the
      targets, and each target holds the planned object under the destination name. */
  ghost predicate Converged(now: Objects, cp: ClusterProjection, source: Object, targets: set<string>, kind: string)
  {
    && (forall t | t in targets :: Landed(now, cp, source, t, kind))
    && (set k | k in now && Marked(now, cp, kind, k) :: k.ns) == targets
  }

  lemma ConvergedAfterSweep(was: Objects, mid: Objects, now: Objects, cp: ClusterProjection, source: Object,
                            targets: set<string>, kind: string)
    requires FannedOut(was, mid, cp, source, targets, kind, {}) && Stampable(source)
    requires now == mid - Swept(mid, ClusterOwner(cp), kind, Some(targets))
    ensures Converged(now, cp, source, targets, kind)
  {
    var marked := set k | k in now && Marked(now, cp, kind, k) :: k.ns;
    forall t | t in targets
      ensures Landed(now, cp, source, t, kind) && t in marked
    {
      var k := TargetKey(cp, t, kind);
      assert TargetDone(was, mid, cp, source, t, kind, false);
      ClusterPlanMarks(mid[k].tree, source, cp, t);
      assert k in now && k.ns == t;
    }
    forall ns | ns in marked ensures ns in targets {
      var k :| k in now && Marked(now, cp, kind, k) && k.ns == ns;
      assert k !in Swept(mid, ClusterOwner(cp), kind, Some(targets));
    }
  }

  /** In a converged cluster with a well-rooted source no target needs a write. */
  lemma ConvergedInPlace(now: Objects, cp: ClusterProjection, source: Object, targets: set<string>, kind: string)
    requires Converged(now, cp, source, targets, kind) && WellRooted(source)
    ensures AllInPlace(now, cp, source, targets, kind)
  {
    forall t | t in targets ensures InPlace(now, cp, source, t, kind) {
      assert Landed(now, cp, source, t, kind);
      DeliveredIsUpToDate(now[TargetKey(cp, t, kind)].tree, ClusterPlan(source, cp, t));
    }
  }

  /** Nothing is stale in a converged cluster, so the sweep removes nothing. */
  lemma ConvergedStays(was: Objects, now: Objects, cp: ClusterProjection, source: Object, targets: set<string>,
                       kind: string)
    requires Converged(was, cp, source, targets, kind)
    requires RemovedWithin(was, now, Swept(was, ClusterOwner(cp), kind, Some(targets)))
    ensures now == was
  {
    forall k | k in was ensures k in now {
      if Entitled(ClusterOwner(cp), kind, Some(targets), k, was[k]) {
        assert false;
      }
    }
  }

  /** Fan-out, then stale sweep, with the targets in the given order. */
  ghost predicate Phases(was: Objects, clock: nat, targets: seq<string>, now: Objects, clock': nat, f: Faults,
                         cp: ClusterProjection, source: Object, kind: string)
  {
    exists mid ::
      && WrittenInOrder(was, clock, targets, mid, clock', cp, source, kind)
      && now == AfterSweep(f, mid, ClusterOwner(cp), kind, Some(SetOf(targets)))
  }

  /** Everything the write phase promises about the store, the failures and the counts. */
  ghost predicate ProjectedAll(was: Objects, now: Objects, f: Faults, cp: ClusterProjection, source: Object,
                               targets: set<string>, kind: string, r: F.Rollup)
  {
    && r.written + r.failed == |targets|
    && r.failed == |r.failures| && r.failures.Keys <= targets
    && Projected(was, now, cp, source, targets, kind, r.failures.Keys)
    && Isolated(f, was, cp, targets, kind, r.failures.Keys)
    && (Faultless(f) && r.failed == 0 && Stampable(source) ==> Converged(now, cp, source, targets, kind))
  }

  /** The write phase: fan out, then sweep what is no longer targeted. */
  method ProjectAll(api: Server, cp: ClusterProjection, source: Object, targets: seq<string>, kind: string)
    returns (r: F.Rollup)
    requires Distinct(targets) && |SetOf(targets)| == |targets|
    modifies api
    ensures ProjectedAll(old(api.objects), api.objects, api.faults, cp, source, SetOf(targets), kind, r)
    ensures Phases(old(api.objects), old(api.clock), targets, api.objects, api.clock, api.faults, cp, source, kind)
    ensures Told(old(api.objects), old(api.requests), targets, api.requests, api.objects, r.failures, api.faults, cp,
                 source, kind)
    ensures old(api.requests) <= api.requests
    ensures Converged(old(api.objects), cp, source, SetOf(targets), kind) && WellRooted(source) ==>
              api.objects == old(api.objects) && api.requests == old(api.requests)
  {
    ghost var was, requests, f := api.objects, api.requests, api.faults;
    if Converged(was, cp, source, SetOf(targets), kind) && WellRooted(source) {
      ConvergedInPlace(was, cp, source, SetOf(targets), kind);
    }
    r := WriteTargets(api, cp, source, targets, kind);
    ghost var mid := api.objects;
    // an error here is logged and left to the next reconcile
    var _ := CleanupStale(api, ClusterOwner(cp), kind, targets);
    assert (set t | t in targets) == SetOf(targets);
    SweepEnds(was, mid, f, cp, source, SetOf(targets), kind, r);
    ToldKept(was, requests, targets, api.requests, mid, api.objects, r.failures, r.failures, f, cp, source, kind);
    if Converged(was, cp, source, SetOf(targets), kind) && WellRooted(source) {
      SweepMeans(f, mid, ClusterOwner(cp), kind, Some(SetOf(targets)));
      ConvergedStays(was, api.objects, cp, source, SetOf(targets), kind);
    }
  }

  /** What the stale sweep adds to the fan-out. */
  lemma SweepEnds(was: Objects, mid: Objects, f: Faults, cp: ClusterProjection, source: Object, targets: set<string>,
                  kind: string, r: F.Rollup)
    requires Going(was, mid, f, cp, source, targets, kind, r) && r.written + r.failed == |targets|
    ensures var now := AfterSweep(f, mid, ClusterOwner(cp), kind, Some(targets));
            && ProjectedAll(was, now, f, cp, source, targets, kind, r)
            && forall t | t in targets :: Same(mid, now, TargetKey(cp, t, kind))
  {
    var now := AfterSweep(f, mid, ClusterOwner(cp), kind, Some(targets));
    SweepMeans(f, mid, ClusterOwner(cp), kind, Some(targets));
    SweepAfterFanOut(was, mid, now, cp, source, targets, kind, r.failures.Keys);
    if Faultless(f) && r.failed == 0 && Stampable(source) {
      assert r.failures.Keys == {};
      ConvergedAfterSweep(was, mid, now, cp, source, targets, kind);
    }
    forall t | t in targets ensures Same(mid, now, TargetKey(cp, t, kind)) {
      assert TargetKey(cp, t, kind).ns in targets;
    }
  }

  /** With no failing call and nobody else holding a target, the write phase converges. */
  lemma FreeConverges(was: Objects, now: Objects, f: Faults, cp: ClusterProjection, source: Object,
                      targets: set<string>, kind: string, r: F.Rollup)
    requires ProjectedAll(was, now, f, cp, source, targets, kind, r) && Faultless(f) && Stampable(source)
    requires AllFree(was, cp, targets, kind)
    ensures r.failed == 0 && Converged(now, cp, source, targets, kind)
  {
    assert AllAnswer(f, cp, targets, kind);
    NoneFail(f, was, cp, targets, kind, r.failures.Keys);
    assert |r.failures| == |r.failures.Keys|;
  }
}
