/** Conditions, counts and the meaning of the 404 reason (conditions.go and the status writers of
    cluster_projection_controller.go). */
module Status {
  import opened Wrappers
  import opened FanOut

  datatype Truth = True | False | Unknown

  datatype Condition = Condition(kind: string, truth: Truth, reason: string, message: string)

  const READY := "Ready"
  const SOURCE_RESOLVED := "SourceResolved"
  const DESTINATION_WRITTEN := "DestinationWritten"

  /** The status of either tier; a Projection leaves the counts at 0. */
  datatype Status = Status(conditions: seq<Condition>, destinationName: string, namespacesWritten: int,
                           namespacesFailed: int)

  const EMPTY := Status([], "", 0, 0)

  /** apimeta.SetStatusCondition: overwrite the first condition of that type, or append. */
  function SetCondition(conds: seq<Condition>, c: Condition): seq<Condition>
  {
    if conds == [] then [c]
    else if conds[0].kind == c.kind then [c] + conds[1..]
    else [conds[0]] + SetCondition(conds[1..], c)
  }

  /** FindStatusCondition. */
  function Find(conds: seq<Condition>, kind: string): Option<Condition>
  {
    if conds == [] then None
    else if conds[0].kind == kind then Some(conds[0])
    else Find(conds[1..], kind)
  }

  ghost predicate OncePerType(conds: seq<Condition>)
  {
    forall i, j :: 0 <= i < j < |conds| ==> conds[i].kind != conds[j].kind
  }

  lemma {:induction false} SetFind(conds: seq<Condition>, c: Condition, kind: string)
    ensures Find(SetCondition(conds, c), kind) == if kind == c.kind then Some(c) else Find(conds, kind)
  {
    if conds != [] {
      if conds[0].kind == c.kind {
        assert SetCondition(conds, c)[1..] == conds[1..];
      } else {
        SetFind(conds[1..], c, kind);
        assert SetCondition(conds, c)[1..] == SetCondition(conds[1..], c);
      }
    }
  }

  /** SetCondition replaces the first condition of the type, or appends. */
  lemma {:induction false} SetWhere(conds: seq<Condition>, c: Condition, i: nat)
    requires i <= |conds| && forall j :: 0 <= j < i ==> conds[j].kind != c.kind
    requires i < |conds| ==> conds[i].kind == c.kind
    ensures SetCondition(conds, c) == if i < |conds| then conds[i := c] else conds + [c]
  {
    if i > 0 {
      SetWhere(conds[1..], c, i - 1);
      assert conds == [conds[0]] + conds[1..];
    } else if conds != [] {
      assert conds[0 := c] == [c] + conds[1..];
    }
  }

  lemma {:induction false} SetTypes(conds: seq<Condition>, c: Condition)
    ensures forall i :: 0 <= i < |SetCondition(conds, c)| ==>
              || SetCondition(conds, c)[i].kind == c.kind
              || exists j :: 0 <= j < |conds| && conds[j].kind == SetCondition(conds, c)[i].kind
  {
    if conds != [] {
      if conds[0].kind != c.kind {
        SetTypes(conds[1..], c);
        var s := SetCondition(conds, c);
        forall i | 0 <= i < |s|
          ensures s[i].kind == c.kind || exists j :: 0 <= j < |conds| && conds[j].kind == s[i].kind
        {
          if i > 0 {
            assert s[i] == SetCondition(conds[1..], c)[i - 1];
            if s[i].kind != c.kind {
              var j :| 0 <= j < |conds[1..]| && conds[1..][j].kind == s[i].kind;
              assert conds[j + 1].kind == s[i].kind;
            }
          }
        }
      }
    }
  }

  lemma {:induction false} SetOnce(conds: seq<Condition>, c: Condition)
    requires OncePerType(conds)
    ensures OncePerType(SetCondition(conds, c))
  {
    if conds != [] && conds[0].kind != c.kind {
      SetOnce(conds[1..], c);
      SetTypes(conds[1..], c);
      var s := SetCondition(conds, c);
      forall i, j | 0 <= i < j < |s| ensures s[i].kind != s[j].kind {
        assert s[j] == SetCondition(conds[1..], c)[j - 1];
        if i > 0 {
          assert s[i] == SetCondition(conds[1..], c)[i - 1];
        } else if s[j].kind != c.kind {
          var k :| 0 <= k < |conds[1..]| && conds[1..][k].kind == s[j].kind;
          assert conds[k + 1].kind == s[j].kind;
        }
      }
    }
  }

  // ----- What the status writers stage -----

  /** The three conditions, in the order every writer sets them. */
  function SetAll(st: Status, source: Condition, dest: Condition, ready: Condition): Status
  {
    st.(conditions := SetCondition(SetCondition(SetCondition(st.conditions, source), dest), ready))
  }

  function Cond(kind: string, truth: Truth, reason: string, message: string): Condition
  {
    Condition(kind, truth, reason, message)
  }

  const NOT_ATTEMPTED := "destination write not attempted because source resolution failed"

  /** failSource and failClusterSource; the cluster counts are not touched. */
  function FailSource(st: Status, reason: string, msg: string): Status
  {
    SetAll(st, Cond(SOURCE_RESOLVED, False, reason, msg),
           Cond(DESTINATION_WRITTEN, Unknown, "SourceNotResolved", NOT_ATTEMPTED), Cond(READY, False, reason, msg))
  }

  /** failDestination. */
  function FailDestination(st: Status, resolved: string, reason: string, msg: string): Status
  {
    SetAll(st, Cond(SOURCE_RESOLVED, True, "Resolved", resolved),
           Cond(DESTINATION_WRITTEN, False, reason, msg), Cond(READY, False, reason, msg))
  }

  /** markAllReady. */
  function MarkAllReady(st: Status, resolved: string, name: string): Status
  {
    SetAll(st, Cond(SOURCE_RESOLVED, True, "Resolved", resolved),
           Cond(DESTINATION_WRITTEN, True, "Projected", ""), Cond(READY, True, "Projected", ""))
      .(destinationName := name)
  }

  /** int32(n). */
  function Int32(n: int): int
  {
    (n + 0x8000_0000) % 0x1_0000_0000 - 0x8000_0000
  }

  /** The conversion keeps the low 32 bits and reads them as signed. */
  lemma Int32Means(n: int)
    ensures -0x8000_0000 <= Int32(n) < 0x8000_0000 && (Int32(n) - n) % 0x1_0000_0000 == 0
  {
  }

  /** How a reconcile ends, as far as the status is concerned. */
  datatype Outcome =
    | SourceFailed(reason: string, msg: string)
    | SourceMissing(msg: string)
    | DestinationFailed(resolved: string, reason: string, msg: string)
    | AllReady(resolved: string, name: string)
    | TargetsFailed(resolved: string, msg: string)
    | FannedOut(resolved: string, name: string, msg: string, rollup: Rollup)

  /** handleSourceFetchError: the reason tells a source that was projected before from one that never was. */
  function MissingReason(st: Status): string
  {
    if st.destinationName != "" then "SourceDeleted" else "SourceNotFound"
  }

  function Report(st: Status, o: Outcome): Status
  {
    match o
    case SourceFailed(reason, msg) => FailSource(st, reason, msg)
    case SourceMissing(msg) => FailSource(st, MissingReason(st), msg)
    case DestinationFailed(resolved, reason, msg) => FailDestination(st, resolved, reason, msg)
    case AllReady(resolved, name) => MarkAllReady(st, resolved, name)
    case TargetsFailed(resolved, msg) =>
      FailDestination(st, resolved, "TargetResolutionFailed", msg).(namespacesWritten := 0, namespacesFailed := 0)
    case FannedOut(resolved, name, msg, r) =>
      if r.failed > 0 then
        FailDestination(st, resolved, "DestinationWriteFailed", msg)
          .(destinationName := name, namespacesWritten := Int32(r.written), namespacesFailed := Int32(r.failed))
      else
        MarkAllReady(st, resolved, name).(namespacesWritten := Int32(r.written), namespacesFailed := 0)
  }

  // ----- The writers, in place -----

  /** A custom resource's status as the reconcile holds it, and as the API server has it. */
  class Holder {
    var status: Status
    var saved: Status

    constructor (st: Status)
      ensures status == st && saved == st
    {
      status := st;
      saved := st;
    }

    /** setConditionOn. */
    method SetConditionOn(c: Condition)
      modifies this`status
      ensures status == old(status).(conditions := SetCondition(old(status).conditions, c))
    {
      var conds := status.conditions;
      var i := 0;
      while i < |conds| && conds[i].kind != c.kind
        invariant i <= |conds|
        invariant forall j :: 0 <= j < i ==> conds[j].kind != c.kind
      {
        i := i + 1;
      }
      SetWhere(conds, c, i);
      if i < |conds| {
        status := status.(conditions := conds[i := c]);
      } else {
        status := status.(conditions := conds + [c]);
      }
    }

    method SetThree(source: Condition, dest: Condition, ready: Condition)
      modifies this`status
      ensures status == SetAll(old(status), source, dest, ready)
    {
      SetConditionOn(source);
      SetConditionOn(dest);
      SetConditionOn(ready);
    }

    /** Status().Update: the staged status is stored, or the call fails and the server keeps what it had. */
    method Flush(accepted: bool)
      modifies this`saved
      ensures saved == if accepted then status else old(saved)
    {
      if accepted {
        saved := status;
      }
    }

    /** The end of every reconcile: stage the conditions for the outcome, then one Status().Update. */
    method Finish(o: Outcome, accepted: bool)
      modifies this
      ensures status == Report(old(status), o)
      ensures saved == if accepted then status else old(saved)
    {
      match o {
        case SourceFailed(reason, msg) => FailSourceHere(reason, msg);
        case SourceMissing(msg) =>
          var reason := "SourceNotFound";
          if status.destinationName != "" {
            reason := "SourceDeleted";
          }
          FailSourceHere(reason, msg);
        case DestinationFailed(resolved, reason, msg) => FailDestinationHere(resolved, reason, msg);
        case AllReady(resolved, name) => MarkReadyHere(resolved, name);
        case TargetsFailed(resolved, msg) =>
          FailDestinationHere(resolved, "TargetResolutionFailed", msg);
          status := status.(namespacesWritten := 0, namespacesFailed := 0);
        case FannedOut(resolved, name, msg, r) =>
          if r.failed > 0 {
            FailDestinationHere(resolved, "DestinationWriteFailed", msg);
            status := status.(destinationName := name, namespacesWritten := Int32(r.written),
                              namespacesFailed := Int32(r.failed));
          } else {
            MarkReadyHere(resolved, name);
            status := status.(namespacesWritten := Int32(r.written), namespacesFailed := 0);
          }
      }
      Flush(accepted);
    }

    method FailSourceHere(reason: string, msg: string)
      modifies this`status
      ensures status == FailSource(old(status), reason, msg)
    {
      SetThree(Cond(SOURCE_RESOLVED, False, reason, msg),
               Cond(DESTINATION_WRITTEN, Unknown, "SourceNotResolved", NOT_ATTEMPTED), Cond(READY, False, reason, msg));
    }

    method FailDestinationHere(resolved: string, reason: string, msg: string)
      modifies this`status
      ensures status == FailDestination(old(status), resolved, reason, msg)
    {
      SetThree(Cond(SOURCE_RESOLVED, True, "Resolved", resolved),
               Cond(DESTINATION_WRITTEN, False, reason, msg), Cond(READY, False, reason, msg));
    }

    method MarkReadyHere(resolved: string, name: string)
      modifies this`status
      ensures status == MarkAllReady(old(status), resolved, name)
    {
      SetThree(Cond(SOURCE_RESOLVED, True, "Resolved", resolved),
               Cond(DESTINATION_WRITTEN, True, "Projected", ""), Cond(READY, True, "Projected", ""));
      status := status.(destinationName := name);
    }
  }

  // ----- What is reported, in the strings of the API -----

  /** The condition of a type, as (status, reason, message). */
  predicate Shows(st: Status, kind: string, truth: Truth, reason: string, message: string)
  {
    Find(st.conditions, kind) == Some(Condition(kind, truth, reason, message))
  }

  lemma SourceFailedReport(st: Status, reason: string, msg: string)
    ensures var now := Report(st, SourceFailed(reason, msg));
            && Shows(now, "SourceResolved", False, reason, msg) && Shows(now, "Ready", False, reason, msg)
            && Shows(now, "DestinationWritten", Unknown, "SourceNotResolved",
                     "destination write not attempted because source resolution failed")
            && now == st.(conditions := now.conditions)
  {
    WriterFinds(st, reason, msg, "", "");
    SetAllFind(st, Cond("SourceResolved", False, reason, msg),
               Cond("DestinationWritten", Unknown, "SourceNotResolved", NOT_ATTEMPTED),
               Cond("Ready", False, reason, msg));
  }

  /** A 404 is a source failure whose reason depends on whether a destination was ever recorded. */
  lemma SourceMissingReport(st: Status, msg: string)
    ensures var now := Report(st, SourceMissing(msg));
            var reason := if st.destinationName == "" then "SourceNotFound" else "SourceDeleted";
            && Shows(now, "SourceResolved", False, reason, msg) && Shows(now, "Ready", False, reason, msg)
            && Shows(now, "DestinationWritten", Unknown, "SourceNotResolved",
                     "destination write not attempted because source resolution failed")
            && now == st.(conditions := now.conditions)
  {
    SourceFailedReport(st, if st.destinationName == "" then "SourceNotFound" else "SourceDeleted", msg);
  }

  lemma DestinationFailedReport(st: Status, resolved: string, reason: string, msg: string)
    ensures var now := Report(st, DestinationFailed(resolved, reason, msg));
            && Shows(now, "SourceResolved", True, "Resolved", resolved)
            && Shows(now, "DestinationWritten", False, reason, msg) && Shows(now, "Ready", False, reason, msg)
            && now == st.(conditions := now.conditions)
  {
    SetAllFind(st, Cond("SourceResolved", True, "Resolved", resolved),
               Cond("DestinationWritten", False, reason, msg), Cond("Ready", False, reason, msg));
  }

  lemma TargetsFailedReport(st: Status, resolved: string, msg: string)
    ensures var now := Report(st, TargetsFailed(resolved, msg));
            && Shows(now, "SourceResolved", True, "Resolved", resolved)
            && Shows(now, "DestinationWritten", False, "TargetResolutionFailed", msg)
            && Shows(now, "Ready", False, "TargetResolutionFailed", msg)
            && now == st.(conditions := now.conditions, namespacesWritten := 0, namespacesFailed := 0)
  {
    DestinationFailedReport(st, resolved, "TargetResolutionFailed", msg);
  }

  lemma AllReadyReport(st: Status, resolved: string, name: string)
    ensures var now := Report(st, AllReady(resolved, name));
            && Shows(now, "SourceResolved", True, "Resolved", resolved)
            && Shows(now, "DestinationWritten", True, "Projected", "") && Shows(now, "Ready", True, "Projected", "")
            && now == st.(conditions := now.conditions, destinationName := name)
  {
    SetAllFind(st, Cond("SourceResolved", True, "Resolved", resolved),
               Cond("DestinationWritten", True, "Projected", ""), Cond("Ready", True, "Projected", ""));
  }

  /** After a fan-out: a write failure with the counts, or all ready with the number written. */
  lemma FannedOutReport(st: Status, resolved: string, name: string, msg: string, r: Rollup)
    ensures var now := Report(st, FannedOut(resolved, name, msg, r));
            && Shows(now, "SourceResolved", True, "Resolved", resolved)
            && (if r.failed > 0 then
                  && Shows(now, "DestinationWritten", False, "DestinationWriteFailed", msg)
                  && Shows(now, "Ready", False, "DestinationWriteFailed", msg)
                else
                  && Shows(now, "DestinationWritten", True, "Projected", "")
                  && Shows(now, "Ready", True, "Projected", ""))
            && now.destinationName == name
            && now.namespacesWritten == Int32(r.written) && now.namespacesFailed == Int32(r.failed)
  {
    DestinationFailedReport(st, resolved, "DestinationWriteFailed", msg);
    AllReadyReport(st, resolved, name);
  }

  // ----- Runs -----

  /** One reconcile of a CR: how it ended and whether its Status().Update was accepted. */
  datatype Ending = Ending(outcome: Outcome, accepted: bool)

  /** The stored status after a run of reconciles. */
  function After(run: seq<Ending>): Status
  {
    if run == [] then EMPTY
    else
      var last := run[|run| - 1];
      var st := After(run[..|run| - 1]);
      if last.accepted then Report(st, last.outcome) else st
  }

  predicate Is(c: Option<Condition>, truth: Truth)
  {
    c.Some? && c.value.truth == truth
  }

  /** Ready sums up the other two conditions and repeats the reason of the one that failed. */
  predicate Coherent(st: Status)
  {
    var source := Find(st.conditions, SOURCE_RESOLVED);
    var dest := Find(st.conditions, DESTINATION_WRITTEN);
    var ready := Find(st.conditions, READY);
    && (Is(ready, True) <==> Is(source, True) && Is(dest, True))
    && (Is(ready, False) && Is(source, False) ==> ready.value.reason == source.value.reason)
    && (Is(ready, False) && !Is(source, False) ==> Is(dest, False) && ready.value.reason == dest.value.reason)
    && (ready.Some? ==> ready.value.truth != Unknown && source.Some? && dest.Some?)
    && (Is(ready, True) ==> st.namespacesFailed == 0)
  }

  lemma SetAllFind(st: Status, source: Condition, dest: Condition, ready: Condition)
    requires source.kind == SOURCE_RESOLVED && dest.kind == DESTINATION_WRITTEN && ready.kind == READY
    ensures var c := SetAll(st, source, dest, ready).conditions;
            && Find(c, SOURCE_RESOLVED) == Some(source)
            && Find(c, DESTINATION_WRITTEN) == Some(dest)
            && Find(c, READY) == Some(ready)
    ensures OncePerType(st.conditions) ==> OncePerType(SetAll(st, source, dest, ready).conditions)
  {
    assert |SOURCE_RESOLVED| == 14 && |DESTINATION_WRITTEN| == 18 && |READY| == 5;
    var c1 := SetCondition(st.conditions, source);
    var c2 := SetCondition(c1, dest);
    SetFind(st.conditions, source, SOURCE_RESOLVED);
    SetFind(c1, dest, SOURCE_RESOLVED);
    SetFind(c1, dest, DESTINATION_WRITTEN);
    SetFind(c2, ready, SOURCE_RESOLVED);
    SetFind(c2, ready, DESTINATION_WRITTEN);
    SetFind(c2, ready, READY);
    if OncePerType(st.conditions) {
      SetOnce(st.conditions, source);
      SetOnce(c1, dest);
      SetOnce(c2, ready);
    }
  }

  /** What each writer leaves behind. */
  lemma WriterFinds(st: Status, reason: string, msg: string, resolved: string, name: string)
    ensures var f := FailSource(st, reason, msg).conditions;
            && Find(f, SOURCE_RESOLVED) == Some(Cond(SOURCE_RESOLVED, False, reason, msg))
            && Is(Find(f, DESTINATION_WRITTEN), Unknown)
            && Find(f, READY) == Some(Cond(READY, False, reason, msg))
    ensures var f := FailDestination(st, resolved, reason, msg).conditions;
            && Is(Find(f, SOURCE_RESOLVED), True)
            && Find(f, DESTINATION_WRITTEN) == Some(Cond(DESTINATION_WRITTEN, False, reason, msg))
            && Find(f, READY) == Some(Cond(READY, False, reason, msg))
    ensures var f := MarkAllReady(st, resolved, name).conditions;
            Is(Find(f, SOURCE_RESOLVED), True) && Is(Find(f, DESTINATION_WRITTEN), True) &&
            Find(f, READY) == Some(Cond(READY, True, "Projected", ""))
    ensures OncePerType(st.conditions) ==>
              && OncePerType(FailSource(st, reason, msg).conditions)
              && OncePerType(FailDestination(st, resolved, reason, msg).conditions)
              && OncePerType(MarkAllReady(st, resolved, name).conditions)
  {
    SetAllFind(st, Cond(SOURCE_RESOLVED, False, reason, msg),
               Cond(DESTINATION_WRITTEN, Unknown, "SourceNotResolved", NOT_ATTEMPTED), Cond(READY, False, reason, msg));
    SetAllFind(st, Cond(SOURCE_RESOLVED, True, "Resolved", resolved),
               Cond(DESTINATION_WRITTEN, False, reason, msg), Cond(READY, False, reason, msg));
    SetAllFind(st, Cond(SOURCE_RESOLVED, True, "Resolved", resolved),
               Cond(DESTINATION_WRITTEN, True, "Projected", ""), Cond(READY, True, "Projected", ""));
  }

  /** The failure reason a reconcile reports. */
  function ReasonOf(st: Status, o: Outcome): string
  {
    match o
    case SourceFailed(reason, _) => reason
    case SourceMissing(_) => MissingReason(st)
    case DestinationFailed(_, reason, _) => reason
    case TargetsFailed(_, _) => "TargetResolutionFailed"
    case FannedOut(_, _, _, r) => if r.failed > 0 then "DestinationWriteFailed" else "Projected"
    case AllReady(_, _) => "Projected"
  }

  /** A Projection's reconciles end without counts; a ClusterProjection's end with counts. */
  predicate Namespaced(o: Outcome)
  {
    o.SourceFailed? || o.SourceMissing? || o.DestinationFailed? || o.AllReady?
  }

  predicate Cluster(o: Outcome)
  {
    o.SourceFailed? || o.SourceMissing? || o.TargetsFailed? || o.FannedOut?
  }

  ghost predicate OneTier(run: seq<Ending>)
  {
    || (forall i :: 0 <= i < |run| ==> Namespaced(run[i].outcome))
    || (forall i :: 0 <= i < |run| ==> Cluster(run[i].outcome))
  }

  /** A status in order: types unique, Ready coherent and with the given reason. */
  ghost predicate InOrder(st: Status, reason: string)
  {
    && OncePerType(st.conditions) && Coherent(st)
    && Find(st.conditions, READY).Some? && Find(st.conditions, READY).value.reason == reason
  }

  lemma FailSourceInOrder(st: Status, reason: string, msg: string)
    requires OncePerType(st.conditions)
    ensures InOrder(FailSource(st, reason, msg), reason)
  {
    WriterFinds(st, reason, msg, "", "");
  }

  lemma FailDestinationInOrder(st: Status, resolved: string, reason: string, msg: string, st': Status)
    requires OncePerType(st.conditions) && st'.conditions == FailDestination(st, resolved, reason, msg).conditions
    ensures InOrder(st', reason)
  {
    WriterFinds(st, reason, msg, resolved, "");
  }

  lemma ReadyInOrder(st: Status, resolved: string, name: string, st': Status)
    requires OncePerType(st.conditions) && st'.conditions == MarkAllReady(st, resolved, name).conditions
    requires st'.namespacesFailed == 0
    ensures InOrder(st', "Projected")
  {
    WriterFinds(st, "", "", resolved, name);
  }

  lemma ReportCoherent(st: Status, o: Outcome)
    requires OncePerType(st.conditions)
    requires o.AllReady? ==> st.namespacesFailed == 0
    ensures InOrder(Report(st, o), ReasonOf(st, o))
  {
    match o {
      case SourceFailed(reason, msg) => FailSourceInOrder(st, reason, msg);
      case SourceMissing(msg) => FailSourceInOrder(st, MissingReason(st), msg);
      case DestinationFailed(resolved, reason, msg) =>
        FailDestinationInOrder(st, resolved, reason, msg, Report(st, o));
      case AllReady(resolved, name) => ReadyInOrder(st, resolved, name, Report(st, o));
      case TargetsFailed(resolved, msg) =>
        FailDestinationInOrder(st, resolved, "TargetResolutionFailed", msg, Report(st, o));
      case FannedOut(resolved, name, msg, r) =>
        if r.failed > 0 {
          FailDestinationInOrder(st, resolved, "DestinationWriteFailed", msg, Report(st, o));
        } else {
          ReadyInOrder(st, resolved, name, Report(st, o));
        }
    }
  }

  /** Over every run, with any status updates lost: each condition type occurs at most once, and Ready is coherent
      with the other two conditions and with the failure count. */
  lemma {:induction false} StatusInvariant(run: seq<Ending>)
    requires OneTier(run)
    ensures OncePerType(After(run).conditions) && Coherent(After(run))
    ensures (forall i :: 0 <= i < |run| ==> Namespaced(run[i].outcome)) ==> After(run).namespacesFailed == 0
  {
    if run != [] {
      var n := |run| - 1;
      StatusInvariant(run[..n]);
      if run[n].accepted {
        assert run[n].outcome.AllReady? ==> forall i :: 0 <= i < |run| ==> Namespaced(run[i].outcome) by {
          if run[n].outcome.AllReady? {
            assert !Cluster(run[n].outcome);
          }
        }
        ReportCoherent(After(run[..n]), run[n].outcome);
      }
    }
  }

  /** A saved fan-out reports counts that add up to the number of targets (below the int32 range). */
  lemma CountsAddUp(st: Status, o: Outcome, targets: nat)
    requires o.FannedOut? && o.rollup.written + o.rollup.failed == targets && targets < 0x8000_0000
    ensures Report(st, o).namespacesWritten + Report(st, o).namespacesFailed == targets
    ensures Report(st, o).namespacesWritten == o.rollup.written
  {
  }

  // ----- Which reconcile the counts describe -----

  function Counts(st: Status): (int, int)
  {
    (st.namespacesWritten, st.namespacesFailed)
  }

  /** The destinations a reconcile wrote and failed to write; one that never reached the fan-out wrote none. */
  function Did(o: Outcome): (int, int)
  {
    if !o.FannedOut? then (0, 0)
    else (Int32(o.rollup.written), if o.rollup.failed > 0 then Int32(o.rollup.failed) else 0)
  }

  /** failClusterSource leaves the counts alone; the other cluster-tier reports set them. */
  predicate SetsCounts(o: Outcome)
  {
    o.FannedOut? || o.TargetsFailed?
  }

  predicate Counting(e: Ending)
  {
    e.accepted && SetsCounts(e.outcome)
  }

  /** The counts on their own. */
  function CountsAfter(run: seq<Ending>): (int, int)
  {
    if run == [] then (0, 0)
    else
      var last := run[|run| - 1];
      if Counting(last) then Did(last.outcome) else CountsAfter(run[..|run| - 1])
  }

  lemma ReportCounts(st: Status, o: Outcome)
    ensures Counts(Report(st, o)) == if SetsCounts(o) then Did(o) else Counts(st)
  {
  }

  lemma {:induction false} CountsMatch(run: seq<Ending>)
    ensures Counts(After(run)) == CountsAfter(run)
  {
    if run != [] {
      var n := |run| - 1;
      CountsMatch(run[..n]);
      ReportCounts(After(run[..n]), run[n].outcome);
    }
  }

  /** The stored counts are those of the last accepted reconcile that set any, however many came after it. */
  lemma CountsComeFrom(run: seq<Ending>, i: nat)
    requires i < |run| && Counting(run[i]) && forall j :: i < j < |run| ==> !Counting(run[j])
    ensures Counts(After(run)) == Did(run[i].outcome)
  {
    CountsMatch(run);
    CountedAt(run, i);
  }

  lemma CountedAt(run: seq<Ending>, i: nat)
    requires i < |run| && Counting(run[i]) && forall j :: i < j < |run| ==> !Counting(run[j])
    ensures CountsAfter(run) == Did(run[i].outcome)
  {
    SkipUncounted(run, i + 1);
    assert run[..i + 1][i] == run[i];
  }

  lemma {:induction false} SkipUncounted(run: seq<Ending>, n: nat)
    requires n <= |run| && forall j :: n <= j < |run| ==> !Counting(run[j])
    ensures CountsAfter(run) == CountsAfter(run[..n])
  {
    if n < |run| {
      SkipUncounted(run[..|run| - 1], n);
      assert run[..|run| - 1][..n] == run[..n];
    } else {
      assert run[..n] == run;
    }
  }

  /** The stored counts describe the last accepted reconcile if and only if it set them, or there was nothing to be
      stale: the counts before it were zero. */
  lemma CountsCurrentExactly(run: seq<Ending>, n: nat)
    requires n < |run| && run[n].accepted && forall j :: n < j < |run| ==> !run[j].accepted
    ensures Counts(After(run)) == Did(run[n].outcome) <==>
            SetsCounts(run[n].outcome) || Counts(After(run[..n])) == (0, 0)
  {
    CountsMatch(run);
    CountsMatch(run[..n]);
    CurrentAt(run, n);
  }

  lemma CurrentAt(run: seq<Ending>, n: nat)
    requires n < |run| && run[n].accepted && forall j :: n < j < |run| ==> !run[j].accepted
    ensures CountsAfter(run) == Did(run[n].outcome) <==> SetsCounts(run[n].outcome) || CountsAfter(run[..n]) == (0, 0)
  {
    SkipUncounted(run, n + 1);
    assert run[..n + 1][..n] == run[..n] && run[..n + 1][n] == run[n];
  }

  /** A source failure after any run keeps the counts and says not ready. */
  lemma SourceFailureKeeps(run: seq<Ending>, reason: string, msg: string)
    ensures var failed := After(run + [Ending(SourceFailed(reason, msg), true)]);
            Counts(failed) == Counts(After(run)) && Is(Find(failed.conditions, READY), False)
  {
    LastReport(run, SourceFailed(reason, msg));
    WriterFinds(After(run), reason, msg, "", "");
  }

  lemma LastReport(run: seq<Ending>, o: Outcome)
    ensures After(run + [Ending(o, true)]) == Report(After(run), o)
  {
    assert (run + [Ending(o, true)])[..|run|] == run;
  }

  /** The stale case: three destinations written, then the source cannot be fetched. The status says not ready and
      still counts three. */
  lemma SourceFailureKeepsCounts(name: string)
    ensures var first := Ending(FannedOut("", name, "", Rollup(3, 0, map[])), true);
            var failed := After([first] + [Ending(SourceFailed("SourceFetchFailed", ""), true)]);
            Counts(failed) == (3, 0) && Is(Find(failed.conditions, READY), False)
  {
    var first := Ending(FannedOut("", name, "", Rollup(3, 0, map[])), true);
    SourceFailureKeeps([first], "SourceFetchFailed", "");
    CountsComeFrom([first], 0);
  }

  // ----- History -----

  /** The reconciles that record a destination name. */
  predicate Records(e: Ending)
  {
    e.accepted && (e.outcome.AllReady? || e.outcome.FannedOut?)
  }

  predicate Named(o: Outcome)
  {
    o.AllReady? || o.FannedOut? ==> o.name != ""
  }

  /** The destination name on its own. */
  function NameAfter(run: seq<Ending>): string
  {
    if run == [] then ""
    else
      var last := run[|run| - 1];
      if Records(last) then last.outcome.name else NameAfter(run[..|run| - 1])
  }

  lemma ReportName(st: Status, o: Outcome)
    ensures Report(st, o).destinationName == if o.AllReady? || o.FannedOut? then o.name else st.destinationName
  {
  }

  lemma {:induction false} NameMatch(run: seq<Ending>)
    ensures After(run).destinationName == NameAfter(run)
  {
    if run != [] {
      var n := |run| - 1;
      NameMatch(run[..n]);
      ReportName(After(run[..n]), run[n].outcome);
    }
  }

  lemma {:induction false} NameIff(run: seq<Ending>)
    requires forall i :: 0 <= i < |run| ==> Named(run[i].outcome)
    ensures NameAfter(run) != "" <==> exists i :: 0 <= i < |run| && Records(run[i])
  {
    if run != [] {
      var n := |run| - 1;
      NameIff(run[..n]);
      if i :| 0 <= i < n && Records(run[..n][i]) {
        assert Records(run[i]);
      }
      if i :| 0 <= i < |run| && Records(run[i]) {
        assert i < n ==> Records(run[..n][i]);
      }
    }
  }

  /** The destination name never returns to empty: it is set exactly when some accepted reconcile of the run
      recorded one. */
  lemma NameRemembers(run: seq<Ending>)
    requires forall i :: 0 <= i < |run| ==> Named(run[i].outcome)
    ensures After(run).destinationName != "" <==> exists i :: 0 <= i < |run| && Records(run[i])
  {
    NameMatch(run);
    NameIff(run);
  }

  /** What a 404 says about the past: SourceDeleted exactly when some earlier reconcile saved all-ready (Projection),
      respectively any post-fan-out status, partial failure included (ClusterProjection). */
  lemma MissingReasonMeansHistory(run: seq<Ending>, msg: string)
    requires forall i :: 0 <= i < |run| ==> Named(run[i].outcome)
    ensures ReasonOf(After(run), SourceMissing(msg)) == "SourceDeleted" <==>
            exists i :: 0 <= i < |run| && Records(run[i])
    ensures ReasonOf(After(run), SourceMissing(msg)) == "SourceNotFound" <==>
            !exists i :: 0 <= i < |run| && Records(run[i])
  {
    NameRemembers(run);
    assert |"SourceDeleted"| == 13 && |"SourceNotFound"| == 14;
  }
}
