/** writeDestination / writeClusterDestination: get, create or refuse, preserve, diff, update. */
module Writer {
  import opened Wrappers
  import opened Json
  import opened Types
  import opened Destination
  import opened Transform
  import opened Preservation
  import opened ApiServer

  /** The stored object already is what the plan asks for: another write of the same plan has nothing to send. */
  ghost predicate UpToDate(tree: Object, plan: Plan)
  {
    Agree(tree, Preserve(tree, plan.Built()))
  }

  /** An up-to-date object carries exactly the plan's labels and annotations. */
  lemma UpToDateMaps(tree: Object, plan: Plan)
    requires UpToDate(tree, plan)
    ensures Labels(tree) == Labels(plan.Built()) && Annotations(tree) == Annotations(plan.Built())
  {
    PreserveKeeps(tree, plan.Built());
  }

  /** What a write of the plan sends, given the object it found. */
  function SentFor(plan: Plan, earlier: Option<Object>): Object
  {
    if earlier.Some? then Preserve(earlier.value, plan.Built()) else plan.Built()
  }

  /** The stored object is as the plan asks, or is what the server made of a write of the plan. */
  ghost predicate Delivered(tree: Object, plan: Plan)
  {
    UpToDate(tree, plan) || exists earlier :: Stores(plan, earlier, tree)
  }

  ghost predicate Stores(plan: Plan, earlier: Option<Object>, tree: Object)
  {
    StoredAs(SentFor(plan, earlier), tree, DroppedSpecFields(GvkOf(SentFor(plan, earlier))))
  }

  lemma DeliveredMaps(tree: Object, plan: Plan)
    requires Delivered(tree, plan)
    ensures Labels(tree) == Labels(plan.Built()) && Annotations(tree) == Annotations(plan.Built())
  {
    if UpToDate(tree, plan) {
      UpToDateMaps(tree, plan);
    } else {
      var earlier :| Stores(plan, earlier, tree);
      if earlier.Some? {
        PreserveKeeps(earlier.value, plan.Built());
      }
    }
  }

  /** With a well-rooted source, what was delivered needs no further write. */
  lemma DeliveredIsUpToDate(tree: Object, plan: Plan)
    requires Delivered(tree, plan) && WellRooted(plan.source)
    ensures UpToDate(tree, plan)
  {
    if !UpToDate(tree, plan) {
      var earlier :| Stores(plan, earlier, tree);
      StoredIsUpToDate(plan, earlier, tree);
    }
  }

  lemma PreserveKeeps(existing: Object, d: Object)
    ensures Labels(Preserve(existing, d)) == Labels(d) && Annotations(Preserve(existing, d)) == Annotations(d)
    ensures GvkOf(Preserve(existing, d)) == GvkOf(d)
  {
    RealTable(GvkOf(d));
    TableNonEmpty(GvkOf(d));
    FillKeeps(d, DroppedSpecFields(GvkOf(d)), ValuesAt(existing, DroppedSpecFields(GvkOf(d))));
  }

  lemma FillKeeps(d: Object, table: seq<FieldPath>, vals: seq<Option<Json>>)
    requires |vals| == |table| && AuthoredTable(table) && forall p | p in table :: p[0] == "spec"
    ensures Labels(Fill(d, table, vals)) == Labels(d) && Annotations(Fill(d, table, vals)) == Annotations(d)
    ensures GvkOf(Fill(d, table, vals)) == GvkOf(d)
  {
    FillKeepsMeta(d, table, vals, "labels");
    FillKeepsMeta(d, table, vals, "annotations");
    FillKeepsTop(d, table, vals, "apiVersion");
    FillKeepsTop(d, table, vals, "kind");
  }

  lemma {:induction false} FillKeepsTop(o: Object, table: seq<FieldPath>, vals: seq<Option<Json>>, k: string)
    requires |vals| == |table| && forall p | p in table :: p[0] != k
    ensures TopLevel(Fill(o, table, vals), k) == TopLevel(o, k)
  {
    if table != [] {
      var n := |table| - 1;
      FillKeepsTop(o, table[..n], vals[..n], k);
      if vals[n].Some? {
        assert table[n] in table;
        PutHead(Fill(o, table[..n], vals[..n]), table[n], vals[n].value);
      }
    }
  }

  lemma StoredIsUpToDate(plan: Plan, earlier: Option<Object>, stored: Object)
    requires Stores(plan, earlier, stored) && WellRooted(plan.source)
    ensures UpToDate(stored, plan)
  {
    var sent := SentFor(plan, earlier);
    BuiltKeepsGvk(plan);
    if earlier.Some? {
      PreserveKeeps(earlier.value, plan.Built());
    }
    var ops :| Served(sent, stored, DroppedSpecFields(GvkOf(sent)), ops);
    SteadyState(plan, earlier, sent, stored, ops);
  }

  /** One object was put at the key, on a free key or over the owner's own: what the server made of the plan. */
  ghost predicate Replaced(was: Objects, now: Objects, plan: Plan, key: Key, o: Owner)
  {
    && key in now && now == was[key := now[key]]
    && (key in was ==> Owns(o, was[key].tree))
    && exists earlier :: Stores(plan, earlier, now[key].tree)
  }

  /** What one write says to the server, what comes of it, and the reason it reports: nothing is said if the Get fails,
      if a stranger is there, or if the object is as planned. Otherwise it is one Create of the planned object, or one
      Update over the version found, of the planned object with the server's own fields as they are. */
  ghost predicate Exchange(was: Objects, before: seq<Request>, after: seq<Request>, now: Objects, getFails: bool,
                           writeFails: bool, plan: Plan, key: Key, o: Owner, reason: string)
  {
    if getFails then after == before && Same(was, now, key) && reason == "DestinationFetchFailed"
    else if key !in was then
      && after == before + [Request(key, plan.Built(), None)]
      && (if writeFails then Same(was, now, key) && reason == "DestinationCreateFailed"
          else reason == "" && key in now && StoresSent(plan.Built(), now[key].tree))
    else if !Owns(o, was[key].tree) then after == before && Same(was, now, key) && reason == "DestinationConflict"
    else if UpToDate(was[key].tree, plan) then after == before && Same(was, now, key) && reason == ""
    else
      exists tree ::
        && Merged(was[key].tree, tree, plan)
        && after == before + [Request(key, tree, Some(was[key].version))]
        && (if writeFails then Same(was, now, key) && reason == "DestinationUpdateFailed"
            else reason == "" && key in now && StoresSent(tree, now[key].tree))
  }

  predicate Same(was: Objects, now: Objects, key: Key)
  {
    (key in now <==> key in was) && (key in was ==> now[key] == was[key])
  }

  /** The stored tree is what the server made of the sent one. */
  ghost predicate StoresSent(sent: Object, stored: Object)
  {
    StoredAs(sent, stored, DroppedSpecFields(GvkOf(sent)))
  }

  /** The store and the server's clock after one write: as they were, or with one object put there. */
  ghost predicate OneWrite(was: Objects, clock: nat, now: Objects, clock': nat, plan: Plan, key: Key, o: Owner)
  {
    || (now == was && clock' == clock)
    || (Replaced(was, now, plan, key, o) && now[key].version == clock && clock' == clock + 1)
  }

  /** What one write does to the stored objects; `sent` is the number of Create and Update calls it issued,
      `answers` says whether those calls and its Get go through. */
  ghost predicate Wrote(was: Objects, now: Objects, sent: int, answers: bool, plan: Plan, kind: string, o: Owner,
                        reason: string)
  {
    var key := Key(kind, plan.ns, plan.name);
    // only the destination is touched
    && (forall k | k != key :: (k in now <==> k in was) && (k in was ==> now[k] == was[k]))
    // a failed write changes nothing, and a stranger is never overwritten
    && (reason != "" ==> now == was)
    && (key in was && !Owns(o, was[key].tree) ==> now == was && reason != "" && sent == 0)
    // success means the destination is as planned
    && (reason == "" ==> key in now && Delivered(now[key].tree, plan))
    // steady state: nothing is sent
    && (key in was && UpToDate(was[key].tree, plan) ==> now == was && sent == 0)
    && 0 <= sent <= 1
    && (sent == 0 ==> now == was)
    // what is stored anew is what the server made of a write of the plan
    && (now == was || Replaced(was, now, plan, key, o))
    && (sent == 0 && reason == "" ==> key in was && UpToDate(was[key].tree, plan))
    && (answers && (key in was ==> Owns(o, was[key].tree)) ==> reason == "")
  }

  /** All there is to say about one write: what it does to the store, what it says to the server and what it reports. */
  ghost predicate Write(was: Objects, clock: nat, before: seq<Request>, now: Objects, clock': nat, after: seq<Request>,
                        f: Faults, plan: Plan, kind: string, key: Key, o: Owner, reason: string)
  {
    && Wrote(was, now, |after| - |before|, Answers(f, key), plan, kind, o, reason)
    && OneWrite(was, clock, now, clock', plan, key, o)
    && Exchange(was, before, after, now, f.get(Cached, key), f.write(key), plan, key, o, reason)
  }

  /** The shared body of the two write functions. The reason is "" on success. */
  method WriteObject(api: Server, dst: Object, kind: string, o: Owner, ghost plan: Plan, key: Key)
    returns (reason: string)
    requires dst == plan.Built() && key == Key(kind, plan.ns, plan.name)
    modifies api
    ensures Write(old(api.objects), old(api.clock), old(api.requests), api.objects, api.clock, api.requests, api.faults,
                  plan, kind, key, o, reason)
  {
    ghost var was, clock, before, f := api.objects, api.clock, api.requests, api.faults;
    var existing := api.Get(Cached, key);
    match existing {
      case NotFound =>
        var ok := api.Create(key, dst);
        if !ok {
          CreateRefused(was, clock, before, f, plan, kind, key, o);
          return "DestinationCreateFailed";
        }
        CreateAccepted(was, clock, before, api.objects, f, plan, kind, key, o);
        return "";
      case GetError =>
        GetFailed(was, clock, before, f, plan, kind, key, o);
        return "DestinationFetchFailed";
      case Got(found) =>
        if !Owns(o, found.tree) {
          Conflicted(was, clock, before, f, plan, kind, key, o);
          return "DestinationConflict";
        }
        reason := RefreshObject(api, dst, kind, o, plan, key, found);
    }
  }

  /** The ends of a write that does not update. */
  lemma GetFailed(was: Objects, clock: nat, before: seq<Request>, f: Faults, plan: Plan, kind: string, key: Key,
                  o: Owner)
    requires key == Key(kind, plan.ns, plan.name) && f.get(Cached, key)
    ensures Write(was, clock, before, was, clock, before, f, plan, kind, key, o, "DestinationFetchFailed")
  {
  }

  lemma CreateRefused(was: Objects, clock: nat, before: seq<Request>, f: Faults, plan: Plan, kind: string, key: Key,
                      o: Owner)
    requires key == Key(kind, plan.ns, plan.name) && !f.get(Cached, key) && key !in was && f.write(key)
    ensures Write(was, clock, before, was, clock, before + [Request(key, plan.Built(), None)], f, plan, kind, key, o,
                  "DestinationCreateFailed")
  {
  }

  lemma CreateAccepted(was: Objects, clock: nat, before: seq<Request>, now: Objects, f: Faults, plan: Plan,
                       kind: string, key: Key, o: Owner)
    requires key == Key(kind, plan.ns, plan.name) && !f.get(Cached, key) && key !in was && !f.write(key)
    requires key in now && now == was[key := now[key]] && now[key].version == clock
    requires StoresSent(plan.Built(), now[key].tree)
    ensures Write(was, clock, before, now, clock + 1, before + [Request(key, plan.Built(), None)], f, plan, kind, key,
                  o, "")
  {
    WroteCreate(was, now, Answers(f, key), plan, kind, o);
    assert Stores(plan, None, now[key].tree);
  }

  lemma Conflicted(was: Objects, clock: nat, before: seq<Request>, f: Faults, plan: Plan, kind: string, key: Key,
                   o: Owner)
    requires key == Key(kind, plan.ns, plan.name) && !f.get(Cached, key) && key in was && !Owns(o, was[key].tree)
    ensures Write(was, clock, before, was, clock, before, f, plan, kind, key, o, "DestinationConflict")
  {
    WroteConflict(was, Answers(f, key), plan, kind, o);
  }

  /** The update half: the object is there and is the writer's. */
  method RefreshObject(api: Server, dst: Object, kind: string, o: Owner, ghost plan: Plan, key: Key, found: Stored)
    returns (reason: string)
    requires dst == plan.Built() && key == Key(kind, plan.ns, plan.name)
    requires key in api.objects && api.objects[key] == found && Owns(o, found.tree) && !api.faults.get(Cached, key)
    modifies api
    ensures Write(old(api.objects), old(api.clock), old(api.requests), api.objects, api.clock, api.requests, api.faults,
                  plan, kind, key, o, reason)
  {
    ghost var was, clock, before, f := api.objects, api.clock, api.requests, api.faults;
    var merged := PreserveAllocatedFields(found.tree, dst);
    var differs := NeedsUpdate(found.tree, merged);
    if !differs {
      NothingToSay(was, clock, before, f, plan, kind, key, o, merged);
      return "";
    }
    var ok := api.Update(key, merged, found.version);
    if !ok {
      UpdateRefused(was, clock, before, f, plan, kind, key, o, merged);
      return "DestinationUpdateFailed";
    }
    UpdateAccepted(was, clock, before, api.objects, f, plan, kind, key, o, merged);
    return "";
  }

  /** An own object that is to be updated: the reconcile has merged the server's fields into the planned object. */
  ghost predicate Updating(was: Objects, f: Faults, plan: Plan, kind: string, key: Key, o: Owner, merged: Object)
  {
    && key == Key(kind, plan.ns, plan.name) && key in was && Owns(o, was[key].tree) && !f.get(Cached, key)
    && merged == Preserve(was[key].tree, plan.Built())
  }

  lemma NothingToSay(was: Objects, clock: nat, before: seq<Request>, f: Faults, plan: Plan, kind: string, key: Key,
                     o: Owner, merged: Object)
    requires Updating(was, f, plan, kind, key, o, merged) && Agree(was[key].tree, merged)
    ensures Write(was, clock, before, was, clock, before, f, plan, kind, key, o, "")
  {
    WroteNothing(was, Answers(f, key), plan, kind, o, merged);
  }

  lemma UpdateRefused(was: Objects, clock: nat, before: seq<Request>, f: Faults, plan: Plan, kind: string, key: Key,
                      o: Owner, merged: Object)
    requires Updating(was, f, plan, kind, key, o, merged) && !Agree(was[key].tree, merged) && f.write(key)
    ensures Write(was, clock, before, was, clock, before + [Request(key, merged, Some(was[key].version))], f, plan,
                  kind, key, o, "DestinationUpdateFailed")
  {
    PreserveMerges(was[key].tree, plan);
    WroteRefused(was, plan, kind, o, merged);
    Exchanged(was, before, before + [Request(key, merged, Some(was[key].version))], was, true, plan, key, o, merged,
              "DestinationUpdateFailed");
  }

  lemma UpdateAccepted(was: Objects, clock: nat, before: seq<Request>, now: Objects, f: Faults, plan: Plan,
                       kind: string, key: Key, o: Owner, merged: Object)
    requires Updating(was, f, plan, kind, key, o, merged) && !Agree(was[key].tree, merged) && !f.write(key)
    requires key in now && now == was[key := now[key]] && now[key].version == clock
    requires StoresSent(merged, now[key].tree)
    ensures Write(was, clock, before, now, clock + 1, before + [Request(key, merged, Some(was[key].version))], f, plan,
                  kind, key, o, "")
  {
    PreserveMerges(was[key].tree, plan);
    WroteUpdate(was, now, Answers(f, key), plan, kind, o, merged);
    assert Stores(plan, Some(was[key].tree), now[key].tree);
    var after := before + [Request(key, merged, Some(was[key].version))];
    Exchanged(was, before, after, now, false, plan, key, o, merged, "");
  }

  lemma Exchanged(was: Objects, before: seq<Request>, after: seq<Request>, now: Objects, writeFails: bool, plan: Plan,
                  key: Key, o: Owner, tree: Object, reason: string)
    requires key in was && Owns(o, was[key].tree) && !UpToDate(was[key].tree, plan) && Merged(was[key].tree, tree, plan)
    requires after == before + [Request(key, tree, Some(was[key].version))]
    requires if writeFails then Same(was, now, key) && reason == "DestinationUpdateFailed"
             else reason == "" && key in now && StoresSent(tree, now[key].tree)
    ensures Exchange(was, before, after, now, false, writeFails, plan, key, o, reason)
  {
  }

  /** The ends of a write, each with what the next write of the plan will find. */
  lemma WroteCreate(was: Objects, now: Objects, answers: bool, plan: Plan, kind: string, o: Owner)
    requires var key := Key(kind, plan.ns, plan.name);
             && key !in was && key in now && now == was[key := now[key]]
             && StoredAs(plan.Built(), now[key].tree, DroppedSpecFields(GvkOf(plan.Built())))
    ensures Wrote(was, now, 1, answers, plan, kind, o, "")
  {
    var key := Key(kind, plan.ns, plan.name);
    assert Stores(plan, None, now[key].tree);
    assert Replaced(was, now, plan, key, o);
  }

  lemma WroteNothing(was: Objects, answers: bool, plan: Plan, kind: string, o: Owner, merged: Object)
    requires Key(kind, plan.ns, plan.name) in was && Owns(o, was[Key(kind, plan.ns, plan.name)].tree)
    requires merged == Preserve(was[Key(kind, plan.ns, plan.name)].tree, plan.Built())
    requires Agree(was[Key(kind, plan.ns, plan.name)].tree, merged)
    ensures Wrote(was, was, 0, answers, plan, kind, o, "")
  {
  }

  lemma WroteConflict(was: Objects, answers: bool, plan: Plan, kind: string, o: Owner)
    requires Key(kind, plan.ns, plan.name) in was && !Owns(o, was[Key(kind, plan.ns, plan.name)].tree)
    ensures Wrote(was, was, 0, answers, plan, kind, o, "DestinationConflict")
  {
  }

  lemma WroteRefused(was: Objects, plan: Plan, kind: string, o: Owner, merged: Object)
    requires Key(kind, plan.ns, plan.name) in was && Owns(o, was[Key(kind, plan.ns, plan.name)].tree)
    requires merged == Preserve(was[Key(kind, plan.ns, plan.name)].tree, plan.Built())
    requires !Agree(was[Key(kind, plan.ns, plan.name)].tree, merged)
    ensures Wrote(was, was, 1, false, plan, kind, o, "DestinationUpdateFailed")
  {
  }

  lemma WroteUpdate(was: Objects, now: Objects, answers: bool, plan: Plan, kind: string, o: Owner, merged: Object)
    requires Key(kind, plan.ns, plan.name) in was && Owns(o, was[Key(kind, plan.ns, plan.name)].tree)
    requires merged == Preserve(was[Key(kind, plan.ns, plan.name)].tree, plan.Built())
    requires !Agree(was[Key(kind, plan.ns, plan.name)].tree, merged)
    requires Key(kind, plan.ns, plan.name) in now
    requires now == was[Key(kind, plan.ns, plan.name) := now[Key(kind, plan.ns, plan.name)]]
    requires StoredAs(merged, now[Key(kind, plan.ns, plan.name)].tree, DroppedSpecFields(GvkOf(merged)))
    ensures Wrote(was, now, 1, answers, plan, kind, o, "")
  {
    var key := Key(kind, plan.ns, plan.name);
    assert Stores(plan, Some(was[key].tree), now[key].tree);
  }

  method WriteDestination(api: Server, proj: Projection, source: Object, kind: string) returns (reason: string)
    modifies api
    ensures var name := if proj.destinationName == "" then proj.source.name else proj.destinationName;
            Write(old(api.objects), old(api.clock), old(api.requests), api.objects, api.clock, api.requests, api.faults,
                  NamespacedPlan(source, proj, proj.namespace), kind, Key(kind, proj.namespace, name),
                  NamespacedOwner(proj), reason)
  {
    var core, labels, annotations := BuildDestinationCore(source, proj.overlay);
    annotations := annotations[OWNED_BY_ANNOTATION := OwnerKey(proj)];
    labels := labels[OWNED_BY_UID_LABEL := proj.uid];
    var (ns, name) := DestinationCoords(proj);
    var dst := Finish(core, labels, annotations, ns, name);
    reason := WriteObject(api, dst, kind, NamespacedOwner(proj), NamespacedPlan(source, proj, ns), Key(kind, ns, name));
  }

  method WriteClusterDestination(api: Server, cp: ClusterProjection, source: Object, ns: string, kind: string)
    returns (reason: string)
    modifies api
    ensures var name := if cp.destinationName == "" then cp.source.name else cp.destinationName;
            Write(old(api.objects), old(api.clock), old(api.requests), api.objects, api.clock, api.requests, api.faults,
                  ClusterPlan(source, cp, ns), kind, Key(kind, ns, name), ClusterOwner(cp), reason)
  {
    var core, labels, annotations := BuildDestinationCore(source, cp.overlay);
    annotations := annotations[OWNED_BY_CLUSTER_ANNOTATION := ClusterOwnerKey(cp)];
    labels := labels[OWNED_BY_CLUSTER_UID_LABEL := cp.uid];
    var name := ClusterDestinationName(cp);
    var dst := Finish(core, labels, annotations, ns, name);
    reason := WriteObject(api, dst, kind, ClusterOwner(cp), ClusterPlan(source, cp, ns), Key(kind, ns, name));
  }

  lemma MarksFrom(o: Owner, tree: Object, l: map<string, string>, a: map<string, string>)
    requires Labels(tree) == Some(l[o.uidLabel := o.uid]) && Annotations(tree) == Some(a[o.annotation := o.value])
    ensures Owns(o, tree) && Labelled(o, tree)
  {
  }

  /** A destination written for a ClusterProjection carries both of its marks. */
  lemma ClusterPlanMarks(tree: Object, source: Object, cp: ClusterProjection, ns: string)
    requires Stampable(source) && Delivered(tree, ClusterPlan(source, cp, ns))
    ensures Owns(ClusterOwner(cp), tree) && Labelled(ClusterOwner(cp), tree)
  {
    DeliveredMaps(tree, ClusterPlan(source, cp, ns));
    ClusterMaps(source, cp, ns);
    MarksFrom(ClusterOwner(cp), tree, CoreLabels(source, cp.overlay), CoreAnnotations(source, cp.overlay));
  }

  lemma NamespacedPlanMarks(tree: Object, source: Object, proj: Projection)
    requires Stampable(source) && Delivered(tree, NamespacedPlan(source, proj, proj.namespace))
    ensures Owns(NamespacedOwner(proj), tree) && Labelled(NamespacedOwner(proj), tree)
  {
    DeliveredMaps(tree, NamespacedPlan(source, proj, proj.namespace));
    NamespacedMaps(source, proj, proj.namespace);
    MarksFrom(NamespacedOwner(proj), tree, CoreLabels(source, proj.overlay), CoreAnnotations(source, proj.overlay));
  }
}
