/** What the transform means, path by path, what the diff does not see, and which marks a built object carries. */
module Transform {
  import opened Wrappers
  import opened Json
  import opened Types
  import opened Destination

  // ----- The built object, path by path -----

  lemma SettableMeta(o: Object, f: string)
    ensures Settable(o, ["metadata", f]) <==> Stampable(o)
  {
    var p := ["metadata", f];
    assert p[1..] == [f];
  }

  lemma {:induction false} RemoveAllStampable(o: Object, paths: seq<FieldPath>)
    requires forall p | p in paths :: |p| > 1
    ensures Stampable(RemoveAll(o, paths)) <==> Stampable(o)
  {
    if paths != [] {
      RemoveAllStampable(o, paths[..|paths| - 1]);
    }
  }

  lemma StrippedStampable(source: Object)
    ensures Stampable(Stripped(source)) <==> Stampable(source)
  {
    RemoveAllStampable(source, MetaPaths(DROPPED_METADATA_FIELDS));
    TableNonEmpty(GvkOf(source));
    RemoveAllStampable(RemoveAll(source, MetaPaths(DROPPED_METADATA_FIELDS)), DroppedSpecFields(GvkOf(source)));
  }

  /** A setter or remover of one metadata field leaves every other path alone. */
  lemma SetMetaStringOther(o: Object, f: string, s: string, q: Path)
    requires Incomparable(["metadata", f], q)
    ensures Get(SetMetaString(o, f, s), q) == Get(o, q)
  {
    if s == "" {
      GetRemoveOther(o, ["metadata", f], q);
    } else {
      GetPutOther(o, ["metadata", f], Str(s), q);
    }
  }

  lemma FinishOther(o: Object, l: map<string, string>, a: map<string, string>, ns: string, name: string, q: Path)
    requires forall f | f in ["annotations", "labels", "namespace", "name"] :: Incomparable(["metadata", f], q)
    ensures Get(Finish(o, l, a, ns, name), q) == Get(o, q)
  {
    var fs := ["annotations", "labels", "namespace", "name"];
    assert fs[0] in fs && fs[1] in fs && fs[2] in fs && fs[3] in fs;
    var o1 := SetStringMap(o, "annotations", a);
    var o2 := SetStringMap(o1, "labels", l);
    GetPutOther(o, ["metadata", "annotations"], FromStringMap(a), q);
    GetPutOther(o1, ["metadata", "labels"], FromStringMap(l), q);
    SetMetaStringOther(o2, "namespace", ns, q);
    SetMetaStringOther(SetMetaString(o2, "namespace", ns), "name", name, q);
  }

  lemma StringMapRoundTrip(m: map<string, string>)
    ensures var j := FromStringMap(m);
            (forall k | k in j.fields :: StringOrNull(j.fields[k])) &&
            (map k | k in j.fields :: AsString(j.fields[k])) == m
  {
  }

  /** Both string maps are set, and survive the later setters, exactly when metadata is an object or absent. */
  lemma FinishMaps(o: Object, l: map<string, string>, a: map<string, string>, ns: string, name: string)
    ensures var d := Finish(o, l, a, ns, name);
            Annotations(d) == (if Stampable(o) then Some(a) else None) &&
            Labels(d) == (if Stampable(o) then Some(l) else None)
  {
    var pa, pl := ["metadata", "annotations"], ["metadata", "labels"];
    var o1 := SetStringMap(o, "annotations", a);
    var o2 := SetStringMap(o1, "labels", l);
    var o3 := SetMetaString(o2, "namespace", ns);
    SettableMeta(o, "annotations");
    SettableMeta(o1, "labels");
    MetaIncomparable("annotations", "labels");
    MetaIncomparable("namespace", "annotations");
    MetaIncomparable("namespace", "labels");
    MetaIncomparable("name", "annotations");
    MetaIncomparable("name", "labels");
    SetMetaStringOther(o2, "namespace", ns, pa);
    SetMetaStringOther(o2, "namespace", ns, pl);
    SetMetaStringOther(o3, "name", name, pa);
    SetMetaStringOther(o3, "name", name, pl);
    if Stampable(o) {
      GetPutSame(o, pa, FromStringMap(a));
      SettableMeta(o1, "annotations");
      GetPutOther(o1, pl, FromStringMap(l), pa);
      GetPutSame(o1, pl, FromStringMap(l));
      StringMapRoundTrip(a);
      StringMapRoundTrip(l);
    } else {
      PutBlocked(o, pa, FromStringMap(a));
      PutBlocked(o1, pl, FromStringMap(l));
    }
  }

  lemma SetMetaStringSame(o: Object, f: string, s: string)
    requires Stampable(o)
    ensures Stampable(SetMetaString(o, f, s)) && Holds(SetMetaString(o, f, s), f, s)
  {
    SettableMeta(o, f);
    if s == "" {
      GetRemoveSame(o, ["metadata", f]);
    } else {
      GetPutSame(o, ["metadata", f], Str(s));
    }
  }

  /** The metadata string is the given one; the empty string stands for absence. */
  predicate Holds(o: Object, f: string, s: string)
  {
    var got := Get(o, ["metadata", f]);
    if s == "" then !got.Found? else got == Found(Str(s))
  }

  /** A built object sits at the coordinates it was built for, whatever namespace and name the source has. */
  lemma BuiltCoords(plan: Plan)
    requires Stampable(plan.source)
    ensures Holds(plan.Built(), "namespace", plan.ns)
    ensures Holds(plan.Built(), "name", plan.name)
  {
    StrippedStampable(plan.source);
    var o1 := SetStringMap(Stripped(plan.source), "annotations", plan.annotations);
    var o2 := SetStringMap(o1, "labels", plan.labels);
    StringMapStampable(Stripped(plan.source), "annotations", plan.annotations);
    StringMapStampable(o1, "labels", plan.labels);
    SetMetaStringSame(o2, "namespace", plan.ns);
    SetMetaStringSame(SetMetaString(o2, "namespace", plan.ns), "name", plan.name);
    MetaIncomparable("name", "namespace");
    SetMetaStringOther(SetMetaString(o2, "namespace", plan.ns), "name", plan.name, ["metadata", "namespace"]);
  }

  lemma StringMapStampable(o: Object, f: string, m: map<string, string>)
    requires Stampable(o)
    ensures Stampable(SetStringMap(o, f, m))
  {
    SettableMeta(o, f);
    GetPutSame(o, ["metadata", f], FromStringMap(m));
    SettableMeta(SetStringMap(o, f, m), f);
  }

  lemma StrippedElsewhere(source: Object, q: Path)
    requires q != [] && q[0] != "metadata" && q[0] != "status"
    requires forall p | p in DroppedSpecFields(GvkOf(source)) :: Incomparable(p, q)
    ensures Get(Stripped(source), q) == Get(source, q)
  {
    var meta := MetaPaths(DROPPED_METADATA_FIELDS);
    forall p | p in meta ensures Incomparable(p, q) {
      HeadsIncomparable(p, q);
    }
    RemoveAllOther(source, meta, q);
    RemoveAllOther(RemoveAll(source, meta), DroppedSpecFields(GvkOf(source)), q);
    DropTopLevel(RemoveAll(RemoveAll(source, meta), DroppedSpecFields(GvkOf(source))), "status", q);
  }

  lemma StrippedGone(source: Object, q: Path)
    requires || q in MetaPaths(DROPPED_METADATA_FIELDS)
             || q in DroppedSpecFields(GvkOf(source))
             || (q != [] && q[0] == "status")
    ensures !Get(Stripped(source), q).Found?
  {
    var meta := MetaPaths(DROPPED_METADATA_FIELDS);
    var table := DroppedSpecFields(GvkOf(source));
    TableNonEmpty(GvkOf(source));
    DropTopLevel(RemoveAll(RemoveAll(source, meta), table), "status", q);
    if q[0] != "status" {
      if q in meta {
        RemoveAllAbsent(source, meta, q);
      }
      RemoveAllAbsent(RemoveAll(source, meta), table, q);
    }
  }

  /** Outside metadata and status, what branches off the dropped paths is the source's. */
  lemma KeepsTheRest(plan: Plan, q: Path)
    requires q != [] && q[0] != "metadata" && q[0] != "status"
    requires forall p | p in DroppedSpecFields(GvkOf(plan.source)) :: Incomparable(p, q)
    ensures Get(plan.Built(), q) == Get(plan.source, q)
  {
    StrippedElsewhere(plan.source, q);
    forall f: string ensures Incomparable(["metadata", f], q) {
      HeadsIncomparable(["metadata", f], q);
    }
    FinishOther(Stripped(plan.source), plan.labels, plan.annotations, plan.ns, plan.name, q);
  }

  lemma KeptMetaFields()
    ensures "annotations" !in DROPPED_METADATA_FIELDS && "labels" !in DROPPED_METADATA_FIELDS
    ensures "namespace" !in DROPPED_METADATA_FIELDS && "name" !in DROPPED_METADATA_FIELDS
  {
  }

  lemma DropsMeta(plan: Plan, f: string)
    requires f in DROPPED_METADATA_FIELDS
    ensures !Get(plan.Built(), ["metadata", f]).Found?
  {
    var q := ["metadata", f];
    var i :| 0 <= i < |DROPPED_METADATA_FIELDS| && f == DROPPED_METADATA_FIELDS[i];
    assert MetaPaths(DROPPED_METADATA_FIELDS)[i] == q;
    StrippedGone(plan.source, q);
    KeptMetaFields();
    forall g | g in ["annotations", "labels", "namespace", "name"] ensures Incomparable(["metadata", g], q) {
      MetaIncomparable(g, f);
    }
    FinishOther(Stripped(plan.source), plan.labels, plan.annotations, plan.ns, plan.name, q);
  }

  /** Every other metadata field is carried over. */
  lemma KeepsOtherMeta(plan: Plan, f: string)
    requires f !in DROPPED_METADATA_FIELDS && f !in ["annotations", "labels", "namespace", "name"]
    ensures Get(plan.Built(), ["metadata", f]) == Get(plan.source, ["metadata", f])
  {
    StrippedMeta(plan.source, f);
    forall g | g in ["annotations", "labels", "namespace", "name"]
      ensures Incomparable(["metadata", g], ["metadata", f])
    {
      MetaIncomparable(g, f);
    }
    FinishOther(Stripped(plan.source), plan.labels, plan.annotations, plan.ns, plan.name, ["metadata", f]);
  }

  /** Every dropped spec path and the whole of status is absent. */
  lemma DropsBody(plan: Plan, q: Path)
    requires q in DroppedSpecFields(GvkOf(plan.source)) || (q != [] && q[0] == "status")
    ensures !Get(plan.Built(), q).Found?
  {
    StrippedGone(plan.source, q);
    TableNonEmpty(GvkOf(plan.source));
    forall f: string ensures Incomparable(["metadata", f], q) {
      HeadsIncomparable(["metadata", f], q);
    }
    FinishOther(Stripped(plan.source), plan.labels, plan.annotations, plan.ns, plan.name, q);
  }

  /** Labels and annotations of a Projection's destination: (source minus dropped), overridden by the overlay,
      overridden by the namespaced-tier stamp. */
  lemma NamespacedMaps(source: Object, proj: Projection, ns: string)
    requires Stampable(source)
    ensures Annotations(BuildDestination(source, proj, ns)) ==
            Some(CoreAnnotations(source, proj.overlay)[OWNED_BY_ANNOTATION := OwnerKey(proj)])
    ensures Labels(BuildDestination(source, proj, ns)) ==
            Some(CoreLabels(source, proj.overlay)[OWNED_BY_UID_LABEL := proj.uid])
  {
    StrippedStampable(source);
    var plan := NamespacedPlan(source, proj, ns);
    FinishMaps(Stripped(source), plan.labels, plan.annotations, ns, plan.name);
  }

  lemma ClusterMaps(source: Object, cp: ClusterProjection, ns: string)
    requires Stampable(source)
    ensures Annotations(BuildClusterDestination(source, cp, ns)) ==
            Some(CoreAnnotations(source, cp.overlay)[OWNED_BY_CLUSTER_ANNOTATION := ClusterOwnerKey(cp)])
    ensures Labels(BuildClusterDestination(source, cp, ns)) ==
            Some(CoreLabels(source, cp.overlay)[OWNED_BY_CLUSTER_UID_LABEL := cp.uid])
  {
    StrippedStampable(source);
    var plan := ClusterPlan(source, cp, ns);
    FinishMaps(Stripped(source), plan.labels, plan.annotations, ns, plan.name);
  }

  // ----- What the diff does not see -----

  /** "Needs no update" is an equivalence relation. */
  lemma AgreeIsEquivalence(a: Object, b: Object, c: Object)
    ensures Agree(a, a) && (Agree(a, b) ==> Agree(b, a)) && (Agree(a, b) && Agree(b, c) ==> Agree(a, c))
  {
  }

  /** It is blind to what the server keeps: any metadata field but labels and annotations, and all of status. */
  lemma BlindToBookkeeping(o: Object, f: string, v: Json)
    requires f != "labels" && f != "annotations"
    ensures Agree(o, Put(o, ["metadata", f], v)) && Agree(o, Remove(o, ["metadata", f]))
  {
    PutHead(o, ["metadata", f], v);
    MapsApart(o, f, v, "labels");
    MapsApart(o, f, v, "annotations");
  }

  lemma MapsApart(o: Object, f: string, v: Json, g: string)
    requires f != g
    ensures StringMap(Put(o, ["metadata", f], v), g) == StringMap(Remove(o, ["metadata", f]), g) == StringMap(o, g)
  {
    MetaIncomparable(f, g);
    GetPutOther(o, ["metadata", f], v, ["metadata", g]);
    GetRemoveOther(o, ["metadata", f], ["metadata", g]);
  }

  lemma BlindToStatus(o: Object, v: Json)
    ensures Agree(o, o["status" := v]) && Agree(o, o - {"status"})
  {
    StatusApart(o, v, "labels");
    StatusApart(o, v, "annotations");
  }

  lemma StatusApart(o: Object, v: Json, g: string)
    ensures StringMap(o["status" := v], g) == StringMap(o - {"status"}, g) == StringMap(o, g)
  {
    HeadsIncomparable(["status"], ["metadata", g]);
    GetPutOther(o, ["status"], v, ["metadata", g]);
    DropTopLevel(o, "status", ["metadata", g]);
  }

  // ----- Stamps -----

  function Entry(m: Option<map<string, string>>, k: string): Option<string>
  {
    if m.Some? && k in m.value then Some(m.value[k]) else None
  }

  function StampOf(o: Object): Stamp
  {
    Stamp(Entry(Annotations(o), OWNED_BY_ANNOTATION), Entry(Labels(o), OWNED_BY_UID_LABEL),
          Entry(Annotations(o), OWNED_BY_CLUSTER_ANNOTATION), Entry(Labels(o), OWNED_BY_CLUSTER_UID_LABEL))
  }

  /** The marks that source and overlay bring along, before the builder adds its own. */
  function Carried(source: Object, overlay: Overlay): Stamp
  {
    var a, l := Some(CoreAnnotations(source, overlay)), Some(CoreLabels(source, overlay));
    Stamp(Entry(a, OWNED_BY_ANNOTATION), Entry(l, OWNED_BY_UID_LABEL),
          Entry(a, OWNED_BY_CLUSTER_ANNOTATION), Entry(l, OWNED_BY_CLUSTER_UID_LABEL))
  }

  lemma KeysDiffer()
    ensures OWNED_BY_ANNOTATION != OWNED_BY_CLUSTER_ANNOTATION && OWNED_BY_UID_LABEL != OWNED_BY_CLUSTER_UID_LABEL
  {
    assert |OWNED_BY_ANNOTATION| < |OWNED_BY_CLUSTER_ANNOTATION|;
    assert |OWNED_BY_UID_LABEL| < |OWNED_BY_CLUSTER_UID_LABEL|;
  }

  lemma MarksAreNotDropped()
    ensures OWNED_BY_ANNOTATION !in DROPPED_ANNOTATIONS && OWNED_BY_CLUSTER_ANNOTATION !in DROPPED_ANNOTATIONS
  {
    assert |OWNED_BY_ANNOTATION| < |OWNED_BY_CLUSTER_ANNOTATION| < |DROPPED_ANNOTATIONS[0]|;
  }

  /** Each builder overwrites its own tier's marks and lets the other tier's marks through. */
  lemma NamespacedStamp(source: Object, proj: Projection, ns: string)
    requires Stampable(source)
    ensures StampOf(BuildDestination(source, proj, ns)) ==
            Carried(source, proj.overlay).(nsOwner := Some(OwnerKey(proj)), nsUid := Some(proj.uid))
  {
    KeysDiffer();
    NamespacedMaps(source, proj, ns);
  }

  lemma ClusterStamp(source: Object, cp: ClusterProjection, ns: string)
    requires Stampable(source)
    ensures StampOf(BuildClusterDestination(source, cp, ns)) ==
            Carried(source, cp.overlay).(clOwner := Some(ClusterOwnerKey(cp)), clUid := Some(cp.uid))
  {
    KeysDiffer();
    ClusterMaps(source, cp, ns);
  }

  /** A dropped annotation is on the built object if and only if the overlay puts it there: it is removed before the
      overlay is merged. */
  lemma DroppedAnnotationExactly(source: Object, proj: Projection, ns: string, x: string)
    requires Stampable(source) && x in DROPPED_ANNOTATIONS
    ensures Entry(Annotations(BuildDestination(source, proj, ns)), x) == Entry(Some(proj.overlay.annotations), x)
  {
    MarksAreNotDropped();
    NamespacedMaps(source, proj, ns);
  }

  lemma DroppedAnnotationByClusterExactly(source: Object, cp: ClusterProjection, ns: string, x: string)
    requires Stampable(source) && x in DROPPED_ANNOTATIONS
    ensures Entry(Annotations(BuildClusterDestination(source, cp, ns)), x) == Entry(Some(cp.overlay.annotations), x)
  {
    MarksAreNotDropped();
    ClusterMaps(source, cp, ns);
  }

  /** An overlay that carries the last-applied annotation brings it back, value and all. */
  lemma OverlayRestoresLastApplied(source: Object, proj: Projection, ns: string, v: string)
    requires Stampable(source)
    ensures var p := proj.(overlay := Overlay(map[], map[DROPPED_ANNOTATIONS[0] := v]));
            Entry(Annotations(BuildDestination(source, p, ns)), DROPPED_ANNOTATIONS[0]) == Some(v)
  {
    var p := proj.(overlay := Overlay(map[], map[DROPPED_ANNOTATIONS[0] := v]));
    DroppedAnnotationExactly(source, p, ns, DROPPED_ANNOTATIONS[0]);
  }

  /** A Projection's destination is co-owned exactly when source or overlay carries the cluster-tier annotation. */
  lemma CoOwnedExactly(source: Object, proj: Projection, ns: string)
    requires Stampable(source)
    ensures CoOwned(StampOf(BuildDestination(source, proj, ns))) <==>
            OWNED_BY_CLUSTER_ANNOTATION in proj.overlay.annotations ||
            (Annotations(source).Some? && OWNED_BY_CLUSTER_ANNOTATION in Annotations(source).value)
  {
    NamespacedStamp(source, proj, ns);
    MarksAreNotDropped();
  }

  lemma CoOwnedByClusterExactly(source: Object, cp: ClusterProjection, ns: string)
    requires Stampable(source)
    ensures CoOwned(StampOf(BuildClusterDestination(source, cp, ns))) <==>
            OWNED_BY_ANNOTATION in cp.overlay.annotations ||
            (Annotations(source).Some? && OWNED_BY_ANNOTATION in Annotations(source).value)
  {
    ClusterStamp(source, cp, ns);
    MarksAreNotDropped();
  }

  /** Chaining a Projection onto a ClusterProjection's destination co-owns the copy: the stored cluster-tier
      destination carries the cluster annotation, and the namespaced builder lets it through. */
  lemma ChainedProjectionIsCoOwned(source: Object, cp: ClusterProjection, ns: string, proj: Projection, ns2: string)
    requires Stampable(source)
    ensures var mid := BuildClusterDestination(source, cp, ns);
            Stampable(mid) &&
            StampOf(BuildDestination(mid, proj, ns2)).nsOwner == Some(OwnerKey(proj)) &&
            (OWNED_BY_CLUSTER_ANNOTATION !in proj.overlay.annotations ==>
              StampOf(BuildDestination(mid, proj, ns2)).clOwner == Some(ClusterOwnerKey(cp)))
  {
    var mid := BuildClusterDestination(source, cp, ns);
    ClusterStamp(source, cp, ns);
    AnnotatedIsStampable(mid);
    NamespacedKeepsClusterMark(mid, proj, ns2);
  }

  lemma NamespacedKeepsClusterMark(source: Object, proj: Projection, ns: string)
    requires Stampable(source)
    ensures StampOf(BuildDestination(source, proj, ns)).nsOwner == Some(OwnerKey(proj))
    ensures OWNED_BY_CLUSTER_ANNOTATION !in proj.overlay.annotations ==>
              StampOf(BuildDestination(source, proj, ns)).clOwner == StampOf(source).clOwner
  {
    NamespacedStamp(source, proj, ns);
    if OWNED_BY_CLUSTER_ANNOTATION !in proj.overlay.annotations {
      CarriesClusterMark(source, proj.overlay);
    }
  }

  lemma AnnotatedIsStampable(o: Object)
    requires Annotations(o).Some?
    ensures Stampable(o)
  {
    if !Stampable(o) {
      PutBlockedMeta(o);
    }
  }

  lemma CarriesClusterMark(source: Object, overlay: Overlay)
    requires OWNED_BY_CLUSTER_ANNOTATION !in overlay.annotations
    ensures Carried(source, overlay).clOwner == StampOf(source).clOwner
  {
    MarksAreNotDropped();
  }

  lemma PutBlockedMeta(o: Object)
    requires !Stampable(o)
    ensures Annotations(o).None?
  {
    SettableMeta(o, "annotations");
    PutBlocked(o, ["metadata", "annotations"], Null);
  }
}
