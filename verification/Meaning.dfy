/** What the builders, the diff and the marks come to in the strings of the API: every statement here names fields, keys
    and annotations literally and none of the tables and merge functions they are computed with. */
module Meaning {
  import opened Wrappers
  import opened Json
  import opened Types
  import opened Destination
  import opened Transform
  import opened Preservation
  import opened ApiServer

  // ----- Labels and annotations, key by key -----

  /** GetLabels and GetAnnotations: readable if metadata holds an object of strings there, null counting as "". */
  lemma MapsRead(o: Object, k: string)
    ensures Readable(Get(o, ["metadata", "labels"])) <==> Labels(o).Some?
    ensures Readable(Get(o, ["metadata", "annotations"])) <==> Annotations(o).Some?
    ensures Labels(o).Some? ==> Entry(Labels(o), k) == EntryAt(Get(o, ["metadata", "labels"]), k)
    ensures Annotations(o).Some? ==> Entry(Annotations(o), k) == EntryAt(Get(o, ["metadata", "annotations"]), k)
  {
  }

  predicate Readable(found: Lookup)
  {
    && found.Found? && found.value.Obj?
    && forall k | k in found.value.fields :: found.value.fields[k].Str? || found.value.fields[k].Null?
  }

  function EntryAt(found: Lookup, k: string): Option<string>
    requires Readable(found)
  {
    if k !in found.value.fields then None
    else Some(if found.value.fields[k].Str? then found.value.fields[k].s else "")
  }

  /** The stamp wins over the overlay, the overlay over the source. */
  lemma ProjectionLabel(source: Object, proj: Projection, ns: string, k: string)
    requires Stampable(source)
    ensures Entry(Labels(BuildDestination(source, proj, ns)), k) ==
            if k == "projection.sh/owned-by-projection-uid" then Some(proj.uid)
            else if k in proj.overlay.labels then Some(proj.overlay.labels[k])
            else Entry(Labels(source), k)
  {
    NamespacedMaps(source, proj, ns);
  }

  lemma ClusterLabel(source: Object, cp: ClusterProjection, ns: string, k: string)
    requires Stampable(source)
    ensures Entry(Labels(BuildClusterDestination(source, cp, ns)), k) ==
            if k == "projection.sh/owned-by-cluster-projection-uid" then Some(cp.uid)
            else if k in cp.overlay.labels then Some(cp.overlay.labels[k])
            else Entry(Labels(source), k)
  {
    ClusterMaps(source, cp, ns);
  }

  /** The same for annotations, where one of the source's is dropped. */
  lemma ProjectionAnnotation(source: Object, proj: Projection, ns: string, k: string)
    requires Stampable(source)
    ensures Entry(Annotations(BuildDestination(source, proj, ns)), k) ==
            if k == "projection.sh/owned-by-projection" then Some(proj.namespace + "/" + proj.name)
            else if k in proj.overlay.annotations then Some(proj.overlay.annotations[k])
            else if k == "kubectl.kubernetes.io/last-applied-configuration" then None
            else Entry(Annotations(source), k)
  {
    NamespacedMaps(source, proj, ns);
  }

  lemma ClusterAnnotation(source: Object, cp: ClusterProjection, ns: string, k: string)
    requires Stampable(source)
    ensures Entry(Annotations(BuildClusterDestination(source, cp, ns)), k) ==
            if k == "projection.sh/owned-by-cluster-projection" then Some(cp.name)
            else if k in cp.overlay.annotations then Some(cp.overlay.annotations[k])
            else if k == "kubectl.kubernetes.io/last-applied-configuration" then None
            else Entry(Annotations(source), k)
  {
    ClusterMaps(source, cp, ns);
  }

  /** Who an object belongs to. */
  lemma OwnsMeans(proj: Projection, cp: ClusterProjection, tree: Object)
    ensures Owns(NamespacedOwner(proj), tree) <==>
            Entry(Annotations(tree), "projection.sh/owned-by-projection") == Some(proj.namespace + "/" + proj.name)
    ensures Labelled(NamespacedOwner(proj), tree) <==>
            Entry(Labels(tree), "projection.sh/owned-by-projection-uid") == Some(proj.uid)
    ensures cp.name != "" ==> (Owns(ClusterOwner(cp), tree) <==>
            Entry(Annotations(tree), "projection.sh/owned-by-cluster-projection") == Some(cp.name))
    ensures Labelled(ClusterOwner(cp), tree) <==>
            Entry(Labels(tree), "projection.sh/owned-by-cluster-projection-uid") == Some(cp.uid)
  {
  }

  // ----- Coordinates -----

  /** A Projection's destination sits in its own namespace, a ClusterProjection's in the target's; the name is the
      spec's, the source's if the spec has none. */
  lemma ProjectionCoords(source: Object, proj: Projection)
    requires Stampable(source) && proj.namespace != "" && proj.source.name != ""
    ensures var d := BuildDestination(source, proj, DestinationCoords(proj).0);
            && Get(d, ["metadata", "namespace"]) == Found(Str(proj.namespace))
            && Get(d, ["metadata", "name"]) ==
               Found(Str(if proj.destinationName == "" then proj.source.name else proj.destinationName))
  {
    BuiltCoords(NamespacedPlan(source, proj, DestinationCoords(proj).0));
  }

  lemma ClusterCoords(source: Object, cp: ClusterProjection, t: string)
    requires Stampable(source) && t != "" && cp.source.name != ""
    ensures var d := BuildClusterDestination(source, cp, t);
            && Get(d, ["metadata", "namespace"]) == Found(Str(t))
            && Get(d, ["metadata", "name"]) ==
               Found(Str(if cp.destinationName == "" then cp.source.name else cp.destinationName))
  {
    BuiltCoords(ClusterPlan(source, cp, t));
  }

  // ----- Metadata -----

  /** The eleven fields of metadata that are not carried over are gone, and every other one but the four that the
      builders set is the source's. */
  lemma MetadataField(plan: Plan, f: string)
    ensures f in {"resourceVersion", "uid", "generation", "creationTimestamp", "deletionTimestamp",
                  "deletionGracePeriodSeconds", "managedFields", "selfLink", "generateName", "ownerReferences",
                  "finalizers"} ==>
              !Get(plan.Built(), ["metadata", f]).Found?
    ensures f !in {"resourceVersion", "uid", "generation", "creationTimestamp", "deletionTimestamp",
                   "deletionGracePeriodSeconds", "managedFields", "selfLink", "generateName", "ownerReferences",
                   "finalizers", "labels", "annotations", "namespace", "name"} ==>
              Get(plan.Built(), ["metadata", f]) == Get(plan.source, ["metadata", f])
  {
    if f in DROPPED_METADATA_FIELDS {
      DropsMeta(plan, f);
    } else if f !in ["annotations", "labels", "namespace", "name"] {
      KeepsOtherMeta(plan, f);
    }
  }

  // ----- Kinds -----

  predicate NoSlash(s: string)
  {
    forall i :: 0 <= i < |s| ==> s[i] != '/'
  }

  lemma {:induction false} NoneToCount(s: string)
    requires NoSlash(s)
    ensures SlashCount(s) == 0
  {
    if s != "" {
      NoneToCount(s[1..]);
    }
  }

  lemma {:induction false} OneToFind(group: string, version: string)
    requires NoSlash(group) && NoSlash(version)
    ensures SlashCount(group + "/" + version) == 1 && FirstSlash(group + "/" + version) == |group|
  {
    var s := group + "/" + version;
    if group == "" {
      assert s[1..] == version;
      NoneToCount(version);
    } else {
      assert s[1..] == group[1..] + "/" + version;
      OneToFind(group[1..], version);
    }
  }

  /** What kind a tree is of: "v1" is the core group, "group/version" the others. */
  lemma KindRead(o: Object, group: string, version: string, kind: string)
    requires NoSlash(group) && NoSlash(version) && version != ""
    requires "apiVersion" in o && o["apiVersion"] == Str(if group == "" then version else group + "/" + version)
    requires "kind" in o && o["kind"] == Str(kind)
    ensures GvkOf(o) == Gvk(group, version, kind)
  {
    if group == "" {
      NoneToCount(version);
      assert version != "/" by {
        assert version[0] != '/';
      }
    } else {
      OneToFind(group, version);
      var gv := group + "/" + version;
      assert gv[..|group|] == group && gv[|group| + 1..] == version;
    }
  }

  /** Outside metadata and status the built object is the source, without the given fields. */
  ghost predicate Without(plan: Plan, gone: set<Path>)
  {
    && (forall p | p in gone :: !Get(plan.Built(), p).Found?)
    && (forall q | q != [] && q[0] != "metadata" && q[0] != "status" && (forall p | p in gone :: Incomparable(p, q)) ::
          Get(plan.Built(), q) == Get(plan.source, q))
    && (forall q | q != [] && q[0] == "status" :: !Get(plan.Built(), q).Found?)
  }

  lemma WithoutTable(plan: Plan, gone: set<Path>)
    requires forall p: Path :: p in gone <==> p in DroppedSpecFields(GvkOf(plan.source))
    ensures Without(plan, gone)
  {
    forall p | p in gone ensures !Get(plan.Built(), p).Found? {
      DropsBody(plan, p);
    }
    forall q | q != [] && q[0] == "status" ensures !Get(plan.Built(), q).Found? {
      DropsBody(plan, q);
    }
    forall q | q != [] && q[0] != "metadata" && q[0] != "status" && (forall p | p in gone :: Incomparable(p, q))
      ensures Get(plan.Built(), q) == Get(plan.source, q)
    {
      KeepsTheRest(plan, q);
    }
  }

  /** Kind by kind, what is not carried over because the API server allocates it. */
  lemma ServiceBuilt(plan: Plan)
    requires GvkOf(plan.source) == Gvk("", "v1", "Service")
    ensures Without(plan, {["spec", "clusterIP"], ["spec", "clusterIPs"], ["spec", "ipFamilies"],
                           ["spec", "ipFamilyPolicy"]})
  {
    WithoutTable(plan, {["spec", "clusterIP"], ["spec", "clusterIPs"], ["spec", "ipFamilies"],
                        ["spec", "ipFamilyPolicy"]});
  }

  lemma ClaimBuilt(plan: Plan)
    requires GvkOf(plan.source) == Gvk("", "v1", "PersistentVolumeClaim")
    ensures Without(plan, {["spec", "volumeName"]})
  {
    WithoutTable(plan, {["spec", "volumeName"]});
  }

  lemma PodBuilt(plan: Plan)
    requires GvkOf(plan.source) == Gvk("", "v1", "Pod")
    ensures Without(plan, {["spec", "nodeName"]})
  {
    WithoutTable(plan, {["spec", "nodeName"]});
  }

  lemma JobBuilt(plan: Plan)
    requires GvkOf(plan.source) == Gvk("batch", "v1", "Job")
    ensures Without(plan, {["spec", "template", "metadata", "labels", "batch.kubernetes.io/controller-uid"],
                           ["spec", "template", "metadata", "labels", "batch.kubernetes.io/job-name"],
                           ["spec", "template", "metadata", "labels", "controller-uid"],
                           ["spec", "selector"]})
  {
    WithoutTable(plan, {["spec", "template", "metadata", "labels", "batch.kubernetes.io/controller-uid"],
                        ["spec", "template", "metadata", "labels", "batch.kubernetes.io/job-name"],
                        ["spec", "template", "metadata", "labels", "controller-uid"],
                        ["spec", "selector"]});
  }

  lemma OtherBuilt(plan: Plan)
    requires GvkOf(plan.source) !in {Gvk("", "v1", "Service"), Gvk("", "v1", "PersistentVolumeClaim"),
                                     Gvk("", "v1", "Pod"), Gvk("batch", "v1", "Job")}
    ensures Without(plan, {})
  {
    WithoutTable(plan, {});
  }

  // ----- The diff -----

  /** A change of any top-level field but metadata and status is seen. */
  lemma DiffSees(o: Object, k: string, v: Json)
    requires k != "metadata" && k != "status" && (if k in o then o[k] else Null) != v
    ensures !Agree(o, o[k := v])
  {
    AgreeMeans(o, o[k := v]);
    var o' := o[k := v];
    assert (if k in o then o[k] else Null) != (if k in o' then o'[k] else Null);
  }

  /** So is a changed label or annotation. */
  lemma DiffSeesMaps(a: Object, b: Object, k: string)
    ensures Entry(Labels(a), k) != Entry(Labels(b), k) ==> !Agree(a, b)
    ensures Entry(Annotations(a), k) != Entry(Annotations(b), k) ==> !Agree(a, b)
  {
  }
}
