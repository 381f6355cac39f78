/** The source-to-destination transform of internal/controller/destination.go: strip, overlay, stamp,
    preserve and diff, with the functions that specify each loop. */
module Destination {
  import opened Wrappers
  import opened Json
  import opened Types

  const OWNED_BY_ANNOTATION := "projection.sh/owned-by-projection"
  const OWNED_BY_UID_LABEL := "projection.sh/owned-by-projection-uid"
  const OWNED_BY_CLUSTER_ANNOTATION := "projection.sh/owned-by-cluster-projection"
  const OWNED_BY_CLUSTER_UID_LABEL := "projection.sh/owned-by-cluster-projection-uid"

  const DROPPED_METADATA_FIELDS: seq<string> := [
    "resourceVersion", "uid", "generation",
    "creationTimestamp", "deletionTimestamp", "deletionGracePeriodSeconds",
    "managedFields", "selfLink", "generateName",
    "ownerReferences", "finalizers"]

  const DROPPED_ANNOTATIONS: seq<string> := ["kubectl.kubernetes.io/last-applied-configuration"]

  datatype Gvk = Gvk(group: string, version: string, kind: string)

  /** droppedSpecFieldsByGVK: what the API server allocates on create. */
  function DroppedSpecFields(gvk: Gvk): seq<FieldPath>
  {
    if gvk == Gvk("", "v1", "Service") then
      [["spec", "clusterIP"], ["spec", "clusterIPs"], ["spec", "ipFamilies"], ["spec", "ipFamilyPolicy"]]
    else if gvk == Gvk("", "v1", "PersistentVolumeClaim") then
      [["spec", "volumeName"]]
    else if gvk == Gvk("", "v1", "Pod") then
      [["spec", "nodeName"]]
    else if gvk == Gvk("batch", "v1", "Job") then
      [["spec", "template", "metadata", "labels", "batch.kubernetes.io/controller-uid"],
       ["spec", "template", "metadata", "labels", "batch.kubernetes.io/job-name"],
       ["spec", "template", "metadata", "labels", "controller-uid"],
       ["spec", "selector"]]
    else
      []
  }

  // ----- Accessors of unstructured.Unstructured -----

  function StringAt(o: Object, k: string): string
  {
    if k in o && o[k].Str? then o[k].s else ""
  }

  function SlashCount(s: string): nat
  {
    if s == "" then 0 else (if s[0] == '/' then 1 else 0) + SlashCount(s[1..])
  }

  function FirstSlash(s: string): (i: nat)
    ensures i <= |s|
    ensures i < |s| ==> s[i] == '/'
  {
    if s == "" || s[0] == '/' then 0 else 1 + FirstSlash(s[1..])
  }

  /** GroupVersionKind(): apiVersion is "version" or "group/version"; anything else gives the empty GVK. */
  function GvkOf(o: Object): Gvk
  {
    var gv := StringAt(o, "apiVersion");
    var kind := StringAt(o, "kind");
    if gv == "" || gv == "/" then Gvk("", "", kind)
    else if SlashCount(gv) == 0 then Gvk("", gv, kind)
    else if SlashCount(gv) == 1 && FirstSlash(gv) < |gv| then Gvk(gv[..FirstSlash(gv)], gv[FirstSlash(gv) + 1..], kind)
    else Gvk("", "", "")
  }

  predicate StringOrNull(v: Json)
  {
    v.Str? || v.Null?
  }

  function AsString(v: Json): string
  {
    if v.Str? then v.s else ""
  }

  /** GetLabels / GetAnnotations: nil (None) unless the field is an object of strings and nulls, where
      nulls read as "". */
  function StringMap(o: Object, field: string): Option<map<string, string>>
  {
    match Get(o, ["metadata", field])
    case Found(Obj(m)) =>
      if forall k | k in m :: StringOrNull(m[k]) then Some(map k | k in m :: AsString(m[k])) else None
    case _ => None
  }

  function FromStringMap(m: map<string, string>): Json
  {
    Obj(map k | k in m :: Str(m[k]))
  }

  /** SetLabels / SetAnnotations with a non-nil map; the error of SetNestedField is ignored. */
  function SetStringMap(o: Object, field: string, m: map<string, string>): Object
  {
    Put(o, ["metadata", field], FromStringMap(m))
  }

  /** SetName / SetNamespace. */
  function SetMetaString(o: Object, field: string, s: string): Object
  {
    if s == "" then Remove(o, ["metadata", field]) else Put(o, ["metadata", field], Str(s))
  }

  function Labels(o: Object): Option<map<string, string>>
  {
    StringMap(o, "labels")
  }

  function Annotations(o: Object): Option<map<string, string>>
  {
    StringMap(o, "annotations")
  }

  /** The metadata of a decoded API object is an object (or absent); only then can it be stamped. */
  predicate Stampable(o: Object)
  {
    "metadata" in o ==> o["metadata"].Obj?
  }

  // ----- Strip -----

  function RemoveAll(o: Object, paths: seq<FieldPath>): Object
  {
    if paths == [] then o
    else Remove(RemoveAll(o, paths[..|paths| - 1]), paths[|paths| - 1])
  }

  function MetaPaths(fields: seq<string>): (ps: seq<FieldPath>)
    ensures |ps| == |fields| && forall i | 0 <= i < |ps| :: ps[i] == ["metadata", fields[i]]
  {
    seq(|fields|, i requires 0 <= i < |fields| => ["metadata", fields[i]])
  }

  lemma TableNonEmpty(gvk: Gvk)
    ensures forall p | p in DroppedSpecFields(gvk) :: |p| > 1 && p[0] == "spec"
  {
  }

  /** Everything buildDestinationCore deletes, in order: metadata fields, allocated fields, status. */
  function Stripped(source: Object): Object
  {
    RemoveAll(RemoveAll(source, MetaPaths(DROPPED_METADATA_FIELDS)), DroppedSpecFields(GvkOf(source))) - {"status"}
  }

  function AllOf(names: seq<string>): set<string>
  {
    set x | x in names
  }

  function CoreAnnotations(source: Object, overlay: Overlay): map<string, string>
  {
    (Annotations(source).GetOr(map[]) - AllOf(DROPPED_ANNOTATIONS)) + overlay.annotations
  }

  function CoreLabels(source: Object, overlay: Overlay): map<string, string>
  {
    Labels(source).GetOr(map[]) + overlay.labels
  }

  // ----- Stamp -----

  /** The tail the two builders share: set both maps, then the namespace and the name. */
  function Finish(o: Object, labels: map<string, string>, annotations: map<string, string>, ns: string,
                  name: string): Object
  {
    SetMetaString(
      SetMetaString(SetStringMap(SetStringMap(o, "annotations", annotations), "labels", labels), "namespace", ns),
      "name", name)
  }

  /** A destination together with what it is built from. */
  datatype Plan = Plan(
    source: Object,
    labels: map<string, string>,
    annotations: map<string, string>,
    ns: string,
    name: string)
  {
    function Built(): Object
    {
      Finish(Stripped(source), labels, annotations, ns, name)
    }
  }

  /** The overlay on top of the source, the stamp of the own tier on top of both. */
  function NamespacedPlan(source: Object, proj: Projection, ns: string): Plan
  {
    Plan(source,
         CoreLabels(source, proj.overlay)[OWNED_BY_UID_LABEL := proj.uid],
         CoreAnnotations(source, proj.overlay)[OWNED_BY_ANNOTATION := OwnerKey(proj)],
         ns, DestinationCoords(proj).1)
  }

  function ClusterPlan(source: Object, cp: ClusterProjection, ns: string): Plan
  {
    Plan(source,
         CoreLabels(source, cp.overlay)[OWNED_BY_CLUSTER_UID_LABEL := cp.uid],
         CoreAnnotations(source, cp.overlay)[OWNED_BY_CLUSTER_ANNOTATION := ClusterOwnerKey(cp)],
         ns, ClusterDestinationName(cp))
  }

  function BuildDestination(source: Object, proj: Projection, ns: string): Object
  {
    NamespacedPlan(source, proj, ns).Built()
  }

  function BuildClusterDestination(source: Object, cp: ClusterProjection, ns: string): Object
  {
    ClusterPlan(source, cp, ns).Built()
  }

  // ----- Preserve -----

  /** One server-allocated value per table entry, None where there is none to copy. */
  function ValuesAt(o: Object, table: seq<FieldPath>): (vs: seq<Option<Json>>)
    ensures |vs| == |table|
  {
    seq(|table|, i requires 0 <= i < |table| => match Get(o, table[i]) case Found(v) => Some(v) case _ => None)
  }

  function Fill(o: Object, table: seq<FieldPath>, vals: seq<Option<Json>>): Object
    requires |vals| == |table|
  {
    if table == [] then o
    else
      var n := |table| - 1;
      var rest := Fill(o, table[..n], vals[..n]);
      if vals[n].Some? then Put(rest, table[n], vals[n].value) else rest
  }

  function Preserve(existing: Object, desired: Object): Object
  {
    var table := DroppedSpecFields(GvkOf(desired));
    Fill(desired, table, ValuesAt(existing, table))
  }

  // ----- Diff -----

  /** Object[k] in Go: an absent key reads as nil, like an explicit null. */
  function TopLevel(o: Object, k: string): Json
  {
    if k in o then o[k] else Null
  }

  /** Equal on everything the controller authors. */
  ghost predicate Agree(a: Object, b: Object)
  {
    && Labels(a) == Labels(b)
    && Annotations(a) == Annotations(b)
    && forall k | k != "metadata" && k != "status" :: TopLevel(a, k) == TopLevel(b, k)
  }

  // ----- The loops of destination.go -----

  /** buildDestinationCore. The source and the overlay are values, so they are never modified. */
  method BuildDestinationCore(source: Object, overlay: Overlay)
    returns (dst: Object, labels: map<string, string>, annotations: map<string, string>)
    ensures dst == Stripped(source)
    ensures labels == CoreLabels(source, overlay)
    ensures annotations == CoreAnnotations(source, overlay)
  {
    dst := RemoveFields(source, MetaPaths(DROPPED_METADATA_FIELDS));
    dst := RemoveFields(dst, DroppedSpecFields(GvkOf(source)));
    dst := dst - {"status"};

    StrippedStringMap(source, "annotations");
    StrippedStringMap(source, "labels");
    annotations := Annotations(dst).GetOr(map[]);
    for i := 0 to |DROPPED_ANNOTATIONS|
      invariant annotations == Annotations(source).GetOr(map[]) - AllOf(DROPPED_ANNOTATIONS[..i])
    {
      annotations := annotations - {DROPPED_ANNOTATIONS[i]};
    }
    assert DROPPED_ANNOTATIONS[..|DROPPED_ANNOTATIONS|] == DROPPED_ANNOTATIONS;
    annotations := MergeInto(annotations, overlay.annotations);
    labels := MergeInto(Labels(dst).GetOr(map[]), overlay.labels);
  }

  method RemoveFields(o: Object, paths: seq<FieldPath>) returns (o': Object)
    ensures o' == RemoveAll(o, paths)
  {
    o' := o;
    for i := 0 to |paths|
      invariant o' == RemoveAll(o, paths[..i])
    {
      assert paths[..i + 1][..i] == paths[..i];
      o' := Remove(o', paths[i]);
    }
    assert paths[..|paths|] == paths;
  }

  /** The overlay loop: overlay entries win over what is there. */
  method MergeInto(base: map<string, string>, overlay: map<string, string>) returns (m: map<string, string>)
    ensures m == base + overlay
  {
    m := base;
    var todo := overlay.Keys;
    while todo != {}
      invariant todo <= overlay.Keys
      invariant m == base + (overlay - todo)
      decreases todo
    {
      var k :| k in todo;
      m := m[k := overlay[k]];
      todo := todo - {k};
    }
  }

  /** The loop of preserveAPIServerAllocatedFields, for any table. */
  method CopyFields(existing: Object, desired: Object, table: seq<FieldPath>) returns (d: Object)
    ensures d == Fill(desired, table, ValuesAt(existing, table))
  {
    d := desired;
    ghost var vals := ValuesAt(existing, table);
    for i := 0 to |table|
      invariant d == Fill(desired, table[..i], vals[..i])
    {
      assert table[..i + 1][..i] == table[..i] && vals[..i + 1][..i] == vals[..i];
      match Get(existing, table[i]) {
        case Found(v) => d := Put(d, table[i], v);
        case _ =>
      }
    }
    assert table[..|table|] == table && vals[..|table|] == vals;
  }

  method PreserveAllocatedFields(existing: Object, desired: Object) returns (d: Object)
    ensures d == Preserve(existing, desired)
  {
    d := CopyFields(existing, desired, DroppedSpecFields(GvkOf(desired)));
  }

  /** The field that two objects with equal maps disagree on, if they do. */
  lemma AgreeMeans(a: Object, b: Object)
    ensures Agree(a, b) <==>
            && Labels(a) == Labels(b)
            && Annotations(a) == Annotations(b)
            && !exists k :: k != "metadata" && k != "status" &&
                 (if k in a then a[k] else Null) != (if k in b then b[k] else Null)
  {
    forall k ensures TopLevel(a, k) == (if k in a then a[k] else Null) {
    }
    forall k ensures TopLevel(b, k) == (if k in b then b[k] else Null) {
    }
  }

  /** needsUpdate is exact: it answers false precisely on objects that agree, which means on labels, annotations and
      every top-level field but metadata and status, a missing field counting as null. */
  method NeedsUpdate(existing: Object, desired: Object) returns (differs: bool)
    ensures !differs <==> Agree(existing, desired)
    ensures differs <==>
            || Labels(existing) != Labels(desired)
            || Annotations(existing) != Annotations(desired)
            || exists k :: k != "metadata" && k != "status" &&
                 (if k in existing then existing[k] else Null) != (if k in desired then desired[k] else Null)
  {
    AgreeMeans(existing, desired);
    if Labels(existing) != Labels(desired) {
      return true;
    }
    if Annotations(existing) != Annotations(desired) {
      return true;
    }
    var keys := existing.Keys + desired.Keys;
    while keys != {}
      invariant keys <= existing.Keys + desired.Keys
      invariant forall k | k != "metadata" && k != "status" && k !in keys ::
                  TopLevel(existing, k) == TopLevel(desired, k)
      decreases keys
    {
      var k :| k in keys;
      if k != "metadata" && k != "status" && TopLevel(existing, k) != TopLevel(desired, k) {
        return true;
      }
      keys := keys - {k};
    }
    return false;
  }

  // ----- Facts about single steps -----

  lemma MetaIncomparable(f: string, g: string)
    requires f != g
    ensures Incomparable(["metadata", f], ["metadata", g])
  {
    assert ["metadata", f][1] == f && ["metadata", g][1] == g;
  }

  lemma HeadsIncomparable(p: Path, q: Path)
    requires p != [] && q != [] && p[0] != q[0]
    ensures Incomparable(p, q)
  {
  }

  lemma {:induction false} RemoveAllOther(o: Object, paths: seq<FieldPath>, q: Path)
    requires forall p | p in paths :: Incomparable(p, q)
    ensures Get(RemoveAll(o, paths), q) == Get(o, q)
  {
    if paths != [] {
      RemoveAllOther(o, paths[..|paths| - 1], q);
      GetRemoveOther(RemoveAll(o, paths[..|paths| - 1]), paths[|paths| - 1], q);
    }
  }

  lemma {:induction false} RemoveAllAbsent(o: Object, paths: seq<FieldPath>, q: Path)
    requires q in paths || !Get(o, q).Found?
    ensures !Get(RemoveAll(o, paths), q).Found?
  {
    if paths != [] {
      var n := |paths| - 1;
      var prev := RemoveAll(o, paths[..n]);
      if q == paths[n] {
        GetRemoveSame(prev, q);
      } else {
        assert q in paths ==> q in paths[..n];
        RemoveAllAbsent(o, paths[..n], q);
        RemoveKeepsAbsence(prev, paths[n], q);
      }
    }
  }

  lemma DropTopLevel(o: Object, k: string, q: Path)
    requires q != []
    ensures q[0] != k ==> Get(o - {k}, q) == Get(o, q)
    ensures q[0] == k ==> !Get(o - {k}, q).Found?
  {
  }

  lemma StrippedMeta(source: Object, f: string)
    requires f !in DROPPED_METADATA_FIELDS
    ensures Get(Stripped(source), ["metadata", f]) == Get(source, ["metadata", f])
  {
    var q := ["metadata", f];
    var meta := MetaPaths(DROPPED_METADATA_FIELDS);
    forall p | p in meta ensures Incomparable(p, q) {
      var i :| 0 <= i < |meta| && meta[i] == p;
      MetaIncomparable(DROPPED_METADATA_FIELDS[i], f);
    }
    RemoveAllOther(source, meta, q);
    TableNonEmpty(GvkOf(source));
    var table := DroppedSpecFields(GvkOf(source));
    forall p | p in table ensures Incomparable(p, q) {
      HeadsIncomparable(p, q);
    }
    RemoveAllOther(RemoveAll(source, meta), table, q);
    DropTopLevel(RemoveAll(RemoveAll(source, meta), table), "status", q);
  }

  lemma StrippedStringMap(source: Object, field: string)
    requires field !in DROPPED_METADATA_FIELDS
    ensures StringMap(Stripped(source), field) == StringMap(source, field)
  {
    StrippedMeta(source, field);
  }
}
