/** The event-to-request maps: which custom resources a source event or a namespace event enqueues, and how a
    ClusterProjection's targets are resolved (watches.go, cluster_projection_controller.go). */
module Events {
  import opened Wrappers
  import opened Types
  import opened Keys
  import opened Lists
  import opened Ordering

  function Filter<T>(xs: seq<T>, p: T -> bool): seq<T>
  {
    if xs == [] then []
    else Filter(xs[..|xs| - 1], p) + if p(xs[|xs| - 1]) then [xs[|xs| - 1]] else []
  }

  lemma {:induction false} FilterCong<T>(xs: seq<T>, p: T -> bool, q: T -> bool)
    requires forall i :: 0 <= i < |xs| ==> p(xs[i]) == q(xs[i])
    ensures Filter(xs, p) == Filter(xs, q)
  {
    if xs != [] {
      FilterCong(xs[..|xs| - 1], p, q);
    }
  }

  lemma {:induction false} FilterHas<T>(xs: seq<T>, p: T -> bool, i: nat)
    requires i < |xs| && p(xs[i])
    ensures xs[i] in Filter(xs, p)
  {
    if i < |xs| - 1 {
      FilterHas(xs[..|xs| - 1], p, i);
    }
  }

  lemma {:induction false} FilterFrom<T>(xs: seq<T>, p: T -> bool, j: nat) returns (i: nat)
    requires j < |Filter(xs, p)|
    ensures i < |xs| && p(xs[i]) && Filter(xs, p)[j] == xs[i]
    decreases |xs|
  {
    var n := |xs| - 1;
    if j < |Filter(xs[..n], p)| {
      i := FilterFrom(xs[..n], p, j);
    } else {
      i := n;
    }
  }

  // ----- Source events -----

  /** The SourceRef that mapSource makes of an event: the resolved version is not part of it. */
  function EventRef(group: string, kind: string, namespace: string, name: string): SourceRef
  {
    SourceRef(group, "", kind, namespace, name)
  }

  /** A cached List by the sourceKey field index. */
  function ByIndex(list: seq<Projection>, key: string): seq<Projection>
  {
    Filter(list, (p: Projection) => SourceKey(p.source) == key)
  }

  function RequestsOf(list: seq<Projection>): (rs: seq<(string, string)>)
    ensures |rs| == |list| && forall i :: 0 <= i < |rs| ==> rs[i] == (list[i].namespace, list[i].name)
  {
    seq(|list|, i requires 0 <= i < |list| => (list[i].namespace, list[i].name))
  }

  /** The reference names this object, in whatever version. */
  predicate IsAt(ref: SourceRef, group: string, kind: string, namespace: string, name: string)
  {
    ref.group == group && ref.kind == kind && ref.namespace == namespace && ref.name == name
  }

  lemma {:induction false} RequestsOfExact(list: seq<Projection>, group: string, kind: string, namespace: string,
                                           name: string)
    ensures var reqs := RequestsOf(Filter(list, (p: Projection) => IsAt(p.source, group, kind, namespace, name)));
            forall ns, n :: (ns, n) in reqs <==>
              exists i :: 0 <= i < |list| && list[i].namespace == ns && list[i].name == n &&
                list[i].source.group == group && list[i].source.kind == kind &&
                list[i].source.namespace == namespace && list[i].source.name == name
  {
    var at := (p: Projection) => IsAt(p.source, group, kind, namespace, name);
    var reqs := RequestsOf(Filter(list, at));
    forall ns, n
      ensures (ns, n) in reqs <==>
              exists i :: 0 <= i < |list| && list[i].namespace == ns && list[i].name == n &&
                list[i].source.group == group && list[i].source.kind == kind &&
                list[i].source.namespace == namespace && list[i].source.name == name
    {
      if (ns, n) in reqs {
        var j :| 0 <= j < |reqs| && reqs[j] == (ns, n);
        var i := FilterFrom(list, at, j);
        assert list[i].namespace == ns;
      }
      if i :| 0 <= i < |list| && list[i].namespace == ns && list[i].name == n &&
              list[i].source.group == group && list[i].source.kind == kind &&
              list[i].source.namespace == namespace && list[i].source.name == name {
        FilterHas(list, at, i);
        var j :| 0 <= j < |Filter(list, at)| && Filter(list, at)[j] == list[i];
        assert reqs[j] == (ns, n);
      }
    }
  }

  /** mapSource enqueues exactly the Projections whose source is the changed object, pinned to a version or not. */
  method MapSource(list: seq<Projection>, group: string, kind: string, namespace: string, name: string)
    returns (reqs: seq<(string, string)>)
    requires Admitted(EventRef(group, kind, namespace, name))
    requires forall i :: 0 <= i < |list| ==> Admitted(list[i].source)
    ensures reqs == RequestsOf(Filter(list, (p: Projection) => IsAt(p.source, group, kind, namespace, name)))
    ensures forall ns, n :: (ns, n) in reqs <==>
              exists i :: 0 <= i < |list| && list[i].namespace == ns && list[i].name == n &&
                list[i].source.group == group && list[i].source.kind == kind &&
                list[i].source.namespace == namespace && list[i].source.name == name
  {
    RequestsOfExact(list, group, kind, namespace, name);
    var ref := EventRef(group, kind, namespace, name);
    var items := ByIndex(list, SourceKey(ref));
    forall i | 0 <= i < |list|
      ensures (SourceKey(list[i].source) == SourceKey(ref)) ==
              IsAt(list[i].source, ref.group, ref.kind, ref.namespace, ref.name)
    {
      SourceKeyInjective(list[i].source, ref);
    }
    FilterCong(list, (p: Projection) => SourceKey(p.source) == SourceKey(ref),
               (p: Projection) => IsAt(p.source, group, kind, namespace, name));
    reqs := [];
    for i := 0 to |items|
      invariant reqs == RequestsOf(items[..i])
    {
      assert items[..i + 1][..i] == items[..i];
      reqs := reqs + [(items[i].namespace, items[i].name)];
    }
    assert items[..|items|] == items;
  }

  /** The cluster-tier index answers a source event the same way. */
  lemma ClusterIndexExact(list: seq<ClusterProjection>, ref: SourceRef)
    requires Admitted(ref) && forall i :: 0 <= i < |list| ==> Admitted(list[i].source)
    ensures Filter(list, (cp: ClusterProjection) => SourceKey(cp.source) == SourceKey(ref)) ==
            Filter(list, (cp: ClusterProjection) => IsAt(cp.source, ref.group, ref.kind, ref.namespace, ref.name))
  {
    forall i | 0 <= i < |list|
      ensures (SourceKey(list[i].source) == SourceKey(ref)) ==
              IsAt(list[i].source, ref.group, ref.kind, ref.namespace, ref.name)
    {
      SourceKeyInjective(list[i].source, ref);
    }
    FilterCong(list, (cp: ClusterProjection) => SourceKey(cp.source) == SourceKey(ref),
               (cp: ClusterProjection) => IsAt(cp.source, ref.group, ref.kind, ref.namespace, ref.name));
  }

  // ----- Target resolution -----

  datatype Namespace = Namespace(labels: map<string, string>, terminating: bool)
  datatype Item = Item(name: string, ns: Namespace)

  predicate Selects(cp: ClusterProjection, labels: map<string, string>)
  {
    cp.selector.Some? && !cp.selector.value.invalid && !cp.selector.value.empty && cp.selector.value.matches(labels)
  }

  /** The namespaces a ClusterProjection targets; None when target resolution fails. */
  ghost function TargetSet(cp: ClusterProjection, cluster: map<string, Namespace>): Option<set<string>>
  {
    if |cp.namespaces| > 0 then Some(SetOf(cp.namespaces))
    else if cp.selector.None? || cp.selector.value.invalid || cp.selector.value.empty then None
    else Some(set n | n in cluster && Selects(cp, cluster[n].labels) && !cluster[n].terminating)
  }

  /** Target resolution in full: it fails exactly without a list and without a usable selector; otherwise a namespace is
      a target if it is on the list, or exists, is not terminating and its labels match. */
  lemma TargetSetMeans(cp: ClusterProjection, cluster: map<string, Namespace>, n: string)
    ensures TargetSet(cp, cluster).None? <==>
            cp.namespaces == [] && (cp.selector.None? || cp.selector.value.invalid || cp.selector.value.empty)
    ensures TargetSet(cp, cluster).Some? ==>
              (n in TargetSet(cp, cluster).value <==>
               if cp.namespaces != [] then n in cp.namespaces
               else n in cluster && !cluster[n].terminating && cp.selector.value.matches(cluster[n].labels))
  {
  }

  /** What a List with the selector returns: each matching namespace once, in any order. */
  ghost predicate Listing(items: seq<Item>, cp: ClusterProjection, cluster: map<string, Namespace>)
  {
    && (forall i :: 0 <= i < |items| ==>
          items[i].name in cluster && cluster[items[i].name] == items[i].ns && Selects(cp, items[i].ns.labels))
    && (forall n | n in cluster && Selects(cp, cluster[n].labels) :: exists i :: 0 <= i < |items| && items[i].name == n)
    && (forall i, j :: 0 <= i < j < |items| ==> items[i].name != items[j].name)
  }

  /** resolveTargetNamespaces. `items` is the answer of the namespace List, None when that call failed. */
  method ResolveTargetNamespaces(cp: ClusterProjection, items: Option<seq<Item>>, ghost cluster: map<string, Namespace>)
    returns (targets: Option<seq<string>>)
    requires items.Some? && TargetSet(cp, cluster).Some? ==> Listing(items.value, cp, cluster)
    ensures targets.Some? <==> TargetSet(cp, cluster).Some? && (|cp.namespaces| > 0 || items.Some?)
    ensures targets.Some? ==> Sorted(targets.value) && SetOf(targets.value) == TargetSet(cp, cluster).value
    ensures targets.Some? && |cp.namespaces| > 0 ==> multiset(targets.value) == multiset(cp.namespaces)
    ensures targets.Some? && |cp.namespaces| == 0 ==> Distinct(targets.value)
  {
    if |cp.namespaces| > 0 {
      SameSet(cp.namespaces, Sort(cp.namespaces));
      return Some(Sort(cp.namespaces));
    }
    if cp.selector.None? {
      return None;
    }
    if cp.selector.value.invalid {
      return None;
    }
    if cp.selector.value.empty {
      return None;
    }
    if items.None? {
      return None;
    }
    var out := Live(items.value, cp, cluster);
    SameSet(out, Sort(out));
    Permuted(out, Sort(out));
    targets := Some(Sort(out));
  }

  /** The loop that skips terminating namespaces. */
  method Live(items: seq<Item>, cp: ClusterProjection, ghost cluster: map<string, Namespace>) returns (out: seq<string>)
    requires Listing(items, cp, cluster)
    ensures Distinct(out)
    ensures SetOf(out) == set n | n in cluster && Selects(cp, cluster[n].labels) && !cluster[n].terminating
  {
    out := [];
    for i := 0 to |items|
      invariant Distinct(out)
      invariant forall x :: x in out <==> exists j :: 0 <= j < i && items[j].name == x && !items[j].ns.terminating
    {
      if items[i].ns.terminating {
        continue;
      }
      assert items[i].name !in out;
      out := out + [items[i].name];
    }
  }

  lemma SameSet(a: seq<string>, b: seq<string>)
    requires multiset(a) == multiset(b)
    ensures SetOf(a) == SetOf(b)
  {
    forall x ensures x in a <==> x in b {
      assert x in a <==> x in multiset(a);
      assert x in b <==> x in multiset(b);
    }
  }

  // ----- Namespace events -----

  /** Whether a namespace event concerns a ClusterProjection. */
  predicate Concerns(cp: ClusterProjection, ns: string, labels: map<string, string>)
  {
    if |cp.namespaces| > 0 then ns in cp.namespaces else Selects(cp, labels)
  }

  function NamesOf(list: seq<ClusterProjection>): (rs: seq<string>)
    ensures |rs| == |list| && forall i :: 0 <= i < |rs| ==> rs[i] == list[i].name
  {
    seq(|list|, i requires 0 <= i < |list| => list[i].name)
  }

  function Requests(list: seq<ClusterProjection>, ns: string, labels: map<string, string>): seq<string>
  {
    NamesOf(Filter(list, (cp: ClusterProjection) => Concerns(cp, ns, labels)))
  }

  lemma RequestsStep(list: seq<ClusterProjection>, ns: string, labels: map<string, string>, i: nat)
    requires i < |list|
    ensures Requests(list[..i + 1], ns, labels) ==
            Requests(list[..i], ns, labels) + if Concerns(list[i], ns, labels) then [list[i].name] else []
  {
    assert list[..i + 1][..i] == list[..i];
  }

  lemma AllRequestsExact(list: seq<ClusterProjection>, ns: string, labels: map<string, string>)
    ensures forall name :: name in Requests(list, ns, labels) <==>
              exists i :: 0 <= i < |list| && list[i].name == name &&
                if list[i].namespaces != [] then ns in list[i].namespaces
                else list[i].selector.Some? && !list[i].selector.value.invalid && !list[i].selector.value.empty &&
                     list[i].selector.value.matches(labels)
  {
    forall name
      ensures name in Requests(list, ns, labels) <==>
              exists i :: 0 <= i < |list| && list[i].name == name &&
                if list[i].namespaces != [] then ns in list[i].namespaces
                else list[i].selector.Some? && !list[i].selector.value.invalid && !list[i].selector.value.empty &&
                     list[i].selector.value.matches(labels)
    {
      RequestsExact(list, ns, labels, name);
    }
  }

  /** matchingClusterProjectionRequests. */
  method MatchingRequests(list: seq<ClusterProjection>, ns: string, labels: map<string, string>)
    returns (reqs: seq<string>)
    ensures reqs == Requests(list, ns, labels)
    ensures forall name :: name in reqs <==>
              exists i :: 0 <= i < |list| && list[i].name == name &&
                if list[i].namespaces != [] then ns in list[i].namespaces
                else list[i].selector.Some? && !list[i].selector.value.invalid && !list[i].selector.value.empty &&
                     list[i].selector.value.matches(labels)
  {
    AllRequestsExact(list, ns, labels);
    reqs := [];
    for i := 0 to |list|
      invariant reqs == Requests(list[..i], ns, labels)
    {
      var cp := list[i];
      RequestsStep(list, ns, labels, i);
      if |cp.namespaces| > 0 {
        var listed := false;
        for j := 0 to |cp.namespaces|
          invariant !listed && ns !in cp.namespaces[..j]
        {
          if cp.namespaces[j] == ns {
            listed := true;
            break;
          }
        }
        if listed {
          reqs := reqs + [cp.name];
        } else {
          assert cp.namespaces[..|cp.namespaces|] == cp.namespaces;
        }
        continue;
      }
      if cp.selector.None? || cp.selector.value.invalid || cp.selector.value.empty {
        continue;
      }
      if cp.selector.value.matches(labels) {
        reqs := reqs + [cp.name];
      }
    }
    assert list[..|list|] == list;
  }

  lemma TargetsUnaffected(cp: ClusterProjection, cluster: map<string, Namespace>, ns: string, now: Option<Namespace>)
    requires ns in cluster ==> !Concerns(cp, ns, cluster[ns].labels)
    requires now.Some? ==> !Concerns(cp, ns, now.value.labels)
    ensures TargetSet(cp, cluster) == TargetSet(cp, if now.Some? then cluster[ns := now.value] else cluster - {ns})
  {
    var after := if now.Some? then cluster[ns := now.value] else cluster - {ns};
    if |cp.namespaces| == 0 && TargetSet(cp, cluster).Some? {
      assert TargetSet(cp, cluster).value == TargetSet(cp, after).value;
    }
  }

  /** Every namespace event (a namespace is created, updated, or deleted when `now` is None) that changes the targets of
      a ClusterProjection enqueues it, through the old or the new object of the event. */
  lemma NamespaceEventsComplete(list: seq<ClusterProjection>, i: nat, cluster: map<string, Namespace>, ns: string,
                                now: Option<Namespace>)
    requires i < |list|
    requires TargetSet(list[i], cluster) !=
             TargetSet(list[i], if now.Some? then cluster[ns := now.value] else cluster - {ns})
    ensures (ns in cluster && list[i].name in Requests(list, ns, cluster[ns].labels)) ||
            (now.Some? && list[i].name in Requests(list, ns, now.value.labels))
  {
    if ns in cluster && Concerns(list[i], ns, cluster[ns].labels) {
      FilterHas(list, (c: ClusterProjection) => Concerns(c, ns, cluster[ns].labels), i);
    } else if now.Some? && Concerns(list[i], ns, now.value.labels) {
      FilterHas(list, (c: ClusterProjection) => Concerns(c, ns, now.value.labels), i);
    } else {
      TargetsUnaffected(list[i], cluster, ns, now);
    }
  }

  /** A name is enqueued exactly when some ClusterProjection of that name lists the namespace, or has no list and a
      usable selector that matches the labels. */
  lemma RequestsExact(list: seq<ClusterProjection>, ns: string, labels: map<string, string>, name: string)
    ensures name in Requests(list, ns, labels) <==>
            exists i :: 0 <= i < |list| && list[i].name == name &&
              if list[i].namespaces != [] then ns in list[i].namespaces
              else list[i].selector.Some? && !list[i].selector.value.invalid && !list[i].selector.value.empty &&
                   list[i].selector.value.matches(labels)
  {
    RequestsConcern(list, ns, labels, name);
    if i :| 0 <= i < |list| && list[i].name == name && Concerns(list[i], ns, labels) {
      assert list[i].name == name;
    }
  }

  lemma {:induction false} RequestsConcern(list: seq<ClusterProjection>, ns: string, labels: map<string, string>,
                                           name: string)
    ensures name in Requests(list, ns, labels) <==>
            exists i :: 0 <= i < |list| && list[i].name == name && Concerns(list[i], ns, labels)
  {
    if list != [] {
      var n := |list| - 1;
      assert list[..n + 1] == list;
      RequestsStep(list, ns, labels, n);
      RequestsConcern(list[..n], ns, labels, name);
      if i :| 0 <= i < |list| && list[i].name == name && Concerns(list[i], ns, labels) {
        assert i < n ==> list[..n][i] == list[i];
      }
      if i :| 0 <= i < n && list[..n][i].name == name && Concerns(list[..n][i], ns, labels) {
        assert list[..n][i] == list[i];
      }
    }
  }
}
