/** The list-and-delete loops of cleanup.go. */
module Cleanup {
  import opened Wrappers
  import opened Types
  import opened Destination
  import opened Transform
  import opened ApiServer

  /** What a sweep is entitled to: the kind, both marks, and a namespace outside the kept set (None keeps nothing). */
  predicate Entitled(o: Owner, kind: string, keep: Option<set<string>>, key: Key, stored: Stored)
  {
    && key.kind == kind
    && Labelled(o, stored.tree)
    && Owns(o, stored.tree)
    && (keep.Some? ==> key.ns !in keep.value)
  }

  function Swept(objects: Objects, o: Owner, kind: string, keep: Option<set<string>>): set<Key>
  {
    set k | k in objects && Entitled(o, kind, keep, k, objects[k])
  }

  /** Both marks, the kind, and a namespace that is not kept. */
  lemma SweptMeans(objects: Objects, o: Owner, kind: string, keep: Option<set<string>>, k: Key)
    requires o.value != ""
    ensures k in Swept(objects, o, kind, keep) <==>
            && k in objects && k.kind == kind && (keep.Some? ==> k.ns !in keep.value)
            && Entry(Labels(objects[k].tree), o.uidLabel) == Some(o.uid)
            && Entry(Annotations(objects[k].tree), o.annotation) == Some(o.value)
  {
  }

  /** Objects are only removed, and only those in `allowed`. */
  ghost predicate RemovedWithin(before: Objects, after: Objects, allowed: set<Key>)
  {
    && after.Keys <= before.Keys
    && (forall k | k in after :: after[k] == before[k])
    && (forall k | k in before && k !in allowed :: k in after)
  }

  /** The entitled objects whose Delete goes through. */
  function Deletable(f: Faults, swept: set<Key>): set<Key>
  {
    set k | k in swept && !f.delete(k)
  }

  /** The store after a sweep: without an answer to the List nothing happens; otherwise every entitled object is tried
      and goes, except those whose own Delete fails. */
  function AfterSweep(f: Faults, was: Objects, o: Owner, kind: string, keep: Option<set<string>>): Objects
  {
    if f.list(kind) then was else was - Deletable(f, Swept(was, o, kind, keep))
  }

  ghost predicate SweepWorks(f: Faults, was: Objects, o: Owner, kind: string, keep: Option<set<string>>)
  {
    !f.list(kind) && forall k | k in Swept(was, o, kind, keep) :: !f.delete(k)
  }

  /** Object by object: one goes exactly if the List is answered, the sweep is entitled to it and its own
      Delete does not fail, whatever happens to the others. */
  lemma SweepOf(f: Faults, was: Objects, o: Owner, kind: string, keep: Option<set<string>>, k: Key)
    ensures var now := AfterSweep(f, was, o, kind, keep);
            && (k in now <==> k in was && !(!f.list(kind) && k in Swept(was, o, kind, keep) && !f.delete(k)))
            && (k in now ==> now[k] == was[k])
  {
  }

  /** A sweep removes entitled objects only, and all of them if and only if it works. */
  lemma SweepMeans(f: Faults, was: Objects, o: Owner, kind: string, keep: Option<set<string>>)
    ensures RemovedWithin(was, AfterSweep(f, was, o, kind, keep), Swept(was, o, kind, keep))
    ensures SweepWorks(f, was, o, kind, keep) ==> AfterSweep(f, was, o, kind, keep) == was - Swept(was, o, kind, keep)
    ensures !f.list(kind) && AfterSweep(f, was, o, kind, keep) == was - Swept(was, o, kind, keep) ==>
              SweepWorks(f, was, o, kind, keep)
    ensures Faultless(f) ==> SweepWorks(f, was, o, kind, keep)
  {
    var swept := Swept(was, o, kind, keep);
    if SweepWorks(f, was, o, kind, keep) {
      assert Deletable(f, swept) == swept;
    }
    if !f.list(kind) && AfterSweep(f, was, o, kind, keep) == was - swept {
      forall k | k in swept ensures !f.delete(k) {
        assert k in was && k !in was - swept;
      }
    }
  }

  /** deleteAllOwnedDestinations and deleteClusterOwnedDestinations: one label List, the annotation checked per
      object, the first delete error remembered and every other candidate still tried. */
  method DeleteOwned(api: Server, o: Owner, kind: string, keep: Option<set<string>>) returns (ok: bool)
    modifies api
    ensures api.requests == old(api.requests) && api.clock == old(api.clock)
    ensures api.objects == AfterSweep(api.faults, old(api.objects), o, kind, keep)
    ensures ok <==> SweepWorks(api.faults, old(api.objects), o, kind, keep)
  {
    var listed := api.List(kind, o);
    if listed.None? {
      return false;
    }
    var items := listed.value;
    ghost var before := api.objects;
    ghost var all := Swept(before, o, kind, keep);
    ghost var tried: set<Key> := {};
    var firstErr := false;
    for i := 0 to |items|
      invariant api.requests == old(api.requests) && api.clock == old(api.clock)
      invariant tried == KeysOf(items[..i]) * all
      invariant api.objects == before - Deletable(api.faults, tried)
      invariant firstErr <==> AnyFails(api.faults, tried)
    {
      NextCandidate(items, i, all);
      var failed;
      failed, tried := TryOne(api, o, kind, keep, items[i], before, tried, all);
      if failed {
        firstErr := true;
      }
    }
    assert items[..|items|] == items;
    Candidates(before, items, o, kind, keep);
    ok := !firstErr;
  }

  ghost predicate AnyFails(f: Faults, keys: set<Key>)
  {
    exists k :: k in keys && f.delete(k)
  }

  lemma NextCandidate(items: seq<Listed>, i: nat, all: set<Key>)
    requires i < |items|
    ensures KeysOf(items[..i + 1]) * all ==
            if items[i].key in all then KeysOf(items[..i]) * all + {items[i].key} else KeysOf(items[..i]) * all
  {
    assert items[..i + 1] == items[..i] + [items[i]];
    assert KeysOf(items[..i + 1]) == KeysOf(items[..i]) + {items[i].key} by {
      forall k | k in KeysOf(items[..i]) ensures k in KeysOf(items[..i + 1]) {
        var j :| 0 <= j < i && items[..i][j].key == k;
        assert items[..i + 1][j].key == k;
      }
      assert items[..i + 1][i].key in KeysOf(items[..i + 1]);
    }
  }

  ghost function KeysOf(items: seq<Listed>): set<Key>
  {
    set i | 0 <= i < |items| :: items[i].key
  }

  /** Every entitled object is on the list. */
  lemma Candidates(objects: Objects, items: seq<Listed>, o: Owner, kind: string, keep: Option<set<string>>)
    requires forall k | k in objects && k.kind == kind && Labelled(o, objects[k].tree) ::
               exists i :: 0 <= i < |items| && items[i].key == k
    ensures KeysOf(items) * Swept(objects, o, kind, keep) == Swept(objects, o, kind, keep)
  {
    forall k | k in Swept(objects, o, kind, keep) ensures k in KeysOf(items) {
      var i :| 0 <= i < |items| && items[i].key == k;
    }
  }

  /** One candidate of the List. */
  method TryOne(api: Server, o: Owner, kind: string, keep: Option<set<string>>, item: Listed, ghost before: Objects,
                ghost tried: set<Key>, ghost all: set<Key>) returns (failed: bool, ghost tried': set<Key>)
    requires InListing(before, kind, o, item) && all == Swept(before, o, kind, keep)
    requires api.objects == before - Deletable(api.faults, tried)
    modifies api
    ensures api.requests == old(api.requests) && api.clock == old(api.clock)
    ensures tried' == if item.key in all then tried + {item.key} else tried
    ensures api.objects == before - Deletable(api.faults, tried')
    ensures failed <==> item.key in all && api.faults.delete(item.key)
  {
    failed, tried' := false, tried;
    if !Owns(o, item.tree) {
      return;
    }
    if keep.Some? && item.key.ns in keep.value {
      return;
    }
    var deleted := api.Delete(item.key);
    TryNext(api.faults, tried, item.key);
    failed, tried' := !deleted, tried + {item.key};
  }

  lemma TryNext(f: Faults, tried: set<Key>, k: Key)
    ensures Deletable(f, tried + {k}) == Deletable(f, tried) + if f.delete(k) then {} else {k}
  {
  }

  /** The store after deleteOneDestination. */
  function AfterDeleteOne(f: Faults, was: Objects, o: Owner, key: Key): Objects
  {
    if !f.get(Dynamic, key) && key in was && Owns(o, was[key].tree) && !f.delete(key) then was - {key} else was
  }

  predicate DeleteOneWorks(f: Faults, was: Objects, o: Owner, key: Key)
  {
    !f.get(Dynamic, key) && (key in was && Owns(o, was[key].tree) ==> !f.delete(key))
  }

  /** One key, one owner: the object goes if it is the owner's and neither call fails. */
  lemma DeleteOneMeans(f: Faults, was: Objects, o: Owner, key: Key, k: Key)
    requires o.value != ""
    ensures var mine := key in was && Entry(Annotations(was[key].tree), o.annotation) == Some(o.value);
            var now := AfterDeleteOne(f, was, o, key);
            && (k in now <==> k in was && !(k == key && mine && !f.get(Dynamic, key) && !f.delete(key)))
            && (k in now ==> now[k] == was[k])
            && (DeleteOneWorks(f, was, o, key) <==> !f.get(Dynamic, key) && (mine ==> !f.delete(key)))
  {
  }

  /** deleteOneDestination: a Get, the annotation check, and a Delete at one key. */
  method DeleteOne(api: Server, o: Owner, key: Key) returns (ok: bool)
    modifies api
    ensures api.requests == old(api.requests) && api.clock == old(api.clock)
    ensures api.objects == AfterDeleteOne(api.faults, old(api.objects), o, key)
    ensures ok <==> DeleteOneWorks(api.faults, old(api.objects), o, key)
  {
    var existing := api.Get(Dynamic, key);
    if existing.NotFound? {
      return true;
    }
    if existing.GetError? {
      return false;
    }
    if !Owns(o, existing.value.tree) {
      return true;
    }
    ok := api.Delete(key);
  }

  /** cleanupStaleClusterDestinations builds the kept set from the current targets. */
  method CleanupStale(api: Server, o: Owner, kind: string, targets: seq<string>) returns (ok: bool)
    modifies api
    ensures api.requests == old(api.requests) && api.clock == old(api.clock)
    ensures api.objects == AfterSweep(api.faults, old(api.objects), o, kind, Some(set t | t in targets))
    ensures ok <==> SweepWorks(api.faults, old(api.objects), o, kind, Some(set t | t in targets))
  {
    var keep: set<string> := {};
    for i := 0 to |targets|
      invariant keep == set t | t in targets[..i]
    {
      keep := keep + {targets[i]};
    }
    assert targets[..|targets|] == targets;
    ok := DeleteOwned(api, o, kind, Some(keep));
  }
}
