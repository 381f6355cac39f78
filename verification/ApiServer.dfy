/** The API server as one reconcile sees it: a store of object trees whose calls may fail. */
module ApiServer {
  import opened Wrappers
  import opened Json
  import opened Types
  import opened Destination
  import opened Transform
  import opened Preservation

  datatype Stored = Stored(tree: Object, version: nat)

  datatype GetResult = Got(value: Stored) | NotFound | GetError

  type Objects = map<Key, Stored>

  /** Marks of one tier: the annotation is the authority, the label is what a List selects by. */
  datatype Owner = Owner(annotation: string, value: string, uidLabel: string, uid: string)

  function NamespacedOwner(proj: Projection): Owner
  {
    Owner(OWNED_BY_ANNOTATION, OwnerKey(proj), OWNED_BY_UID_LABEL, proj.uid)
  }

  function ClusterOwner(cp: ClusterProjection): Owner
  {
    Owner(OWNED_BY_CLUSTER_ANNOTATION, ClusterOwnerKey(cp), OWNED_BY_CLUSTER_UID_LABEL, cp.uid)
  }

  /** isOwnedBy / isOwnedByCluster: a missing annotation reads as "". */
  predicate Owns(o: Owner, tree: Object)
  {
    Entry(Annotations(tree), o.annotation).GetOr("") == o.value
  }

  predicate Labelled(o: Owner, tree: Object)
  {
    Entry(Labels(tree), o.uidLabel) == Some(o.uid)
  }

  datatype Listed = Listed(key: Key, tree: Object)

  predicate InListing(objects: Objects, kind: string, o: Owner, item: Listed)
  {
    item.key in objects && item.tree == objects[item.key].tree && item.key.kind == kind && Labelled(o, item.tree)
  }

  /** Reads go to the server directly, or through the informer cache. */
  datatype Client = Dynamic | Cached

  /** Which calls fail, for the length of one reconcile: no reconcile reads a key twice through one client, writes or
      deletes it twice, or lists a kind twice. */
  datatype Faults = Faults(
    get: (Client, Key) -> bool,
    list: string -> bool,
    write: Key -> bool,
    delete: Key -> bool)

  ghost predicate Faultless(f: Faults)
  {
    && (forall via, k :: !f.get(via, k))
    && (forall kind :: !f.list(kind))
    && (forall k :: !f.write(k))
    && (forall k :: !f.delete(k))
  }

  /** The Get and the Create or Update of a write at the key go through. */
  predicate Answers(f: Faults, key: Key)
  {
    !f.get(Cached, key) && !f.write(key)
  }

  /** A Create, or an Update over a version. */
  datatype Request = Request(key: Key, tree: Object, over: Option<nat>)

  class Server {
    const faults: Faults
    var objects: Objects
    var clock: nat
    /** Create and Update calls issued so far, accepted or not. */
    var requests: seq<Request>

    constructor (faults: Faults, objects: Objects, clock: nat)
      ensures this.faults == faults && this.objects == objects && this.clock == clock && requests == []
    {
      this.faults, this.objects, this.clock, this.requests := faults, objects, clock, [];
    }

    method Get(via: Client, key: Key) returns (r: GetResult)
      ensures r.GetError? <==> faults.get(via, key)
      ensures r.NotFound? ==> key !in objects
      ensures r.Got? ==> key in objects && objects[key] == r.value
    {
      if faults.get(via, key) {
        return GetError;
      }
      if key in objects {
        return Got(objects[key]);
      }
      return NotFound;
    }

    /** Objects of a kind with a label, in any order. */
    method List(kind: string, o: Owner) returns (r: Option<seq<Listed>>)
      ensures r.None? <==> faults.list(kind)
      ensures r.Some? ==> forall i :: 0 <= i < |r.value| ==> InListing(objects, kind, o, r.value[i])
      ensures r.Some? ==> forall k | k in objects && k.kind == kind && Labelled(o, objects[k].tree) ::
                exists i :: 0 <= i < |r.value| && r.value[i].key == k
      ensures r.Some? ==> forall i, j :: 0 <= i < j < |r.value| ==> r.value[i].key != r.value[j].key
    {
      if faults.list(kind) {
        return None;
      }
      var items: seq<Listed> := [];
      var todo := objects.Keys;
      while todo != {}
        invariant todo <= objects.Keys
        invariant forall i :: 0 <= i < |items| ==> InListing(objects, kind, o, items[i]) && items[i].key !in todo
        invariant forall k | k in objects && k !in todo && k.kind == kind && Labelled(o, objects[k].tree) ::
                    exists i :: 0 <= i < |items| && items[i].key == k
        invariant forall i, j :: 0 <= i < j < |items| ==> items[i].key != items[j].key
        decreases todo
      {
        var k :| k in todo;
        ghost var before := items;
        if k.kind == kind && Labelled(o, objects[k].tree) {
          items := items + [Listed(k, objects[k].tree)];
          assert items[|items| - 1].key == k;
        }
        todo := todo - {k};
        assert forall i :: 0 <= i < |before| ==> items[i] == before[i];
      }
      return Some(items);
    }

    /** Create succeeds only on a free key. The stored tree is the sent one up to what the server owns. */
    method Create(key: Key, tree: Object) returns (ok: bool)
      modifies this
      ensures requests == old(requests) + [Request(key, tree, None)]
      ensures ok <==> key !in old(objects) && !faults.write(key)
      ensures ok ==> key in objects && StoredAs(tree, objects[key].tree, DroppedSpecFields(GvkOf(tree)))
      ensures ok ==> objects == old(objects)[key := objects[key]]
      ensures ok ==> objects[key].version == old(clock) && clock == old(clock) + 1
      ensures !ok ==> objects == old(objects) && clock == old(clock)
    {
      requests := requests + [Request(key, tree, None)];
      if key in objects || faults.write(key) {
        return false;
      }
      objects := objects[key := Stored(tree, clock)];
      clock := clock + 1;
      StoredUnchanged(tree, DroppedSpecFields(GvkOf(tree)));
      return true;
    }

    /** Update succeeds only on the version that was read. */
    method Update(key: Key, tree: Object, version: nat) returns (ok: bool)
      modifies this
      ensures requests == old(requests) + [Request(key, tree, Some(version))]
      ensures ok <==> key in old(objects) && old(objects)[key].version == version && !faults.write(key)
      ensures ok ==> key in objects && StoredAs(tree, objects[key].tree, DroppedSpecFields(GvkOf(tree)))
      ensures ok ==> objects == old(objects)[key := objects[key]]
      ensures ok ==> objects[key].version == old(clock) && clock == old(clock) + 1
      ensures !ok ==> objects == old(objects) && clock == old(clock)
    {
      requests := requests + [Request(key, tree, Some(version))];
      if key !in objects || objects[key].version != version || faults.write(key) {
        return false;
      }
      objects := objects[key := Stored(tree, clock)];
      clock := clock + 1;
      StoredUnchanged(tree, DroppedSpecFields(GvkOf(tree)));
      return true;
    }

    /** Delete without a precondition; deleting a missing object is not an error for any caller. */
    method Delete(key: Key) returns (ok: bool)
      modifies this
      ensures requests == old(requests) && clock == old(clock)
      ensures ok <==> !faults.delete(key)
      ensures objects == if ok then old(objects) - {key} else old(objects)
    {
      if faults.delete(key) {
        return false;
      }
      objects := objects - {key};
      return true;
    }
  }

  lemma StoredUnchanged(tree: Object, table: seq<FieldPath>)
    ensures StoredAs(tree, tree, table)
  {
    var ops: seq<Alloc> := [];
    assert Served(tree, tree, table, ops);
  }
}
