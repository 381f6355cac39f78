/** JSON trees as client-go's `unstructured` package sees them, with field access by path.

    `Lookup`, `Put` and `Remove` follow NestedFieldNoCopy, SetNestedField and RemoveNestedField of
    k8s.io/apimachinery v0.36: a lookup through a null is "not found", a lookup through any other
    non-object is an error, a set creates missing objects on the way and fails on any non-object it
    meets, and a remove leaves the tree alone unless every step on the way is an object. */
module Json {
  import opened Wrappers

  datatype Json =
    | Null
    | Bool(b: bool)
    | Int(i: int)
    | Float(r: real)
    | Str(s: string)
    | Arr(items: seq<Json>)
    | Obj(fields: map<string, Json>)

  type Object = map<string, Json>
  type Path = seq<string>
  type FieldPath = p: Path | p != [] witness [""]

  datatype Lookup = Missing | Blocked | Found(value: Json)

  /** The (value, found, err) triple of NestedFieldCopy. */
  function At(v: Json, path: Path): Lookup
    decreases path
  {
    if path == [] then Found(v)
    else
      match v
      case Null => Missing
      case Obj(m) => if path[0] in m then At(m[path[0]], path[1..]) else Missing
      case _ => Blocked
  }

  function Get(o: Object, path: Path): Lookup
  {
    At(Obj(o), path)
  }

  /** SetNestedField reports an error exactly when this is false. */
  predicate Settable(o: Object, path: Path)
    requires path != []
    decreases path
  {
    |path| == 1 || path[0] !in o || (o[path[0]].Obj? && Settable(o[path[0]].fields, path[1..]))
  }

  /** SetNestedField; on an error the object is left as it was. */
  function Put(o: Object, path: Path, v: Json): (o': Object)
    requires path != []
    decreases path
  {
    if |path| == 1 then o[path[0] := v]
    else if path[0] !in o then o[path[0] := Obj(Put(map[], path[1..], v))]
    else if o[path[0]].Obj? then o[path[0] := Obj(Put(o[path[0]].fields, path[1..], v))]
    else o
  }

  /** RemoveNestedField. */
  function Remove(o: Object, path: Path): (o': Object)
    requires path != []
    decreases path
  {
    if |path| == 1 then o - {path[0]}
    else if path[0] in o && o[path[0]].Obj? then o[path[0] := Obj(Remove(o[path[0]].fields, path[1..]))]
    else o
  }

  /** Neither path is a prefix of the other. */
  predicate Incomparable(p: Path, q: Path)
  {
    !(p <= q) && !(q <= p)
  }

  lemma IncomparableTail(p: Path, q: Path)
    requires Incomparable(p, q)
    ensures p != [] && q != []
    ensures p[0] == q[0] ==> Incomparable(p[1..], q[1..])
  {
    if p[0] == q[0] {
      assert p == [p[0]] + p[1..] && q == [q[0]] + q[1..];
    }
  }

  lemma {:induction false} PutBlocked(o: Object, p: Path, v: Json)
    requires p != [] && !Settable(o, p)
    ensures Put(o, p, v) == o
    ensures !Get(o, p).Found?
    decreases p
  {
    if o[p[0]].Obj? {
      PutBlocked(o[p[0]].fields, p[1..], v);
    }
    assert Get(o, p) == At(o[p[0]], p[1..]);
  }

  lemma {:induction false} GetPutSame(o: Object, p: Path, v: Json)
    requires p != [] && Settable(o, p)
    ensures Get(Put(o, p, v), p) == Found(v)
    ensures Settable(Put(o, p, v), p)
    decreases p
  {
    if |p| > 1 {
      GetPutSame(if p[0] in o then o[p[0]].fields else map[], p[1..], v);
    } else {
      assert Get(Put(o, p, v), p) == At(v, p[1..]);
    }
  }

  /** Setting a field does not disturb any path that branches off it. */
  lemma {:induction false} GetPutOther(o: Object, p: Path, v: Json, q: Path)
    requires Incomparable(p, q)
    ensures p != [] && Get(Put(o, p, v), q) == Get(o, q)
    decreases p
  {
    IncomparableTail(p, q);
    if p[0] == q[0] && |p| > 1 {
      if p[0] !in o {
        GetPutOther(map[], p[1..], v, q[1..]);
      } else if o[p[0]].Obj? {
        GetPutOther(o[p[0]].fields, p[1..], v, q[1..]);
      }
    }
  }

  lemma {:induction false} PutPutSame(o: Object, p: Path, v: Json, w: Json)
    requires p != []
    ensures Put(Put(o, p, v), p, w) == Put(o, p, w)
    decreases p
  {
    if |p| > 1 {
      if p[0] !in o || o[p[0]].Obj? {
        var child := if p[0] in o then o[p[0]].fields else map[];
        PutPutSame(child, p[1..], v, w);
        PutPutInside(o, p, v, p, w);
        PutHead(o, p, w);
      }
    }
  }

  function Field(o: Object, k: string): Option<Json>
  {
    if k in o then Some(o[k]) else None
  }

  /** What a set makes of the value under the first key on its path. */
  function NewHead(cur: Option<Json>, path: Path, v: Json): Json
    requires path != []
  {
    if |path| == 1 then v
    else if cur.None? then Obj(Put(map[], path[1..], v))
    else if cur.value.Obj? then Obj(Put(cur.value.fields, path[1..], v))
    else cur.value
  }

  lemma PutHead(o: Object, p: Path, v: Json)
    requires p != []
    ensures Put(o, p, v) == o[p[0] := NewHead(Field(o, p[0]), p, v)]
  {
  }

  lemma PutCommuteApart(o: Object, p: Path, v: Json, q: Path, w: Json)
    requires p != [] && q != [] && p[0] != q[0]
    ensures Put(Put(o, p, v), q, w) == Put(Put(o, q, w), p, v)
  {
    PutHead(o, p, v);
    PutHead(o, q, w);
    PutHead(Put(o, p, v), q, w);
    PutHead(Put(o, q, w), p, v);
    assert Field(Put(o, p, v), q[0]) == Field(o, q[0]);
    assert Field(Put(o, q, w), p[0]) == Field(o, p[0]);
  }

  /** Two sets of the same nested object act inside that object. */
  lemma PutPutInside(o: Object, p: Path, v: Json, q: Path, w: Json)
    requires |p| > 1 && |q| > 1 && p[0] == q[0]
    requires p[0] !in o || o[p[0]].Obj?
    ensures var child := if p[0] in o then o[p[0]].fields else map[];
            Put(Put(o, p, v), q, w) == o[p[0] := Obj(Put(Put(child, p[1..], v), q[1..], w))]
  {
    PutHead(o, p, v);
    PutHead(Put(o, p, v), q, w);
  }

  /** Sets on paths that branch apart commute. */
  lemma {:induction false} PutCommute(o: Object, p: Path, v: Json, q: Path, w: Json)
    requires Incomparable(p, q)
    ensures p != [] && q != []
    ensures Put(Put(o, p, v), q, w) == Put(Put(o, q, w), p, v)
    decreases p
  {
    IncomparableTail(p, q);
    if p[0] != q[0] {
      PutCommuteApart(o, p, v, q, w);
    } else if p[0] !in o || o[p[0]].Obj? {
      var child := if p[0] in o then o[p[0]].fields else map[];
      PutCommute(child, p[1..], v, q[1..], w);
      PutPutInside(o, p, v, q, w);
      PutPutInside(o, q, w, p, v);
    }
  }

  lemma {:induction false} GetRemoveSame(o: Object, p: Path)
    requires p != []
    ensures !Get(Remove(o, p), p).Found?
    decreases p
  {
    if |p| > 1 && p[0] in o {
      if o[p[0]].Obj? {
        GetRemoveSame(o[p[0]].fields, p[1..]);
      }
      assert Get(Remove(o, p), p) == At(Remove(o, p)[p[0]], p[1..]);
    }
  }

  lemma {:induction false} GetRemoveOther(o: Object, p: Path, q: Path)
    requires Incomparable(p, q)
    ensures p != [] && Get(Remove(o, p), q) == Get(o, q)
    decreases p
  {
    IncomparableTail(p, q);
    if p[0] == q[0] && p[0] in o && o[p[0]].Obj? {
      GetRemoveOther(o[p[0]].fields, p[1..], q[1..]);
    }
  }

  /** Removing a path never makes another path appear. */
  lemma {:induction false} RemoveKeepsAbsence(o: Object, p: Path, q: Path)
    requires p != [] && !Get(o, q).Found?
    ensures !Get(Remove(o, p), q).Found?
    decreases p
  {
    if q != [] && p[0] == q[0] && |p| > 1 && p[0] in o && o[p[0]].Obj? {
      RemoveKeepsAbsence(o[p[0]].fields, p[1..], q[1..]);
    }
  }

  /** Setting a field neither opens nor blocks the way to a path that branches off it. */
  lemma {:induction false} SettablePut(o: Object, p: Path, q: Path, v: Json)
    requires Incomparable(p, q)
    ensures p != [] && q != [] && (Settable(Put(o, q, v), p) <==> Settable(o, p))
    decreases p
  {
    IncomparableTail(p, q);
    PutHead(o, q, v);
    if p[0] == q[0] && |p| > 1 {
      if p[0] !in o {
        SettablePut(map[], p[1..], q[1..], v);
        SettableInEmpty(p[1..]);
      } else if o[p[0]].Obj? {
        SettablePut(o[p[0]].fields, p[1..], q[1..], v);
      }
    }
  }

  lemma SettableInEmpty(p: Path)
    requires p != []
    ensures Settable(map[], p)
  {
  }

  // ----- Set and remove as inverses -----

  /** Every object on the way to the last key of the path is there, or a value that is no object blocks the way. */
  predicate Rooted(o: Object, path: Path)
    requires path != []
    decreases path
  {
    |path| == 1 || (path[0] in o && (o[path[0]].Obj? ==> Rooted(o[path[0]].fields, path[1..])))
  }

  lemma {:induction false} RootedPut(o: Object, p: Path, q: Path, v: Json)
    requires Incomparable(p, q)
    ensures p != [] && q != [] && (Rooted(o, p) ==> Rooted(Put(o, q, v), p))
    decreases p
  {
    IncomparableTail(p, q);
    PutHead(o, q, v);
    if p[0] == q[0] && p[0] in o && o[p[0]].Obj? && |p| > 1 {
      RootedPut(o[p[0]].fields, p[1..], q[1..], v);
    }
  }

  lemma {:induction false} RootedRemove(o: Object, p: Path, q: Path)
    requires p != [] && (Incomparable(p, q) || p == q)
    ensures q != [] && (Rooted(Remove(o, q), p) <==> Rooted(o, p))
    decreases p
  {
    if p != q {
      IncomparableTail(p, q);
    }
    if |p| > 1 && p[0] == q[0] && p[0] in o && o[p[0]].Obj? {
      RootedRemove(o[p[0]].fields, p[1..], q[1..]);
    }
  }

  lemma {:induction false} RemoveAbsent(o: Object, p: Path)
    requires p != [] && !Get(o, p).Found?
    ensures Remove(o, p) == o
    decreases p
  {
    if p[0] in o {
      assert Get(o, p) == At(o[p[0]], p[1..]);
      if |p| > 1 && o[p[0]].Obj? {
        RemoveAbsent(o[p[0]].fields, p[1..]);
      }
    }
  }

  /** Removing a field that was just set gives the object back, if the way to it was there before. */
  lemma {:induction false} RemovePut(o: Object, p: Path, v: Json)
    requires p != [] && Rooted(o, p) && !Get(o, p).Found?
    ensures Remove(Put(o, p, v), p) == o
    decreases p
  {
    if |p| == 1 {
      GetTop(o, p[0]);
      assert p == [p[0]];
    } else if o[p[0]].Obj? {
      assert Get(o, p) == At(o[p[0]], p[1..]);
      RemovePut(o[p[0]].fields, p[1..], v);
    }
  }

  lemma GetTop(o: Object, k: string)
    ensures Get(o, [k]) == if k in o then Found(o[k]) else Missing
  {
    if k in o {
      assert Get(o, [k]) == At(o[k], [k][1..]);
    }
  }

  /** Otherwise the set creates an object on the way, and the removal leaves it behind. */
  lemma {:induction false} RemovePutLeaves(o: Object, p: Path, v: Json)
    requires p != [] && !Rooted(o, p)
    ensures Settable(o, p)
    ensures var o' := Remove(Put(o, p, v), p); p[0] in o' && o'[p[0]].Obj? && Field(o, p[0]) != Some(o'[p[0]])
    decreases p
  {
    if p[0] in o {
      RemovePutLeaves(o[p[0]].fields, p[1..], v);
    }
  }
}
