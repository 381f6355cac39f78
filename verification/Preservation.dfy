/** The strip/preserve round trip: the fields that the API server owns are stripped from every build and copied back
    from the stored object, so that a stored destination needs no further update. */
module Preservation {
  import opened Wrappers
  import opened Json
  import opened Types
  import opened Destination
  import opened Transform

  ghost predicate PrefixFree(table: seq<FieldPath>)
  {
    forall i, j :: 0 <= i < j < |table| ==> Incomparable(table[i], table[j])
  }

  ghost predicate Hollow(o: Object, table: seq<FieldPath>)
  {
    forall i :: 0 <= i < |table| ==> !Get(o, table[i]).Found?
  }

  /** What the server does at table entry `i`: set it, or clear it. */
  datatype Alloc = Set(i: nat, v: Json) | Clear(i: nat)

  ghost predicate ValidAllocs(table: seq<FieldPath>, ops: seq<Alloc>)
  {
    forall n :: 0 <= n < |ops| ==> ops[n].i < |table|
  }

  /** Any number of changes at table paths, in any order. */
  function Allocate(o: Object, table: seq<FieldPath>, ops: seq<Alloc>): Object
    requires ValidAllocs(table, ops)
  {
    if ops == [] then o
    else
      var n := |ops| - 1;
      Perform(Allocate(o, table, ops[..n]), table[ops[n].i], ops[n])
  }

  function Perform(o: Object, path: FieldPath, op: Alloc): Object
  {
    match op
    case Set(_, v) => Put(o, path, v)
    case Clear(_) => Remove(o, path)
  }

  /** The way to every table path is there, or blocked. */
  ghost predicate RootedAt(o: Object, table: seq<FieldPath>)
  {
    forall i :: 0 <= i < |table| ==> Rooted(o, table[i])
  }

  /** Only entries that the object has the way to are cleared. */
  ghost predicate ClearsRooted(o: Object, table: seq<FieldPath>, ops: seq<Alloc>)
    requires ValidAllocs(table, ops)
  {
    forall n :: 0 <= n < |ops| && ops[n].Clear? ==> Rooted(o, table[ops[n].i])
  }

  lemma {:induction false} FillHollow(o: Object, table: seq<FieldPath>, vals: seq<Option<Json>>)
    requires |vals| == |table| && forall i :: 0 <= i < |table| ==> vals[i].None?
    ensures Fill(o, table, vals) == o
  {
    if table != [] {
      FillHollow(o, table[..|table| - 1], vals[..|table| - 1]);
    }
  }

  lemma FillLast(o: Object, table: seq<FieldPath>, vals: seq<Option<Json>>)
    requires |vals| == |table| > 0
    ensures var n := |table| - 1;
            Fill(o, table, vals) ==
            if vals[n].Some? then Put(Fill(o, table[..n], vals[..n]), table[n], vals[n].value)
            else Fill(o, table[..n], vals[..n])
  {
  }

  /** Re-filling one entry is setting it last: the entries do not interfere. */
  lemma {:induction false} FillUpdate(o: Object, table: seq<FieldPath>, vals: seq<Option<Json>>, i: nat, v: Json)
    requires |vals| == |table| && i < |table| && PrefixFree(table)
    ensures Fill(o, table, vals[i := Some(v)]) == Put(Fill(o, table, vals), table[i], v)
  {
    var n := |table| - 1;
    var inner := Fill(o, table[..n], vals[..n]);
    FillLast(o, table, vals);
    FillLast(o, table, vals[i := Some(v)]);
    if i == n {
      assert vals[i := Some(v)][..n] == vals[..n];
      if vals[n].Some? {
        PutPutSame(inner, table[n], vals[n].value, v);
      }
    } else {
      assert vals[i := Some(v)][..n] == vals[..n][i := Some(v)];
      FillUpdate(o, table[..n], vals[..n], i, v);
      if vals[n].Some? {
        PutCommute(inner, table[i], v, table[n], vals[n].value);
      }
    }
  }

  lemma ValuesAfterPut(s: Object, table: seq<FieldPath>, i: nat, v: Json)
    requires i < |table| && PrefixFree(table) && Settable(s, table[i])
    ensures ValuesAt(Put(s, table[i], v), table) == ValuesAt(s, table)[i := Some(v)]
  {
    var s' := Put(s, table[i], v);
    forall j | 0 <= j < |table|
      ensures ValuesAt(s', table)[j] == ValuesAt(s, table)[i := Some(v)][j]
    {
      if j == i {
        GetPutSame(s, table[i], v);
      } else {
        assert Incomparable(table[i], table[j]);
        GetPutOther(s, table[i], v, table[j]);
      }
    }
  }

  /** Filling other entries neither reaches a path nor takes the way to it. */
  lemma {:induction false} FillApart(o: Object, table: seq<FieldPath>, vals: seq<Option<Json>>, p: FieldPath)
    requires |vals| == |table| && forall j :: 0 <= j < |table| && vals[j].Some? ==> Incomparable(p, table[j])
    ensures Get(Fill(o, table, vals), p) == Get(o, p)
    ensures Rooted(o, p) ==> Rooted(Fill(o, table, vals), p)
  {
    if table != [] {
      var n := |table| - 1;
      FillApart(o, table[..n], vals[..n], p);
      if vals[n].Some? {
        var inner := Fill(o, table[..n], vals[..n]);
        GetPutOther(inner, table[n], vals[n].value, p);
        RootedPut(inner, p, table[n], vals[n].value);
      }
    }
  }

  lemma {:induction false} FillSettable(o: Object, table: seq<FieldPath>, vals: seq<Option<Json>>, p: FieldPath)
    requires |vals| == |table| && forall j :: 0 <= j < |table| ==> Incomparable(p, table[j])
    ensures Settable(Fill(o, table, vals), p) <==> Settable(o, p)
  {
    if table != [] {
      var n := |table| - 1;
      FillSettable(o, table[..n], vals[..n], p);
      if vals[n].Some? {
        SettablePut(Fill(o, table[..n], vals[..n]), p, table[n], vals[n].value);
      }
    }
  }

  /** A filled entry has the given value, if the way to it is not blocked; an entry left out is as it was. */
  lemma {:induction false} FillAt(o: Object, table: seq<FieldPath>, vals: seq<Option<Json>>, i: nat)
    requires |vals| == |table| && i < |table| && PrefixFree(table)
    ensures Get(Fill(o, table, vals), table[i]) ==
            if vals[i].Some? && Settable(o, table[i]) then Found(vals[i].value) else Get(o, table[i])
  {
    var n := |table| - 1;
    var p, inner := table[i], Fill(o, table[..n], vals[..n]);
    if i < n {
      FillAt(o, table[..n], vals[..n], i);
      if vals[n].Some? {
        assert Incomparable(table[i], table[n]);
        GetPutOther(inner, table[n], vals[n].value, p);
      }
    } else {
      forall j | 0 <= j < n ensures Incomparable(p, table[..n][j]) {
        assert Incomparable(table[j], table[n]);
      }
      FillApart(o, table[..n], vals[..n], p);
      FillSettable(o, table[..n], vals[..n], p);
      if vals[n].Some? {
        if Settable(inner, p) {
          GetPutSame(inner, p, vals[n].value);
        } else {
          PutBlocked(inner, p, vals[n].value);
        }
      }
    }
  }

  /** Leaving an entry out is clearing it last. */
  lemma FillClear(o: Object, table: seq<FieldPath>, vals: seq<Option<Json>>, i: nat)
    requires |vals| == |table| && i < |table| && PrefixFree(table)
    requires Rooted(o, table[i]) && !Get(o, table[i]).Found?
    ensures Fill(o, table, vals[i := None]) == Remove(Fill(o, table, vals), table[i])
  {
    var without := vals[i := None];
    FillApart(o, table, without, table[i]);
    if vals[i].Some? {
      FillUpdate(o, table, without, i, vals[i].value);
      assert without[i := vals[i]] == vals;
      RemovePut(Fill(o, table, without), table[i], vals[i].value);
    } else {
      assert without == vals;
      RemoveAbsent(Fill(o, table, vals), table[i]);
    }
  }

  lemma ValuesAfterClear(s: Object, table: seq<FieldPath>, i: nat)
    requires i < |table| && PrefixFree(table)
    ensures ValuesAt(Remove(s, table[i]), table) == ValuesAt(s, table)[i := None]
  {
    var s' := Remove(s, table[i]);
    forall j | 0 <= j < |table|
      ensures ValuesAt(s', table)[j] == ValuesAt(s, table)[i := None][j]
    {
      if j == i {
        GetRemoveSame(s, table[i]);
      } else {
        assert Incomparable(table[i], table[j]);
        GetRemoveOther(s, table[i], table[j]);
      }
    }
  }

  /** Whatever the server sets and clears at the table's paths, copying those paths back into the stripped object
      gives exactly the server's object. */
  lemma {:induction false} PreserveUndoesStrip(d: Object, table: seq<FieldPath>, ops: seq<Alloc>)
    requires PrefixFree(table) && Hollow(d, table) && ValidAllocs(table, ops) && ClearsRooted(d, table, ops)
    ensures var s := Allocate(d, table, ops); Fill(d, table, ValuesAt(s, table)) == s
  {
    if ops == [] {
      FillHollow(d, table, ValuesAt(d, table));
    } else {
      var n := |ops| - 1;
      var prev := Allocate(d, table, ops[..n]);
      PreserveUndoesStrip(d, table, ops[..n]);
      var i := ops[n].i;
      match ops[n] {
        case Set(_, v) =>
          if Settable(prev, table[i]) {
            ValuesAfterPut(prev, table, i, v);
            FillUpdate(d, table, ValuesAt(prev, table), i, v);
          } else {
            PutBlocked(prev, table[i], v);
          }
        case Clear(_) =>
          ValuesAfterClear(prev, table, i);
          FillClear(d, table, ValuesAt(prev, table), i);
      }
    }
  }

  function AllocsOf(vals: seq<Option<Json>>): (ops: seq<Alloc>)
    ensures forall n :: 0 <= n < |ops| ==> ops[n].Set? && ops[n].i < |vals|
  {
    if vals == [] then []
    else
      var n := |vals| - 1;
      AllocsOf(vals[..n]) + (if vals[n].Some? then [Set(n, vals[n].value)] else [])
  }

  /** Allocations at the entries of a shorter table are allocations at the same entries of a longer one. */
  lemma {:induction false} AllocateWider(o: Object, short: seq<FieldPath>, table: seq<FieldPath>, ops: seq<Alloc>)
    requires short <= table && ValidAllocs(short, ops)
    ensures Allocate(o, short, ops) == Allocate(o, table, ops)
  {
    if ops != [] {
      AllocateWider(o, short, table, ops[..|ops| - 1]);
    }
  }

  lemma {:induction false} FillIsAllocate(o: Object, table: seq<FieldPath>, vals: seq<Option<Json>>)
    requires |vals| == |table|
    ensures Fill(o, table, vals) == Allocate(o, table, AllocsOf(vals))
  {
    if table != [] {
      var n := |table| - 1;
      FillIsAllocate(o, table[..n], vals[..n]);
      AllocateWider(o, table[..n], table, AllocsOf(vals[..n]));
      var ops := AllocsOf(vals);
      if vals[n].Some? {
        assert ops[..|ops| - 1] == AllocsOf(vals[..n]);
      } else {
        assert ops == AllocsOf(vals[..n]);
      }
    }
  }

  lemma {:induction false} AllocateAppend(o: Object, table: seq<FieldPath>, xs: seq<Alloc>, ys: seq<Alloc>)
    requires ValidAllocs(table, xs) && ValidAllocs(table, ys)
    ensures Allocate(Allocate(o, table, xs), table, ys) == Allocate(o, table, xs + ys)
  {
    if ys == [] {
      assert xs + ys == xs;
    } else {
      var n := |ys| - 1;
      AllocateAppend(o, table, xs, ys[..n]);
      assert (xs + ys)[..|xs + ys| - 1] == xs + ys[..n];
    }
  }

  // ----- Metadata and status stay out of it -----

  /** The part of an object the diff compares field by field. */
  function Body(o: Object): Object
  {
    o - {"metadata", "status"}
  }

  ghost predicate AuthoredTable(table: seq<FieldPath>)
  {
    forall i :: 0 <= i < |table| ==> table[i][0] != "metadata" && table[i][0] != "status"
  }

  lemma BodyPut(o: Object, p: FieldPath, v: Json)
    requires p[0] != "metadata" && p[0] != "status"
    ensures Body(Put(o, p, v)) == Put(Body(o), p, v)
  {
    PutHead(o, p, v);
    PutHead(Body(o), p, v);
  }

  lemma BodyRemove(o: Object, p: FieldPath)
    requires p[0] != "metadata" && p[0] != "status"
    ensures Body(Remove(o, p)) == Remove(Body(o), p)
  {
  }

  lemma {:induction false} BodyFill(o: Object, table: seq<FieldPath>, vals: seq<Option<Json>>)
    requires |vals| == |table| && AuthoredTable(table)
    ensures Body(Fill(o, table, vals)) == Fill(Body(o), table, vals)
  {
    if table != [] {
      var n := |table| - 1;
      BodyFill(o, table[..n], vals[..n]);
      if vals[n].Some? {
        BodyPut(Fill(o, table[..n], vals[..n]), table[n], vals[n].value);
      }
    }
  }

  lemma {:induction false} FillKeepsMeta(o: Object, table: seq<FieldPath>, vals: seq<Option<Json>>, f: string)
    requires |vals| == |table| && AuthoredTable(table)
    ensures StringMap(Fill(o, table, vals), f) == StringMap(o, f)
  {
    if table != [] {
      var n := |table| - 1;
      FillKeepsMeta(o, table[..n], vals[..n], f);
      if vals[n].Some? {
        HeadsIncomparable(table[n], ["metadata", f]);
        GetPutOther(Fill(o, table[..n], vals[..n]), table[n], vals[n].value, ["metadata", f]);
      }
    }
  }

  lemma BodyGet(o: Object, q: Path)
    requires q != [] && q[0] != "metadata" && q[0] != "status"
    ensures Get(Body(o), q) == Get(o, q)
  {
  }

  lemma BodyValues(a: Object, b: Object, table: seq<FieldPath>)
    requires AuthoredTable(table) && Body(a) == Body(b)
    ensures ValuesAt(a, table) == ValuesAt(b, table)
  {
    forall i | 0 <= i < |table| ensures ValuesAt(a, table)[i] == ValuesAt(b, table)[i] {
      BodyGet(a, table[i]);
      BodyGet(b, table[i]);
    }
  }

  lemma AgreeIfBodies(a: Object, b: Object)
    requires Labels(a) == Labels(b) && Annotations(a) == Annotations(b) && Body(a) == Body(b)
    ensures Agree(a, b)
  {
    forall k | k != "metadata" && k != "status" ensures TopLevel(a, k) == TopLevel(b, k) {
      assert TopLevel(a, k) == TopLevel(Body(a), k) && TopLevel(b, k) == TopLevel(Body(b), k);
    }
  }

  /** How the API server may store what it was sent: labels and annotations as sent, other metadata and the
      status as it likes, the rest as sent apart from changes at the table's paths. */
  ghost predicate Served(sent: Object, stored: Object, table: seq<FieldPath>, ops: seq<Alloc>)
  {
    && Labels(stored) == Labels(sent)
    && Annotations(stored) == Annotations(sent)
    && ValidAllocs(table, ops)
    && Body(stored) == Allocate(Body(sent), table, ops)
  }

  ghost predicate StoredAs(sent: Object, stored: Object, table: seq<FieldPath>)
  {
    exists ops: seq<Alloc> :: Served(sent, stored, table, ops)
  }

  /** What a write sends: the built object, with the existing object's allocated fields copied in on an update.
      Setting the resourceVersion touches neither body nor string maps. */
  ghost predicate Sends(d: Object, table: seq<FieldPath>, earlier: Option<Object>, sent: Object)
  {
    && Labels(sent) == Labels(d)
    && Annotations(sent) == Annotations(d)
    && Body(sent) == Body(if earlier.Some? then Fill(d, table, ValuesAt(earlier.value, table)) else d)
  }

  /** The next build with the stored fields copied in. */
  function Next(d: Object, table: seq<FieldPath>, stored: Object): Object
  {
    Fill(d, table, ValuesAt(stored, table))
  }

  /** The round trip for any prefix-free table: what was sent is the stripped object, with or without the
      fields of an earlier version copied in; what the server stored then already agrees with the next
      stripped-and-preserved object. */
  lemma RoundTrip(d: Object, earlier: Option<Object>, sent: Object, stored: Object, table: seq<FieldPath>,
                  ops: seq<Alloc>)
    requires PrefixFree(table) && AuthoredTable(table) && Hollow(d, table)
    requires Sends(d, table, earlier, sent) && Served(sent, stored, table, ops) && ClearsRooted(d, table, ops)
    ensures Body(Next(d, table, stored)) == Body(stored) && Agree(stored, Next(d, table, stored))
  {
    var copied: seq<Alloc> := if earlier.Some? then AllocsOf(ValuesAt(earlier.value, table)) else [];
    if earlier.Some? {
      BodyFill(d, table, ValuesAt(earlier.value, table));
      FillIsAllocate(Body(d), table, ValuesAt(earlier.value, table));
    }
    AllocateAppend(Body(d), table, copied, ops);
    RefillIsStored(d, stored, table, copied + ops);
    FillKeepsMaps(d, table, ValuesAt(stored, table));
    AgreeIfBodies(stored, Next(d, table, stored));
  }

  lemma FillKeepsMaps(d: Object, table: seq<FieldPath>, vals: seq<Option<Json>>)
    requires |vals| == |table| && AuthoredTable(table)
    ensures Labels(Fill(d, table, vals)) == Labels(d) && Annotations(Fill(d, table, vals)) == Annotations(d)
  {
    FillKeepsMeta(d, table, vals, "labels");
    FillKeepsMeta(d, table, vals, "annotations");
  }

  /** A hollow object with the stored values filled in has the body that the server made of it. */
  lemma RefillIsStored(d: Object, stored: Object, table: seq<FieldPath>, ops: seq<Alloc>)
    requires PrefixFree(table) && AuthoredTable(table) && Hollow(d, table)
    requires ValidAllocs(table, ops) && ClearsRooted(d, table, ops)
    requires Body(stored) == Allocate(Body(d), table, ops)
    ensures Body(Next(d, table, stored)) == Body(stored)
  {
    forall i | 0 <= i < |table|
      ensures !Get(Body(d), table[i]).Found? && (Rooted(d, table[i]) ==> Rooted(Body(d), table[i]))
    {
      BodyGet(d, table[i]);
    }
    PreserveUndoesStrip(Body(d), table, ops);
    assert Body(Body(stored)) == Body(stored);
    BodyValues(stored, Body(stored), table);
    BodyFill(d, table, ValuesAt(stored, table));
  }

  // ----- When the round trip holds -----

  /** One write of `d` that the next reconcile has nothing to add to. */
  ghost predicate Settles(d: Object, table: seq<FieldPath>, earlier: Option<Object>, sent: Object, stored: Object)
  {
    Sends(d, table, earlier, sent) && StoredAs(sent, stored, table) ==> Agree(stored, Next(d, table, stored))
  }

  /** The round trip holds for everything the server may do if and only if the object has the way to every table
      path: a parent that only the copied fields brought along stays behind, empty, when the server clears them. */
  lemma RoundTripExactly(d: Object, table: seq<FieldPath>)
    requires PrefixFree(table) && AuthoredTable(table) && Hollow(d, table)
    ensures RootedAt(d, table) <==> forall earlier, sent, stored :: Settles(d, table, earlier, sent, stored)
  {
    if RootedAt(d, table) {
      forall earlier, sent, stored ensures Settles(d, table, earlier, sent, stored) {
        if Sends(d, table, earlier, sent) && StoredAs(sent, stored, table) {
          var ops :| Served(sent, stored, table, ops);
          RoundTrip(d, earlier, sent, stored, table, ops);
        }
      }
    } else {
      var i :| 0 <= i < |table| && !Rooted(d, table[i]);
      var earlier, sent, stored := ClearedParentStays(d, table, i);
      assert !Settles(d, table, earlier, sent, stored);
    }
  }

  /** The failing input: an earlier version has the field, the write copies it, the server clears it. */
  lemma ClearedParentStays(d: Object, table: seq<FieldPath>, i: nat)
    returns (earlier: Option<Object>, sent: Object, stored: Object)
    requires PrefixFree(table) && AuthoredTable(table) && Hollow(d, table) && i < |table| && !Rooted(d, table[i])
    ensures Sends(d, table, earlier, sent) && StoredAs(sent, stored, table)
    ensures !Agree(stored, Next(d, table, stored))
  {
    var p := table[i];
    RemovePutLeaves(d, p, Null);
    sent := Put(d, p, Null);
    earlier, stored := Some(sent), Remove(sent, p);
    NoneHollow(d, table);
    ValuesAfterPut(d, table, i, Null);
    FillUpdate(d, table, ValuesAt(d, table), i, Null);
    FillHollow(d, table, ValuesAt(d, table));
    FillKeepsMaps(d, table, ValuesAt(sent, table));
    ClearServed(sent, table, i);
    ValuesAfterClear(sent, table, i);
    assert ValuesAt(stored, table) == ValuesAt(d, table);
    assert TopLevel(stored, p[0]) != TopLevel(d, p[0]);
  }

  lemma NoneHollow(d: Object, table: seq<FieldPath>)
    requires Hollow(d, table)
    ensures forall i :: 0 <= i < |table| ==> ValuesAt(d, table)[i].None?
  {
  }

  lemma ClearServed(sent: Object, table: seq<FieldPath>, i: nat)
    requires AuthoredTable(table) && i < |table|
    ensures StoredAs(sent, Remove(sent, table[i]), table)
  {
    HeadsIncomparable(table[i], ["metadata", "labels"]);
    HeadsIncomparable(table[i], ["metadata", "annotations"]);
    GetRemoveOther(sent, table[i], ["metadata", "labels"]);
    GetRemoveOther(sent, table[i], ["metadata", "annotations"]);
    BodyRemove(sent, table[i]);
    var ops := [Clear(i)];
    assert ops[..0] == [];
    assert Served(sent, Remove(sent, table[i]), table, ops);
  }

  // ----- The table of the code -----

  lemma DiffersAt(p: Path, q: Path, i: nat)
    requires i < |p| && i < |q| && p[i] != q[i]
    ensures Incomparable(p, q)
  {
  }

  lemma ServiceTable()
    ensures PrefixFree(DroppedSpecFields(Gvk("", "v1", "Service")))
  {
    var t := DroppedSpecFields(Gvk("", "v1", "Service"));
    forall i, j | 0 <= i < j < |t| ensures Incomparable(t[i], t[j]) {
      assert |t[0][1]| == 9 && |t[1][1]| == 10 && |t[2][1]| == 10 && |t[3][1]| == 14;
      assert t[1][1][0] != t[2][1][0];
      DiffersAt(t[i], t[j], 1);
    }
  }

  lemma JobTable()
    ensures PrefixFree(DroppedSpecFields(Gvk("batch", "v1", "Job")))
  {
    var t := DroppedSpecFields(Gvk("batch", "v1", "Job"));
    assert |t| == 4;
    assert |t[0][4]| == 34 && |t[1][4]| == 28 && |t[2][4]| == 14;
    assert t[0][1][0] == t[1][1][0] == t[2][1][0] == 't' && t[3][1][0] == 's';
    forall i, j | 0 <= i < j < |t| ensures Incomparable(t[i], t[j]) {
      if j == 3 {
        DiffersAt(t[i], t[j], 1);
      } else {
        DiffersAt(t[i], t[j], 4);
      }
    }
  }

  /** The table of the code is prefix-free for every kind and lies outside metadata and status. */
  lemma RealTable(gvk: Gvk)
    ensures PrefixFree(DroppedSpecFields(gvk)) && AuthoredTable(DroppedSpecFields(gvk))
  {
    InSpec(gvk);
    if gvk == Gvk("", "v1", "Service") {
      ServiceTable();
    } else if gvk == Gvk("batch", "v1", "Job") {
      JobTable();
    } else {
      ShortTable(gvk);
    }
  }

  lemma ShortTable(gvk: Gvk)
    requires gvk != Gvk("", "v1", "Service") && gvk != Gvk("batch", "v1", "Job")
    ensures |DroppedSpecFields(gvk)| <= 1
  {
  }

  lemma InSpec(gvk: Gvk)
    ensures AuthoredTable(DroppedSpecFields(gvk))
  {
    TableNonEmpty(gvk);
    var table := DroppedSpecFields(gvk);
    forall i | 0 <= i < |table| ensures table[i][0] != "metadata" && table[i][0] != "status" {
      assert table[i] in table;
    }
  }

  lemma BuiltKeepsTopLevel(plan: Plan, k: string)
    requires k != "metadata" && k != "status" && k != "spec"
    ensures TopLevel(plan.Built(), k) == TopLevel(plan.source, k)
  {
    TableNonEmpty(GvkOf(plan.source));
    forall p | p in DroppedSpecFields(GvkOf(plan.source)) ensures Incomparable(p, [k]) {
      HeadsIncomparable(p, [k]);
    }
    KeepsTheRest(plan, [k]);
    GetTop(plan.source, k);
    GetTop(plan.Built(), k);
  }

  lemma BuiltKeepsGvk(plan: Plan)
    ensures GvkOf(plan.Built()) == GvkOf(plan.source)
  {
    BuiltKeepsTopLevel(plan, "apiVersion");
    BuiltKeepsTopLevel(plan, "kind");
    SameGvk(plan.Built(), plan.source);
  }

  lemma SameGvk(x: Object, y: Object)
    requires TopLevel(x, "apiVersion") == TopLevel(y, "apiVersion") && TopLevel(x, "kind") == TopLevel(y, "kind")
    ensures GvkOf(x) == GvkOf(y)
  {
    assert StringAt(x, "apiVersion") == StringAt(y, "apiVersion");
    assert StringAt(x, "kind") == StringAt(y, "kind");
  }

  /** The way to every allocated field is in the source, or blocked there. */
  ghost predicate WellRooted(source: Object)
  {
    RootedAt(source, DroppedSpecFields(GvkOf(source)))
  }

  lemma RootedSameHead(o: Object, o': Object, p: FieldPath)
    requires Field(o, p[0]) == Field(o', p[0])
    ensures Rooted(o, p) <==> Rooted(o', p)
  {
  }

  lemma {:induction false} RemoveAllRooted(o: Object, paths: seq<FieldPath>, p: FieldPath)
    requires forall q | q in paths :: Incomparable(p, q) || p == q
    ensures Rooted(RemoveAll(o, paths), p) <==> Rooted(o, p)
  {
    if paths != [] {
      var n := |paths| - 1;
      RemoveAllRooted(o, paths[..n], p);
      assert paths[n] in paths;
      RootedRemove(RemoveAll(o, paths[..n]), p, paths[n]);
    }
  }

  lemma FieldFromGet(o: Object, o': Object, k: string)
    requires Get(o, [k]) == Get(o', [k])
    ensures Field(o, k) == Field(o', k)
  {
    GetTop(o, k);
    GetTop(o', k);
  }

  /** Stripping and stamping neither make nor take the way to a table path. */
  lemma BuiltRooted(plan: Plan, p: FieldPath)
    requires p in DroppedSpecFields(GvkOf(plan.source))
    ensures Rooted(plan.Built(), p) <==> Rooted(plan.source, p)
  {
    var table := DroppedSpecFields(GvkOf(plan.source));
    var meta := MetaPaths(DROPPED_METADATA_FIELDS);
    var o1 := RemoveAll(plan.source, meta);
    RealTable(GvkOf(plan.source));
    forall q | q in meta ensures Incomparable(p, q) {
      HeadsIncomparable(p, q);
    }
    RemoveAllRooted(plan.source, meta, p);
    forall q | q in table ensures Incomparable(p, q) || p == q {
      TableApart(table, p, q);
    }
    RemoveAllRooted(o1, table, p);
    RootedSameHead(RemoveAll(o1, table), Stripped(plan.source), p);
    forall f: string ensures Incomparable(["metadata", f], [p[0]]) {
      HeadsIncomparable(["metadata", f], [p[0]]);
    }
    FinishOther(Stripped(plan.source), plan.labels, plan.annotations, plan.ns, plan.name, [p[0]]);
    FieldFromGet(plan.Built(), Stripped(plan.source), p[0]);
    RootedSameHead(plan.Built(), Stripped(plan.source), p);
  }

  lemma TableApart(table: seq<FieldPath>, p: FieldPath, q: FieldPath)
    requires PrefixFree(table) && p in table && q in table
    ensures Incomparable(p, q) || p == q
  {
    var i :| 0 <= i < |table| && table[i] == p;
    var j :| 0 <= j < |table| && table[j] == q;
  }

  lemma BuiltHollow(plan: Plan)
    ensures Hollow(plan.Built(), DroppedSpecFields(GvkOf(plan.source)))
  {
    var table := DroppedSpecFields(GvkOf(plan.source));
    forall i | 0 <= i < |table| ensures !Get(plan.Built(), table[i]).Found? {
      DropsBody(plan, table[i]);
    }
  }

  /** The round trip for the real table: once the server has stored a built object, building it again from the
      same source and preserving the stored fields gives an object that needs no update. It holds for everything
      the server may set, and for everything it may set and clear if and only if the source is well rooted. */
  lemma SteadyState(plan: Plan, earlier: Option<Object>, sent: Object, stored: Object, ops: seq<Alloc>)
    requires var table := DroppedSpecFields(GvkOf(plan.source));
             && Sends(plan.Built(), table, earlier, sent)
             && Served(sent, stored, table, ops)
             && ClearsRooted(plan.source, table, ops)
    ensures Body(Preserve(stored, plan.Built())) == Body(stored) && Agree(stored, Preserve(stored, plan.Built()))
  {
    var table := DroppedSpecFields(GvkOf(plan.source));
    BuiltKeepsGvk(plan);
    RealTable(GvkOf(plan.source));
    BuiltHollow(plan);
    forall n | 0 <= n < |ops| && ops[n].Clear? ensures Rooted(plan.Built(), table[ops[n].i]) {
      BuiltRooted(plan, table[ops[n].i]);
    }
    RoundTrip(plan.Built(), earlier, sent, stored, table, ops);
  }

  /** `tree` is `d` with the values that `existing` has at the table's paths, where `d` has room for them; on every path
      that branches off the table it is `d`. */
  ghost predicate MergedAt(existing: Object, tree: Object, d: Object, table: seq<FieldPath>)
  {
    && (forall i :: 0 <= i < |table| ==>
          Get(tree, table[i]) == if Get(existing, table[i]).Found? && Settable(d, table[i]) then Get(existing, table[i])
                                 else Get(d, table[i]))
    && (forall q | q != [] && (forall i :: 0 <= i < |table| ==> Incomparable(q, table[i])) :: Get(tree, q) == Get(d, q))
  }

  lemma FillMerges(existing: Object, d: Object, table: seq<FieldPath>)
    requires PrefixFree(table)
    ensures MergedAt(existing, Fill(d, table, ValuesAt(existing, table)), d, table)
  {
    var vals := ValuesAt(existing, table);
    forall i | 0 <= i < |table|
      ensures Get(Fill(d, table, vals), table[i]) ==
              if Get(existing, table[i]).Found? && Settable(d, table[i]) then Get(existing, table[i])
              else Get(d, table[i])
    {
      FillAt(d, table, vals, i);
    }
    forall q | q != [] && (forall i :: 0 <= i < |table| ==> Incomparable(q, table[i]))
      ensures Get(Fill(d, table, vals), q) == Get(d, q)
    {
      FillApart(d, table, vals, q);
    }
  }

  /** What an update sends: at every allocated field the value the server has now, if it has one and the built object
      has room for it; on every path that branches off those fields, the built object. */
  ghost predicate Merged(existing: Object, tree: Object, plan: Plan)
  {
    MergedAt(existing, tree, plan.Built(), DroppedSpecFields(GvkOf(plan.source)))
  }

  lemma PreserveMerges(existing: Object, plan: Plan)
    ensures Merged(existing, Preserve(existing, plan.Built()), plan)
  {
    BuiltKeepsGvk(plan);
    RealTable(GvkOf(plan.source));
    FillMerges(existing, plan.Built(), DroppedSpecFields(GvkOf(plan.source)));
  }

  lemma SteadyStateExactly(plan: Plan)
    ensures WellRooted(plan.source) <==>
            forall earlier, sent, stored ::
              Settles(plan.Built(), DroppedSpecFields(GvkOf(plan.source)), earlier, sent, stored)
  {
    var table := DroppedSpecFields(GvkOf(plan.source));
    RealTable(GvkOf(plan.source));
    BuiltHollow(plan);
    forall i | 0 <= i < |table| ensures Rooted(plan.Built(), table[i]) <==> Rooted(plan.source, table[i]) {
      BuiltRooted(plan, table[i]);
    }
    RoundTripExactly(plan.Built(), table);
  }

  /** A Service without a spec is such a source: a clusterIP that the server clears leaves an empty spec behind, and
      the next reconcile sees a difference. */
  lemma ServiceWithoutSpec(plan: Plan) returns (earlier: Option<Object>, sent: Object, stored: Object)
    requires GvkOf(plan.source) == Gvk("", "v1", "Service") && "spec" !in plan.source
    ensures Sends(plan.Built(), DroppedSpecFields(GvkOf(plan.source)), earlier, sent)
    ensures StoredAs(sent, stored, DroppedSpecFields(GvkOf(plan.source)))
    ensures !Agree(stored, Preserve(stored, plan.Built()))
  {
    var table := DroppedSpecFields(GvkOf(plan.source));
    BuiltKeepsGvk(plan);
    RealTable(GvkOf(plan.source));
    BuiltHollow(plan);
    BuiltRooted(plan, table[0]);
    earlier, sent, stored := ClearedParentStays(plan.Built(), table, 0);
  }

  /** The smallest such source. */
  const BARE_SERVICE: Object := map["apiVersion" := Str("v1"), "kind" := Str("Service")]

  lemma BareServiceHasGvk()
    ensures GvkOf(BARE_SERVICE) == Gvk("", "v1", "Service")
  {
    assert StringAt(BARE_SERVICE, "apiVersion") == "v1" && StringAt(BARE_SERVICE, "kind") == "Service";
    assert "v1"[1..] == "1" && "1"[1..] == "";
    assert SlashCount("") == 0 && SlashCount("1") == 0 && SlashCount("v1") == 0;
  }

  lemma BareServiceKeepsChanging(plan: Plan) returns (earlier: Option<Object>, sent: Object, stored: Object)
    requires plan.source == BARE_SERVICE
    ensures Sends(plan.Built(), DroppedSpecFields(GvkOf(plan.source)), earlier, sent)
    ensures StoredAs(sent, stored, DroppedSpecFields(GvkOf(plan.source)))
    ensures !Agree(stored, Preserve(stored, plan.Built()))
  {
    BareServiceHasGvk();
    earlier, sent, stored := ServiceWithoutSpec(plan);
  }

  /** The kinds with allocated fields directly in their spec. */
  const FLAT_KINDS := {Gvk("", "v1", "Service"), Gvk("", "v1", "PersistentVolumeClaim"), Gvk("", "v1", "Pod")}
  const JOB := Gvk("batch", "v1", "Job")
  const TEMPLATE_LABELS := ["spec", "template", "metadata", "labels"]

  /** What the condition asks of a source, kind by kind: a spec for three of them, for a Job the labels of its pod
      template, of kinds without allocated fields nothing. */
  lemma WellRootedByKind(source: Object)
    ensures GvkOf(source) in FLAT_KINDS ==> (WellRooted(source) <==> "spec" in source)
    ensures GvkOf(source) == JOB && Get(source, TEMPLATE_LABELS).Found? ==> WellRooted(source)
    ensures DroppedSpecFields(GvkOf(source)) == [] ==> WellRooted(source)
  {
    var gvk := GvkOf(source);
    if gvk in FLAT_KINDS {
      InSpecDirectly(source);
    }
    if gvk == JOB && Get(source, TEMPLATE_LABELS).Found? {
      JobRooted(source);
    }
  }

  lemma InSpecDirectly(source: Object)
    requires GvkOf(source) in FLAT_KINDS
    ensures WellRooted(source) <==> "spec" in source
  {
    var table := DroppedSpecFields(GvkOf(source));
    forall i | 0 <= i < |table| ensures Rooted(source, table[i]) <==> "spec" in source {
      assert |table[i]| == 2 && table[i][0] == "spec";
    }
    if WellRooted(source) {
      assert Rooted(source, table[0]);
    }
  }

  lemma {:induction false} RootedBelow(o: Object, p: Path, k: string)
    requires Get(o, p).Found?
    ensures Rooted(o, p + [k])
    decreases p
  {
    if p != [] {
      assert (p + [k])[1..] == p[1..] + [k];
      assert Get(o, p) == At(o[p[0]], p[1..]);
      if o[p[0]].Obj? {
        RootedBelow(o[p[0]].fields, p[1..], k);
      }
    }
  }

  lemma JobRooted(source: Object)
    requires GvkOf(source) == JOB && Get(source, TEMPLATE_LABELS).Found?
    ensures WellRooted(source)
  {
    var table := DroppedSpecFields(GvkOf(source));
    var labels := TEMPLATE_LABELS;
    forall i | 0 <= i < 3 ensures Rooted(source, table[i]) {
      RootedBelow(source, labels, table[i][4]);
      assert table[i] == labels + [table[i][4]];
    }
    assert table[3][0] == labels[0] && |table[3]| == 2;
    assert labels[0] in source;
  }
}
