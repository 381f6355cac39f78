/** The joined string keys: ownerKey (destination.go) and sourceKey (source.go). */
module Keys {
  import opened Types

  /** The admission patterns allow no slash in a group, kind or namespace. */
  predicate Plain(s: string)
  {
    '/' !in s
  }

  function Join(a: string, b: string): string
  {
    a + "/" + b
  }

  /** The first slash tells where the left part ends. */
  lemma JoinInjective(a: string, b: string, c: string, d: string)
    requires Plain(a) && Plain(c) && Join(a, b) == Join(c, d)
    ensures a == c && b == d
  {
    var s := Join(a, b);
    assert s[|a|] == '/' && s[|c|] == '/';
    assert forall i | 0 <= i < |a| :: s[i] == a[i];
    assert forall i | 0 <= i < |c| :: s[i] == c[i];
    assert |a| == |c|;
    assert a == s[..|a|] && c == s[..|c|];
    assert b == s[|a| + 1..] && d == s[|c| + 1..];
  }

  /** sourceKey: the version is left out on purpose. */
  function SourceKey(s: SourceRef): string
  {
    s.group + "/" + s.kind + "/" + s.namespace + "/" + s.name
  }

  predicate Admitted(s: SourceRef)
  {
    Plain(s.group) && Plain(s.kind) && Plain(s.namespace)
  }

  /** What the admission patterns come to. */
  lemma AdmittedMeans(s: SourceRef)
    ensures Admitted(s) <==> '/' !in s.group && '/' !in s.kind && '/' !in s.namespace
  {
  }

  lemma SourceKeyNests(s: SourceRef)
    ensures SourceKey(s) == Join(s.group, Join(s.kind, Join(s.namespace, s.name)))
  {
  }

  /** Two admitted references share an index key exactly when they name one object, whatever their versions. */
  lemma SourceKeyInjective(s: SourceRef, t: SourceRef)
    requires Admitted(s) && Admitted(t)
    ensures SourceKey(s) == SourceKey(t) <==>
            s.group == t.group && s.kind == t.kind && s.namespace == t.namespace && s.name == t.name
  {
    SourceKeyNests(s);
    SourceKeyNests(t);
    if SourceKey(s) == SourceKey(t) {
      JoinInjective(s.group, Join(s.kind, Join(s.namespace, s.name)), t.group, Join(t.kind, Join(t.namespace, t.name)));
      JoinInjective(s.kind, Join(s.namespace, s.name), t.kind, Join(t.namespace, t.name));
      JoinInjective(s.namespace, s.name, t.namespace, t.name);
    }
  }

  /** ownerKey names one Projection. */
  lemma OwnerKeyInjective(p: Projection, q: Projection)
    requires Plain(p.namespace) && Plain(q.namespace)
    ensures OwnerKey(p) == OwnerKey(q) <==> (p.namespace == q.namespace && p.name == q.name)
  {
    if OwnerKey(p) == OwnerKey(q) {
      JoinInjective(p.namespace, p.name, q.namespace, q.name);
    }
  }

  /** Without the admission pattern the key is ambiguous. */
  lemma SourceKeyNeedsAdmission()
    ensures exists s: SourceRef, t: SourceRef :: SourceKey(s) == SourceKey(t) && s.kind != t.kind && s.name != t.name
  {
    var s := SourceRef("a", "v1", "b/c", "d", "e");
    var t := SourceRef("a", "v1", "b", "c", "d/e");
    assert SourceKey(s) == "a/b/c/d/e" && SourceKey(t) == "a/b/c/d/e";
    assert |s.kind| != |t.kind| && |s.name| != |t.name|;
  }
}
