/** sort.Strings: insertion sort by code points, with what a sort promises. */
module Ordering {
  predicate Le(a: string, b: string)
  {
    a == "" || (b != "" && (a[0] < b[0] || (a[0] == b[0] && Le(a[1..], b[1..]))))
  }

  lemma {:induction false} LeTotal(a: string, b: string)
    ensures Le(a, b) || Le(b, a)
  {
    if a != "" && b != "" && a[0] == b[0] {
      LeTotal(a[1..], b[1..]);
    }
  }

  lemma {:induction false} LeTransitive(a: string, b: string, c: string)
    requires Le(a, b) && Le(b, c)
    ensures Le(a, c)
  {
    if a != "" && a[0] == b[0] == c[0] {
      LeTransitive(a[1..], b[1..], c[1..]);
    }
  }

  /** The order is that of dictionaries: a prefix comes first, otherwise the first difference decides. */
  lemma {:induction false} LeMeans(a: string, b: string)
    ensures Le(a, b) <==> a <= b || exists i :: 0 <= i < |a| && i < |b| && a[..i] == b[..i] && a[i] < b[i]
  {
    if a != "" && b != "" {
      if a[0] == b[0] {
        LeMeans(a[1..], b[1..]);
        assert a == [a[0]] + a[1..] && b == [b[0]] + b[1..];
        if i :| 0 <= i < |a| && i < |b| && a[..i] == b[..i] && a[i] < b[i] {
          assert a[1..][..i - 1] == a[..i][1..] && b[1..][..i - 1] == b[..i][1..];
          assert a[1..][i - 1] < b[1..][i - 1];
        }
        if i :| 0 <= i < |a[1..]| && i < |b[1..]| && a[1..][..i] == b[1..][..i] && a[1..][i] < b[1..][i] {
          assert a[..i + 1] == [a[0]] + a[1..][..i] && b[..i + 1] == [b[0]] + b[1..][..i];
          assert a[i + 1] < b[i + 1];
        }
      } else {
        assert a[..0] == b[..0];
        if i :| 0 <= i < |a| && i < |b| && a[..i] == b[..i] && a[i] < b[i] {
          assert i > 0 ==> a[..i][0] == b[..i][0];
        }
      }
    }
  }

  predicate Sorted(s: seq<string>)
  {
    forall i, j :: 0 <= i < j < |s| ==> Le(s[i], s[j])
  }

  function Insert(s: seq<string>, x: string): (r: seq<string>)
    requires Sorted(s)
    ensures Sorted(r) && multiset(r) == multiset(s) + multiset{x}
  {
    if s == [] then [x]
    else
      var n := |s| - 1;
      assert s == s[..n] + [s[n]];
      if Le(s[n], x) then InsertLast(s, x); s + [x]
      else
        var r := Insert(s[..n], x);
        InsertBefore(s, x, r);
        r + [s[n]]
  }

  lemma InsertLast(s: seq<string>, x: string)
    requires Sorted(s) && s != [] && Le(s[|s| - 1], x)
    ensures Sorted(s + [x])
  {
    forall i | 0 <= i < |s| ensures Le(s[i], x) {
      if i < |s| - 1 {
        LeTransitive(s[i], s[|s| - 1], x);
      }
    }
  }

  lemma InsertBefore(s: seq<string>, x: string, r: seq<string>)
    requires Sorted(s) && s != [] && !Le(s[|s| - 1], x)
    requires Sorted(r) && multiset(r) == multiset(s[..|s| - 1]) + multiset{x}
    ensures Sorted(r + [s[|s| - 1]])
  {
    var n := |s| - 1;
    LeTotal(x, s[n]);
    forall i | 0 <= i < |r| ensures Le(r[i], s[n]) {
      assert r[i] in multiset(r);
      if r[i] != x {
        assert r[i] in s[..n];
      }
    }
  }

  function Sort(s: seq<string>): (r: seq<string>)
    ensures Sorted(r) && multiset(r) == multiset(s)
  {
    if s == [] then []
    else
      assert s == s[..|s| - 1] + [s[|s| - 1]];
      Insert(Sort(s[..|s| - 1]), s[|s| - 1])
  }
}
