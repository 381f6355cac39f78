/** Sequences of names: distinctness, multiplicity and the set of elements. */
module Lists {
  predicate Distinct(s: seq<string>)
  {
    forall i, j :: 0 <= i < j < |s| ==> s[i] != s[j]
  }

  /** How often a name occurs. */
  function Times(s: seq<string>, x: string): nat
  {
    multiset(s)[x]
  }

  function One(b: bool): nat
  {
    if b then 1 else 0
  }

  ghost function SetOf(s: seq<string>): set<string>
  {
    set x | x in s
  }

  lemma TimesAppend(s: seq<string>, y: string, x: string)
    ensures Times(s + [y], x) == Times(s, x) + One(x == y)
  {
  }

  lemma TimesHead(s: seq<string>, x: string)
    requires s != []
    ensures Times(s, x) == One(x == s[0]) + Times(s[1..], x)
  {
    assert s == [s[0]] + s[1..];
  }

  lemma SetOfAppend(s: seq<string>, x: string)
    ensures SetOf(s + [x]) == SetOf(s) + {x}
  {
  }

  lemma {:induction false} DistinctOnce(s: seq<string>, x: string)
    requires Distinct(s)
    ensures Times(s, x) <= 1
  {
    if s != [] {
      var n := |s| - 1;
      assert s == s[..n] + [s[n]];
      DistinctOnce(s[..n], x);
      if s[n] == x {
        assert x !in s[..n];
      }
    }
  }

  lemma OnceDistinct(s: seq<string>)
    requires forall x :: Times(s, x) <= 1
    ensures Distinct(s)
  {
    forall i, j | 0 <= i < j < |s| ensures s[i] != s[j] {
      assert s == s[..j] + s[j..];
      assert s[i] == s[..j][i] && s[j] == s[j..][0];
      assert s[i] in s[..j] && s[j] in s[j..];
      assert Times(s, s[j]) == Times(s[..j], s[j]) + Times(s[j..], s[j]);
    }
  }

  /** A permutation of distinct names is distinct and has the same elements. */
  lemma Permuted(a: seq<string>, b: seq<string>)
    requires multiset(a) == multiset(b) && Distinct(a)
    ensures Distinct(b) && |a| == |b| && SetOf(a) == SetOf(b)
  {
    forall x ensures Times(b, x) <= 1 && (x in a <==> x in b) {
      DistinctOnce(a, x);
      assert x in a <==> Times(a, x) > 0;
      assert x in b <==> Times(b, x) > 0;
    }
    OnceDistinct(b);
    assert |multiset(a)| == |a| && |multiset(b)| == |b|;
  }

  lemma {:induction false} DistinctSize(s: seq<string>)
    requires Distinct(s)
    ensures |SetOf(s)| == |s|
  {
    if s != [] {
      var n := |s| - 1;
      DistinctSize(s[..n]);
      var last := s[n];
      assert last !in s[..n];
      SetOfAppend(s[..n], last);
      assert SetOf(s) == SetOf(s[..n]) + {last} by {
        assert s == s[..n] + [last];
      }
    }
  }
}
