/** summarizeFailures (cluster_projection_controller.go): which failed namespaces the condition message names. */
module Summary {
  import opened Lists
  import opened Ordering

  const MAX_NAMESPACES_IN_MESSAGE := 5

  /** The counts and names of the message; `more` is the number in "+N more", 0 when that part is left out. */
  datatype Summary = Summary(total: int, shown: seq<string>, more: int)

  /** The keys of a Go map, in any order. */
  method KeysOf(m: map<string, string>) returns (names: seq<string>)
    ensures Distinct(names) && SetOf(names) == m.Keys && |names| == |m|
  {
    names := [];
    var todo := m.Keys;
    while todo != {}
      invariant todo <= m.Keys
      invariant SetOf(names) == m.Keys - todo
      invariant Distinct(names)
      invariant |names| + |todo| == |m|
      decreases todo
    {
      var ns :| ns in todo;
      assert ns !in SetOf(names);
      SetOfAppend(names, ns);
      names := names + [ns];
      todo := todo - {ns};
    }
  }

  /** A prefix of a sorted list of distinct names holds its smallest names. */
  lemma PrefixSmallest(sorted: seq<string>, n: nat)
    requires Sorted(sorted) && Distinct(sorted) && n <= |sorted|
    ensures Sorted(sorted[..n]) && Distinct(sorted[..n])
    ensures forall x, y | x in sorted[..n] && y in sorted && y !in sorted[..n] :: Le(x, y)
  {
    assert forall k | 0 <= k < n :: sorted[..n][k] == sorted[k];
    forall x, y | x in sorted[..n] && y in sorted && y !in sorted[..n] ensures Le(x, y) {
      var i :| 0 <= i < n && sorted[..n][i] == x;
      var j :| 0 <= j < |sorted| && sorted[j] == y;
    }
  }

  /** The summary of a failure map: the smallest names in order, and how many more there are. */
  ghost predicate Summarizes(s: Summary, total: int, failures: map<string, string>)
  {
    && s.total == total
    && Sorted(s.shown) && Distinct(s.shown)
    && |s.shown| == (if |failures| < 5 then |failures| else 5)
    && SetOf(s.shown) <= failures.Keys
    && (forall x, y | x in s.shown && y in failures && y !in s.shown :: Le(x, y))
    && (total >= |s.shown| ==> |s.shown| + s.more == total)
    && (total == |failures| ==> (s.more > 0 <==> |failures| > 5))
  }

  /** Decimal notation. */
  function Decimal(n: int): string
    decreases if n < 0 then 1 - n else n
  {
    if n < 0 then "-" + Decimal(-n)
    else if n < 10 then [DIGITS[n]]
    else Decimal(n / 10) + [DIGITS[n % 10]]
  }

  const DIGITS: string := "0123456789"

  function Spaced(names: seq<string>): string
  {
    if names == [] then ""
    else if |names| == 1 then names[0]
    else names[0] + " " + Spaced(names[1..])
  }

  /** The text of the condition message. */
  function Render(s: Summary): string
  {
    var names := "[" + Spaced(s.shown) + "]";
    if s.total > |s.shown| then
      "write failed in " + Decimal(s.total) + " namespaces (first: " + names + ", +" + Decimal(s.more) + " more)"
    else
      "write failed in " + Decimal(s.total) + " namespaces: " + names
  }

  /** Reading the digits back. */
  function Value(s: string): int
    requires forall i :: 0 <= i < |s| ==> '0' <= s[i] <= '9'
  {
    if s == "" then 0 else 10 * Value(s[..|s| - 1]) + (s[|s| - 1] as int - '0' as int)
  }

  /** Different counts read differently: the notation can be read back. */
  lemma {:induction false} DecimalReads(n: nat)
    ensures Decimal(n) != "" && forall i :: 0 <= i < |Decimal(n)| ==> '0' <= Decimal(n)[i] <= '9'
    ensures Value(Decimal(n)) == n
  {
    var d := Decimal(n);
    assert forall k :: 0 <= k < 10 ==> DIGITS[k] as int == '0' as int + k;
    if n < 10 {
      assert d[..|d| - 1] == "";
    } else {
      DecimalReads(n / 10);
      assert d[..|d| - 1] == Decimal(n / 10);
    }
  }

  /** The two forms of the message. */
  lemma RenderMeans(total: int, shown: seq<string>, more: int)
    ensures total > |shown| ==>
              Render(Summary(total, shown, more)) ==
              "write failed in " + Decimal(total) + " namespaces (first: " + ("[" + Spaced(shown) + "]") + ", +" +
              Decimal(more) + " more)"
    ensures total <= |shown| ==>
              Render(Summary(total, shown, more)) ==
              "write failed in " + Decimal(total) + " namespaces: " + ("[" + Spaced(shown) + "]")
  {
  }

  lemma SpacedMeans(names: seq<string>, x: string)
    ensures Spaced([]) == "" && Spaced([x]) == x
    ensures names != [] ==> Spaced([x] + names) == x + " " + Spaced(names)
  {
    assert ([x] + names)[1..] == names;
  }

  /** For the count and the map that fanOut returns, the shown names are the five smallest failed namespaces and
      shown plus "+N more" is the number of failures. */
  method SummarizeFailures(total: int, failures: map<string, string>) returns (s: Summary)
    ensures Summarizes(s, total, failures)
    ensures s.total == total && Sorted(s.shown) && Distinct(s.shown) && SetOf(s.shown) <= failures.Keys
    ensures |s.shown| == if |failures| < 5 then |failures| else 5
    ensures forall x, y | x in s.shown && y in failures && y !in s.shown :: Le(x, y)
    ensures total >= |s.shown| ==> |s.shown| + s.more == total
  {
    var names := KeysOf(failures);
    var shown := Sort(names);
    Permuted(names, shown);
    PrefixSmallest(shown, if |shown| > MAX_NAMESPACES_IN_MESSAGE then MAX_NAMESPACES_IN_MESSAGE else |shown|);
    ghost var all := shown;
    assert forall y | y in failures :: y in SetOf(all);
    if |shown| > MAX_NAMESPACES_IN_MESSAGE {
      shown := shown[..MAX_NAMESPACES_IN_MESSAGE];
    }
    assert forall x | x in shown :: x in SetOf(all);
    s := Summary(total, shown, if total > |shown| then total - |shown| else 0);
  }
}
