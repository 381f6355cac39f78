/** Finite runs of a step relation. */
module Chains {

  /** The steps taken one after the other. */
  ghost predicate Runs<S(!new), A>(step: (S, A, S) -> bool, s: S, acts: seq<A>, s': S)
    decreases |acts|
  {
    if acts == [] then s' == s
    else
      var n := |acts| - 1;
      exists mid :: Runs(step, s, acts[..n], mid) && step(mid, acts[n], s')
  }

  lemma Extended<S(!new), A>(step: (S, A, S) -> bool, s: S, acts: seq<A>, mid: S, a: A, s': S)
    requires Runs(step, s, acts, mid) && step(mid, a, s')
    ensures Runs(step, s, acts + [a], s')
  {
    var all := acts + [a];
    assert all[..|all| - 1] == acts && all[|all| - 1] == a;
  }

  lemma {:induction false} Joined<S(!new), A>(step: (S, A, S) -> bool, s: S, xs: seq<A>, mid: S, ys: seq<A>, s': S)
    requires Runs(step, s, xs, mid) && Runs(step, mid, ys, s')
    ensures Runs(step, s, xs + ys, s')
    decreases |ys|
  {
    if ys == [] {
      assert xs + ys == xs;
    } else {
      var n := |ys| - 1;
      var near :| Runs(step, mid, ys[..n], near) && step(near, ys[n], s');
      Joined(step, s, xs, mid, ys[..n], near);
      Extended(step, s, xs + ys[..n], near, ys[n], s');
      assert xs + ys == xs + ys[..n] + [ys[n]];
    }
  }
}
