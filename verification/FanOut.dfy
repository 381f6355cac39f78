/** The worker pool of fanOut (cluster_projection_controller.go): goroutines, two buffered channels, a wait group
    and a collector, as a transition system that is proved to compute what a plain loop over the targets computes.

    A cell is whatever the cluster holds for one target namespace. `write(ns, fetched, current)` is one
    writeClusterDestination: what it read before, what is there when it writes, and what it leaves and returns. */
module FanOut {
  import opened Lists

  datatype Outcome = Outcome(reason: string, msg: string)
  datatype Result = Result(ns: string, outcome: Outcome)

  datatype Worker<+C> = Waiting | Holding(ns: string) | Fetched(ns: string, cell: C) | Finished(result: Result) | Exited

  datatype Pool<+C> = Pool(
    workers: seq<Worker<C>>,
    wg: nat,
    fed: nat,
    jobs: seq<string>,
    jobsClosed: bool,
    results: seq<Result>,
    resultsClosed: bool,
    cells: map<string, C>,
    collected: seq<Result>,
    rollup: Rollup,
    done: bool)

  /** (written, failed, failureMsgs). */
  datatype Rollup = Rollup(written: nat, failed: nat, failures: map<string, string>)

  datatype Action =
    | Spawn | Feed | CloseJobs
    | Take(w: nat) | Fetch(w: nat) | Write(w: nat) | Send(w: nat) | Exit(w: nat)
    | CloseResults | Collect | Finish

  type Writer<!C> = (string, C, C) -> (C, Outcome)

  datatype Config<!C> = Config(targets: seq<string>, limit: int, cells: map<string, C>, write: Writer<C>)

  /** SelectorWriteConcurrency, 16 when unset, never more than there are targets. */
  function Concurrency(limit: int, n: nat): nat
  {
    var c := if limit <= 0 then 16 else limit;
    if c > n then n else c
  }

  ghost predicate Fit<C>(c: Config<C>)
  {
    Distinct(c.targets) && forall i :: 0 <= i < |c.targets| ==> c.targets[i] in c.cells
  }

  function Count(r: Rollup, res: Result): Rollup
  {
    if res.outcome.reason == "" then r.(written := r.written + 1)
    else r.(failed := r.failed + 1, failures := r.failures[res.ns := res.outcome.reason + ": " + res.outcome.msg])
  }

  // ----- The plain loop -----

  /** Write target after target, in order, and count. */
  function Loop<C>(targets: seq<string>, cells: map<string, C>, write: Writer<C>): (map<string, C>, Rollup)
    requires forall i :: 0 <= i < |targets| ==> targets[i] in cells
    ensures Loop(targets, cells, write).0.Keys == cells.Keys
  {
    if targets == [] then (cells, Rollup(0, 0, map[]))
    else
      var n := |targets| - 1;
      var (before, r) := Loop(targets[..n], cells, write);
      var (cell, outcome) := write(targets[n], before[targets[n]], before[targets[n]]);
      (before[targets[n] := cell], Count(r, Result(targets[n], outcome)))
  }

  // ----- The pool -----

  function Init<C>(c: Config<C>): Pool<C>
  {
    Pool([], 0, 0, [], false, [], false, c.cells, [], Rollup(0, 0, map[]), false)
  }

  predicate Busy<C>(s: Pool<C>, w: nat)
  {
    w < |s.workers|
  }

  predicate Enabled<C>(c: Config<C>, s: Pool<C>, a: Action)
  {
    var n := |c.targets|;
    match a
    case Spawn => |s.workers| < Concurrency(c.limit, n)
    // a send blocks on a full channel
    case Feed => |s.workers| == Concurrency(c.limit, n) && s.fed < n && |s.jobs| < n
    case CloseJobs => s.fed == n && !s.jobsClosed
    case Take(w) => Busy(s, w) && s.workers[w].Waiting? && s.jobs != []
    case Fetch(w) => Busy(s, w) && s.workers[w].Holding? && s.workers[w].ns in s.cells
    case Write(w) => Busy(s, w) && s.workers[w].Fetched? && s.workers[w].ns in s.cells
    case Send(w) => Busy(s, w) && s.workers[w].Finished? && |s.results| < n && !s.resultsClosed
    case Exit(w) => Busy(s, w) && s.workers[w].Waiting? && s.jobs == [] && s.jobsClosed && s.wg > 0
    // the closer goroutine starts after close(jobs) and waits for the group
    case CloseResults => s.jobsClosed && s.wg == 0 && !s.resultsClosed
    case Collect => s.jobsClosed && s.results != []
    case Finish => s.jobsClosed && s.resultsClosed && s.results == [] && !s.done
  }

  function Step<C>(c: Config<C>, s: Pool<C>, a: Action): Pool<C>
    requires Enabled(c, s, a)
  {
    match a
    case Spawn => s.(workers := s.workers + [Waiting], wg := s.wg + 1)
    case Feed =>
      if s.fed < |c.targets| then s.(jobs := s.jobs + [c.targets[s.fed]], fed := s.fed + 1) else s
    case CloseJobs => s.(jobsClosed := true)
    case Take(w) => s.(workers := s.workers[w := Holding(s.jobs[0])], jobs := s.jobs[1..])
    case Fetch(w) => var ns := s.workers[w].ns; s.(workers := s.workers[w := Fetched(ns, s.cells[ns])])
    case Write(w) =>
      var ns := s.workers[w].ns;
      var (cell, outcome) := c.write(ns, s.workers[w].cell, s.cells[ns]);
      s.(workers := s.workers[w := Finished(Result(ns, outcome))], cells := s.cells[ns := cell])
    case Send(w) => s.(results := s.results + [s.workers[w].result], workers := s.workers[w := Waiting])
    case Exit(w) => s.(workers := s.workers[w := Exited], wg := s.wg - 1)
    case CloseResults => s.(resultsClosed := true)
    case Collect =>
      s.(results := s.results[1..], collected := s.collected + [s.results[0]], rollup := Count(s.rollup, s.results[0]))
    case Finish => s.(done := true)
  }

  // ----- Where every target is -----

  function Names(rs: seq<Result>): (ns: seq<string>)
    ensures |ns| == |rs| && forall i :: 0 <= i < |rs| ==> ns[i] == rs[i].ns
  {
    seq(|rs|, i requires 0 <= i < |rs| => rs[i].ns)
  }

  predicate Unwritten<C>(w: Worker<C>, x: string)
  {
    (w.Holding? || w.Fetched?) && w.ns == x
  }

  predicate WrittenBy<C>(w: Worker<C>, x: string)
  {
    w.Finished? && w.result.ns == x
  }

  function HeldBefore<C>(ws: seq<Worker<C>>, x: string): nat
  {
    if ws == [] then 0 else HeldBefore(ws[..|ws| - 1], x) + One(Unwritten(ws[|ws| - 1], x))
  }

  function HeldAfter<C>(ws: seq<Worker<C>>, x: string): nat
  {
    if ws == [] then 0 else HeldAfter(ws[..|ws| - 1], x) + One(WrittenBy(ws[|ws| - 1], x))
  }

  predicate InFlight<C>(w: Worker<C>)
  {
    w.Holding? || w.Fetched? || w.Finished?
  }

  /** Workers that hold a target, and workers that have not exited. */
  function Flying<C>(ws: seq<Worker<C>>): nat
  {
    if ws == [] then 0 else Flying(ws[..|ws| - 1]) + One(InFlight(ws[|ws| - 1]))
  }

  function Running<C>(ws: seq<Worker<C>>): nat
  {
    if ws == [] then 0 else Running(ws[..|ws| - 1]) + One(!ws[|ws| - 1].Exited?)
  }

  /** Not written yet: not fed, queued, or in a worker's hands. */
  function Before<C>(c: Config<C>, s: Pool<C>, x: string): nat
    requires s.fed <= |c.targets|
  {
    Times(c.targets[s.fed..], x) + Times(s.jobs, x) + HeldBefore(s.workers, x)
  }

  /** Written: in a worker's hands, buffered, or collected. */
  function After<C>(s: Pool<C>, x: string): nat
  {
    HeldAfter(s.workers, x) + Times(Names(s.results), x) + Times(Names(s.collected), x)
  }

  /** Pending, in-flight, buffered and collected together are a permutation of the targets. */
  ghost predicate Permutation<C>(c: Config<C>, s: Pool<C>)
    requires s.fed <= |c.targets|
  {
    && (forall x :: Before(c, s, x) + After(s, x) == Times(c.targets, x))
    && |c.targets| - s.fed + |s.jobs| + Flying(s.workers) + |s.results| + |s.collected| == |c.targets|
  }

  function EffectOf<C>(c: Config<C>, ns: string): (C, Outcome)
    requires ns in c.cells
  {
    c.write(ns, c.cells[ns], c.cells[ns])
  }

  ghost predicate Honest<C>(c: Config<C>, r: Result)
  {
    r.ns in c.cells && r.outcome == EffectOf(c, r.ns).1
  }

  ghost predicate WorkerOk<C>(c: Config<C>, w: Worker<C>)
  {
    match w
    case Holding(ns) => ns in c.cells
    case Fetched(ns, cell) => ns in c.cells && cell == c.cells[ns]
    case Finished(r) => Honest(c, r)
    case _ => true
  }

  function Tally(rs: seq<Result>): Rollup
  {
    if rs == [] then Rollup(0, 0, map[]) else Count(Tally(rs[..|rs| - 1]), rs[|rs| - 1])
  }

  /** Each cell is the written one exactly for the targets that are past their write. */
  ghost predicate CellsOk<C>(c: Config<C>, s: Pool<C>)
  {
    && s.cells.Keys == c.cells.Keys
    && forall ns | ns in c.cells :: s.cells[ns] == if After(s, ns) > 0 then EffectOf(c, ns).0 else c.cells[ns]
  }

  /** Spawning precedes feeding, feeding precedes closing; the wait group counts the workers that have not exited,
      and a worker exits only when the closed job channel is empty. */
  ghost predicate Control<C>(c: Config<C>, s: Pool<C>)
  {
    && |s.workers| <= Concurrency(c.limit, |c.targets|)
    && (s.fed > 0 || s.jobsClosed ==> |s.workers| == Concurrency(c.limit, |c.targets|))
    && s.fed <= |c.targets|
    && (s.jobsClosed ==> s.fed == |c.targets|)
    && s.wg == Running(s.workers)
    && (s.resultsClosed ==> s.jobsClosed && s.wg == 0)
    && (s.done ==> s.resultsClosed && s.results == [])
    && (forall i :: 0 <= i < |s.workers| && s.workers[i].Exited? ==> s.jobs == [] && s.jobsClosed)
  }

  /** Every result in the system is the one the target has on its own. */
  ghost predicate Payload<C>(c: Config<C>, s: Pool<C>)
  {
    && (forall i :: 0 <= i < |s.jobs| ==> s.jobs[i] in c.cells)
    && (forall i :: 0 <= i < |s.workers| ==> WorkerOk(c, s.workers[i]))
    && (forall i :: 0 <= i < |s.results| ==> Honest(c, s.results[i]))
    && (forall i :: 0 <= i < |s.collected| ==> Honest(c, s.collected[i]))
    && s.rollup == Tally(s.collected)
  }

  ghost predicate Inv<C>(c: Config<C>, s: Pool<C>)
  {
    Control(c, s) && Permutation(c, s) && Payload(c, s) && CellsOk(c, s)
  }

  // ----- Bookkeeping lemmas -----

  lemma {:induction false} HeldUpdate<C>(ws: seq<Worker<C>>, i: nat, w: Worker<C>, x: string)
    requires i < |ws|
    ensures HeldBefore(ws[i := w], x) + One(Unwritten(ws[i], x)) == HeldBefore(ws, x) + One(Unwritten(w, x))
    ensures HeldAfter(ws[i := w], x) + One(WrittenBy(ws[i], x)) == HeldAfter(ws, x) + One(WrittenBy(w, x))
  {
    var n := |ws| - 1;
    if i == n {
      assert ws[i := w][..n] == ws[..n];
    } else {
      assert ws[i := w][..n] == ws[..n][i := w];
      HeldUpdate(ws[..n], i, w, x);
    }
  }

  lemma {:induction false} CountUpdate<C>(ws: seq<Worker<C>>, i: nat, w: Worker<C>)
    requires i < |ws|
    ensures Flying(ws[i := w]) + One(InFlight(ws[i])) == Flying(ws) + One(InFlight(w))
    ensures Running(ws[i := w]) + One(!ws[i].Exited?) == Running(ws) + One(!w.Exited?)
  {
    var n := |ws| - 1;
    if i == n {
      assert ws[i := w][..n] == ws[..n];
    } else {
      assert ws[i := w][..n] == ws[..n][i := w];
      CountUpdate(ws[..n], i, w);
    }
  }

  lemma {:induction false} HeldHas<C>(ws: seq<Worker<C>>, i: nat, x: string)
    requires i < |ws|
    ensures HeldBefore(ws, x) >= One(Unwritten(ws[i], x)) && HeldAfter(ws, x) >= One(WrittenBy(ws[i], x))
    ensures Flying(ws) >= One(InFlight(ws[i])) && Running(ws) >= One(!ws[i].Exited?)
  {
    if i < |ws| - 1 {
      HeldHas(ws[..|ws| - 1], i, x);
    }
  }

  lemma HeldSpawn<C>(ws: seq<Worker<C>>, x: string)
    ensures HeldBefore(ws + [Waiting], x) == HeldBefore(ws, x) && HeldAfter(ws + [Waiting], x) == HeldAfter(ws, x)
    ensures Flying(ws + [Waiting]) == Flying(ws) && Running(ws + [Waiting]) == Running(ws) + 1
  {
    assert (ws + [Waiting])[..|ws|] == ws;
  }

  lemma {:induction false} FlyingBound<C>(ws: seq<Worker<C>>)
    ensures Flying(ws) <= |ws|
    ensures Flying(ws) == 0 ==> forall i :: 0 <= i < |ws| ==> !InFlight(ws[i])
    ensures Running(ws) == 0 ==> forall i :: 0 <= i < |ws| ==> ws[i].Exited?
  {
    if ws != [] {
      FlyingBound(ws[..|ws| - 1]);
    }
  }

  lemma NamesAppend(rs: seq<Result>, r: Result)
    ensures Names(rs + [r]) == Names(rs) + [r.ns]
  {
  }

  lemma NamesTail(rs: seq<Result>)
    requires rs != []
    ensures Names(rs[1..]) == Names(rs)[1..]
  {
  }

  // ----- Every step keeps the invariant -----

  lemma InvInit<C>(c: Config<C>)
    requires Fit(c)
    ensures Inv(c, Init(c))
  {
    assert c.targets[0..] == c.targets;
  }

  lemma MainMove<C>(c: Config<C>, s: Pool<C>, a: Action, x: string)
    requires s.fed <= |c.targets| && Enabled(c, s, a) && (a.Spawn? || a.Feed? || a.Collect?)
    ensures var s' := Step(c, s, a); Before(c, s', x) == Before(c, s, x) && After(s', x) == After(s, x)
  {
    if a.Spawn? {
      HeldSpawn(s.workers, x);
    } else if a.Feed? {
      assert c.targets[s.fed..][1..] == c.targets[s.fed + 1..];
      TimesHead(c.targets[s.fed..], x);
      TimesAppend(s.jobs, c.targets[s.fed], x);
    } else {
      NamesTail(s.results);
      TimesHead(Names(s.results), x);
      NamesAppend(s.collected, s.results[0]);
      TimesAppend(Names(s.collected), s.results[0].ns, x);
    }
  }

  lemma PermutationMain<C>(c: Config<C>, s: Pool<C>, a: Action)
    requires s.fed <= |c.targets| && Permutation(c, s) && Enabled(c, s, a) && (a.Spawn? || a.Feed? || a.Collect?)
    ensures Permutation(c, Step(c, s, a)) && forall x :: After(Step(c, s, a), x) == After(s, x)
  {
    var s' := Step(c, s, a);
    forall x ensures Before(c, s', x) == Before(c, s, x) && After(s', x) == After(s, x) {
      MainMove(c, s, a, x);
    }
    if a.Spawn? {
      HeldSpawn(s.workers, "");
    }
  }

  predicate IsWorker(a: Action)
  {
    a.Take? || a.Fetch? || a.Write? || a.Send? || a.Exit?
  }

  predicate Writes<C>(s: Pool<C>, a: Action, x: string)
  {
    a.Write? && Busy(s, a.w) && s.workers[a.w].Fetched? && s.workers[a.w].ns == x
  }

  lemma WorkerMove<C>(c: Config<C>, s: Pool<C>, a: Action, x: string)
    requires s.fed <= |c.targets| && Enabled(c, s, a) && IsWorker(a)
    ensures After(Step(c, s, a), x) == After(s, x) + One(Writes(s, a, x))
    ensures Before(c, Step(c, s, a), x) + One(Writes(s, a, x)) == Before(c, s, x)
  {
    var s' := Step(c, s, a);
    HeldUpdate(s.workers, a.w, s'.workers[a.w], x);
    if a.Take? {
      TimesHead(s.jobs, x);
    } else if a.Send? {
      NamesAppend(s.results, s.workers[a.w].result);
      TimesAppend(Names(s.results), s.workers[a.w].result.ns, x);
    }
  }

  lemma PermutationWorker<C>(c: Config<C>, s: Pool<C>, a: Action)
    requires s.fed <= |c.targets| && Permutation(c, s) && Enabled(c, s, a) && IsWorker(a)
    ensures Permutation(c, Step(c, s, a))
    ensures forall x :: After(Step(c, s, a), x) == After(s, x) + One(Writes(s, a, x))
  {
    var s' := Step(c, s, a);
    forall x
      ensures After(s', x) == After(s, x) + One(Writes(s, a, x))
      ensures Before(c, s', x) + One(Writes(s, a, x)) == Before(c, s, x)
    {
      WorkerMove(c, s, a, x);
    }
    CountUpdate(s.workers, a.w, s'.workers[a.w]);
  }

  lemma ControlMain<C>(c: Config<C>, s: Pool<C>, a: Action)
    requires Control(c, s) && Enabled(c, s, a) && !IsWorker(a)
    ensures Control(c, Step(c, s, a))
  {
    if a.Spawn? {
      HeldSpawn(s.workers, "");
    }
  }

  lemma ControlWorker<C>(c: Config<C>, s: Pool<C>, a: Action)
    requires Control(c, s) && Enabled(c, s, a) && IsWorker(a)
    ensures Control(c, Step(c, s, a))
  {
    CountUpdate(s.workers, a.w, Step(c, s, a).workers[a.w]);
    HeldHas(s.workers, a.w, "");
  }

  lemma PayloadMain<C>(c: Config<C>, s: Pool<C>, a: Action)
    requires Fit(c) && Payload(c, s) && Enabled(c, s, a) && !IsWorker(a)
    ensures Payload(c, Step(c, s, a))
  {
    if a.Collect? {
      PayloadCollect(c, s, a);
    }
  }

  lemma PayloadCollect<C>(c: Config<C>, s: Pool<C>, a: Action)
    requires Payload(c, s) && Enabled(c, s, a) && a.Collect?
    ensures Payload(c, Step(c, s, a))
  {
    TallyAppend(s.collected, s.results[0]);
    assert Honest(c, s.results[0]);
  }

  lemma TallyAppend(rs: seq<Result>, r: Result)
    ensures Tally(rs + [r]) == Count(Tally(rs), r)
  {
    assert (rs + [r])[..|rs|] == rs;
  }

  /** The write of a target is its first: nobody else has touched its cell. */
  lemma CellUntouched<C>(c: Config<C>, s: Pool<C>, w: nat)
    requires Fit(c) && Inv(c, s) && Busy(s, w) && (s.workers[w].Holding? || s.workers[w].Fetched?)
    ensures var ns := s.workers[w].ns; ns in c.cells && ns in s.cells && s.cells[ns] == c.cells[ns] && After(s, ns) == 0
  {
    var ns := s.workers[w].ns;
    HeldHas(s.workers, w, ns);
    DistinctOnce(c.targets, ns);
    assert Before(c, s, ns) + After(s, ns) == Times(c.targets, ns);
    assert WorkerOk(c, s.workers[w]);
  }

  lemma PayloadWorker<C>(c: Config<C>, s: Pool<C>, a: Action)
    requires Payload(c, s) && Enabled(c, s, a) && IsWorker(a)
    requires a.Fetch? || a.Write? ==>
              s.workers[a.w].ns in c.cells && s.cells[s.workers[a.w].ns] == c.cells[s.workers[a.w].ns]
    ensures Payload(c, Step(c, s, a))
  {
    assert WorkerOk(c, s.workers[a.w]);
    assert WorkerOk(c, Step(c, s, a).workers[a.w]);
  }

  lemma CellsQuiet<C>(c: Config<C>, s: Pool<C>, s': Pool<C>)
    requires CellsOk(c, s) && s'.cells == s.cells && forall x :: After(s', x) == After(s, x)
    ensures CellsOk(c, s')
  {
  }

  lemma CellsWrite<C>(c: Config<C>, s: Pool<C>, a: Action)
    requires CellsOk(c, s) && Enabled(c, s, a) && a.Write?
    requires WorkerOk(c, s.workers[a.w]) && s.cells[s.workers[a.w].ns] == c.cells[s.workers[a.w].ns]
    requires forall x :: After(Step(c, s, a), x) == After(s, x) + One(Writes(s, a, x))
    ensures CellsOk(c, Step(c, s, a))
  {
  }

  lemma InvStep<C>(c: Config<C>, s: Pool<C>, a: Action)
    requires Fit(c) && Inv(c, s) && Enabled(c, s, a)
    ensures Inv(c, Step(c, s, a))
  {
    if IsWorker(a) {
      InvWorker(c, s, a);
    } else {
      ControlMain(c, s, a);
      PayloadMain(c, s, a);
      if a.Spawn? || a.Feed? || a.Collect? {
        PermutationMain(c, s, a);
      }
      CellsQuiet(c, s, Step(c, s, a));
    }
  }

  lemma InvWorker<C>(c: Config<C>, s: Pool<C>, a: Action)
    requires Fit(c) && Inv(c, s) && Enabled(c, s, a) && IsWorker(a)
    ensures Inv(c, Step(c, s, a))
  {
    if a.Fetch? || a.Write? {
      CellUntouched(c, s, a.w);
    }
    ControlWorker(c, s, a);
    PermutationWorker(c, s, a);
    PayloadWorker(c, s, a);
    CellsWorker(c, s, a);
  }

  lemma CellsWorker<C>(c: Config<C>, s: Pool<C>, a: Action)
    requires Fit(c) && Inv(c, s) && Enabled(c, s, a) && IsWorker(a)
    ensures CellsOk(c, Step(c, s, a))
  {
    if a.Write? {
      CellUntouched(c, s, a.w);
      assert WorkerOk(c, s.workers[a.w]);
      forall x ensures After(Step(c, s, a), x) == After(s, x) + One(Writes(s, a, x)) {
        WorkerMove(c, s, a, x);
      }
      CellsWrite(c, s, a);
    } else {
      CellsKept(c, s, a);
    }
  }

  lemma CellsKept<C>(c: Config<C>, s: Pool<C>, a: Action)
    requires s.fed <= |c.targets| && CellsOk(c, s) && Enabled(c, s, a) && IsWorker(a) && !a.Write?
    ensures CellsOk(c, Step(c, s, a))
  {
    forall x ensures After(Step(c, s, a), x) == After(s, x) {
      WorkerMove(c, s, a, x);
    }
    CellsQuiet(c, s, Step(c, s, a));
  }

  // ----- Safety of the channels -----

  /** No send blocks and no send meets a closed channel: whoever has something to send can send it. */
  lemma SendsNeverBlock<C>(c: Config<C>, s: Pool<C>)
    requires Inv(c, s)
    ensures |s.workers| == Concurrency(c.limit, |c.targets|) && s.fed < |c.targets| ==>
              Enabled(c, s, Feed) && !s.jobsClosed
    ensures forall w: nat :: w < |s.workers| && s.workers[w].Finished? ==> Enabled(c, s, Send(w))
  {
    forall w: nat | w < |s.workers| && s.workers[w].Finished? ensures Enabled(c, s, Send(w)) {
      HeldHas(s.workers, w, s.workers[w].result.ns);
    }
  }

  /** In-flight writes never exceed the configured concurrency. */
  lemma InFlightBounded<C>(c: Config<C>, s: Pool<C>)
    requires Inv(c, s)
    ensures Flying(s.workers) <= Concurrency(c.limit, |c.targets|) <= |c.targets|
    ensures c.limit > 0 ==> Flying(s.workers) <= c.limit
    ensures c.limit <= 0 ==> Flying(s.workers) <= 16
  {
    FlyingBound(s.workers);
  }

  /** The pool can be in state `s` after these steps. */
  ghost predicate Reaches<C(!new)>(c: Config<C>, acts: seq<Action>, s: Pool<C>)
  {
    if acts == [] then s == Init(c)
    else
      var n := |acts| - 1;
      exists t :: Reaches(c, acts[..n], t) && Enabled(c, t, acts[n]) && s == Step(c, t, acts[n])
  }

  lemma OneMore<C(!new)>(c: Config<C>, acts: seq<Action>, t: Pool<C>, a: Action)
    requires Reaches(c, acts, t) && Enabled(c, t, a)
    ensures Reaches(c, acts + [a], Step(c, t, a))
  {
    assert (acts + [a])[..|acts|] == acts;
  }

  /** `spawned` workers, of which the first `taken` hold a target, and the next targets up to `fed` buffered. */
  function Filling<C>(c: Config<C>, spawned: nat, fed: nat, taken: nat): Pool<C>
    requires taken <= fed <= |c.targets|
  {
    var workers := seq(spawned, i requires 0 <= i < spawned => if i < taken then Holding(c.targets[i]) else Waiting);
    Init(c).(workers := workers, wg := spawned, fed := fed, jobs := c.targets[taken..fed])
  }

  lemma Spawning<C>(c: Config<C>, n: nat)
    requires n < Concurrency(c.limit, |c.targets|)
    ensures Enabled(c, Filling(c, n, 0, 0), Spawn)
    ensures Step(c, Filling(c, n, 0, 0), Spawn) == Filling(c, n + 1, 0, 0)
  {
  }

  lemma Feeding<C>(c: Config<C>, n: nat)
    requires n < |c.targets|
    ensures var k := Concurrency(c.limit, |c.targets|);
            Enabled(c, Filling(c, k, n, 0), Feed) && Step(c, Filling(c, k, n, 0), Feed) == Filling(c, k, n + 1, 0)
  {
    assert c.targets[..n + 1] == c.targets[..n] + [c.targets[n]];
  }

  lemma Taking<C>(c: Config<C>, k: nat, fed: nat, n: nat)
    requires n < fed <= |c.targets| && n < k
    ensures Enabled(c, Filling(c, k, fed, n), Take(n))
    ensures Step(c, Filling(c, k, fed, n), Take(n)) == Filling(c, k, fed, n + 1)
  {
    assert c.targets[n..fed][0] == c.targets[n] && c.targets[n..fed][1..] == c.targets[n + 1..fed];
  }

  lemma {:induction false} SpawnAll<C(!new)>(c: Config<C>, n: nat) returns (acts: seq<Action>)
    requires n <= Concurrency(c.limit, |c.targets|)
    ensures Reaches(c, acts, Filling(c, n, 0, 0))
  {
    acts := [];
    if n > 0 {
      acts := SpawnAll(c, n - 1);
      Spawning(c, n - 1);
      OneMore(c, acts, Filling(c, n - 1, 0, 0), Spawn);
      acts := acts + [Spawn];
    }
  }

  lemma {:induction false} FeedAll<C(!new)>(c: Config<C>, n: nat) returns (acts: seq<Action>)
    requires n <= |c.targets|
    ensures Reaches(c, acts, Filling(c, Concurrency(c.limit, |c.targets|), n, 0))
  {
    var k := Concurrency(c.limit, |c.targets|);
    if n == 0 {
      acts := SpawnAll(c, k);
    } else {
      acts := FeedAll(c, n - 1);
      Feeding(c, n - 1);
      OneMore(c, acts, Filling(c, k, n - 1, 0), Feed);
      acts := acts + [Feed];
    }
  }

  lemma {:induction false} TakeAll<C(!new)>(c: Config<C>, n: nat) returns (acts: seq<Action>)
    requires n <= Concurrency(c.limit, |c.targets|)
    ensures Reaches(c, acts, Filling(c, Concurrency(c.limit, |c.targets|), |c.targets|, n))
  {
    var k := Concurrency(c.limit, |c.targets|);
    if n == 0 {
      acts := FeedAll(c, |c.targets|);
    } else {
      acts := TakeAll(c, n - 1);
      Taking(c, k, |c.targets|, n - 1);
      OneMore(c, acts, Filling(c, k, |c.targets|, n - 1), Take(n - 1));
      acts := acts + [Take(n - 1)];
    }
  }

  lemma {:induction false} AllFlying<C>(ws: seq<Worker<C>>)
    requires forall i :: 0 <= i < |ws| ==> InFlight(ws[i])
    ensures Flying(ws) == |ws|
  {
    if ws != [] {
      AllFlying(ws[..|ws| - 1]);
    }
  }

  /** The bound is reached: some schedule has as many writes in flight as the limit and the targets allow. */
  lemma FullyConcurrent<C(!new)>(c: Config<C>) returns (acts: seq<Action>, s: Pool<C>)
    ensures Reaches(c, acts, s)
    ensures var limit := if c.limit <= 0 then 16 else c.limit;
            Flying(s.workers) == if |c.targets| < limit then |c.targets| else limit
  {
    var k := Concurrency(c.limit, |c.targets|);
    acts := TakeAll(c, k);
    s := Filling(c, k, |c.targets|, k);
    AllFlying(s.workers);
  }

  // ----- Termination -----

  function Weight<C>(w: Worker<C>): nat
  {
    match w
    case Waiting => 1
    case Holding(_) => 5
    case Fetched(_, _) => 4
    case Finished(_) => 3
    case Exited => 0
  }

  function Weights<C>(ws: seq<Worker<C>>): nat
  {
    if ws == [] then 0 else Weights(ws[..|ws| - 1]) + Weight(ws[|ws| - 1])
  }

  function Measure<C>(c: Config<C>, s: Pool<C>): int
  {
    2 * (Concurrency(c.limit, |c.targets|) - |s.workers|) + Weights(s.workers) + 6 * (|c.targets| - s.fed) +
    5 * |s.jobs| + |s.results| + One(!s.jobsClosed) + One(!s.resultsClosed) + One(!s.done)
  }

  lemma {:induction false} WeightUpdate<C>(ws: seq<Worker<C>>, i: nat, w: Worker<C>)
    requires i < |ws|
    ensures Weights(ws[i := w]) + Weight(ws[i]) == Weights(ws) + Weight(w)
  {
    var n := |ws| - 1;
    if i == n {
      assert ws[i := w][..n] == ws[..n];
    } else {
      assert ws[i := w][..n] == ws[..n][i := w];
      WeightUpdate(ws[..n], i, w);
    }
  }

  lemma WorkerDecreases<C>(c: Config<C>, s: Pool<C>, a: Action)
    requires Enabled(c, s, a) && IsWorker(a)
    ensures Measure(c, Step(c, s, a)) < Measure(c, s)
  {
    WeightUpdate(s.workers, a.w, Step(c, s, a).workers[a.w]);
  }

  /** Every step of every schedule makes the measure smaller. */
  lemma StepDecreases<C>(c: Config<C>, s: Pool<C>, a: Action)
    requires Enabled(c, s, a)
    ensures Measure(c, Step(c, s, a)) < Measure(c, s)
  {
    if a.Spawn? {
      assert (s.workers + [Waiting])[..|s.workers|] == s.workers;
    } else if IsWorker(a) {
      WorkerDecreases(c, s, a);
    }
  }

  lemma MeasureBounded<C>(c: Config<C>, s: Pool<C>)
    requires Control(c, s)
    ensures Measure(c, s) >= 0
  {
  }

  lemma {:induction false} SomeoneRuns<C>(ws: seq<Worker<C>>) returns (w: nat)
    requires Running(ws) > 0
    ensures w < |ws| && !ws[w].Exited?
  {
    if ws[|ws| - 1].Exited? {
      w := SomeoneRuns(ws[..|ws| - 1]);
    } else {
      w := |ws| - 1;
    }
  }

  lemma WorkerCanMove<C>(c: Config<C>, s: Pool<C>, w: nat) returns (a: Action)
    requires Inv(c, s) && w < |s.workers| && !s.workers[w].Exited? && s.jobsClosed
    ensures Enabled(c, s, a)
  {
    assert WorkerOk(c, s.workers[w]);
    HeldHas(s.workers, w, "");
    match s.workers[w] {
      case Waiting => a := if s.jobs == [] then Exit(w) else Take(w);
      case Holding(_) => a := Fetch(w);
      case Fetched(_, _) => a := Write(w);
      case Finished(_) => a := Send(w); SendsNeverBlock(c, s);
    }
  }

  /** The pool never gets stuck before the collector is done. */
  lemma NoDeadlock<C>(c: Config<C>, s: Pool<C>) returns (a: Action)
    requires Inv(c, s) && !s.done
    ensures Enabled(c, s, a)
  {
    if |s.workers| < Concurrency(c.limit, |c.targets|) {
      a := Spawn;
    } else if s.fed < |c.targets| {
      SendsNeverBlock(c, s);
      a := Feed;
    } else if !s.jobsClosed {
      a := CloseJobs;
    } else if s.results != [] {
      a := Collect;
    } else if s.resultsClosed {
      a := Finish;
    } else if s.wg == 0 {
      a := CloseResults;
    } else {
      var w := SomeoneRuns(s.workers);
      a := WorkerCanMove(c, s, w);
    }
  }

  // ----- The pool computes what the loop computes -----

  /** The failures of a set of targets, each with the outcome it has on its own. */
  ghost function FailuresOf<C>(c: Config<C>, names: set<string>): map<string, string>
    requires forall x | x in names :: x in c.cells
  {
    map x | x in names && EffectOf(c, x).1.reason != "" :: EffectOf(c, x).1.reason + ": " + EffectOf(c, x).1.msg
  }

  lemma FailuresGrow<C>(c: Config<C>, names: set<string>, r: Result)
    requires (forall x | x in names :: x in c.cells) && Honest(c, r) && r.ns !in names
    ensures var f, g := FailuresOf(c, names), FailuresOf(c, names + {r.ns});
            if r.outcome.reason == "" then g == f
            else g == f[r.ns := r.outcome.reason + ": " + r.outcome.msg] && |g| == |f| + 1
  {
    var f, g := FailuresOf(c, names), FailuresOf(c, names + {r.ns});
    if r.outcome.reason != "" {
      assert g == f[r.ns := r.outcome.reason + ": " + r.outcome.msg];
      assert g.Keys == f.Keys + {r.ns};
    }
  }

  /** The rollup of these results, said without their order. */
  ghost predicate Tallied<C>(c: Config<C>, rs: seq<Result>)
  {
    && (forall x | x in SetOf(Names(rs)) :: x in c.cells)
    && var f := FailuresOf(c, SetOf(Names(rs)));
       |f| <= |rs| && Tally(rs) == Rollup(|rs| - |f|, |f|, f)
  }

  /** The rollup depends only on which targets were counted, not on the order they came in. */
  lemma {:induction false} TallyIsOrderFree<C>(c: Config<C>, rs: seq<Result>)
    requires Distinct(Names(rs)) && forall i :: 0 <= i < |rs| ==> Honest(c, rs[i])
    ensures Tallied(c, rs)
  {
    if rs != [] {
      var n := |rs| - 1;
      var prev := rs[..n];
      assert Names(rs) == Names(prev) + [rs[n].ns] && rs == prev + [rs[n]];
      assert Names(rs)[n] !in Names(rs)[..n];
      TallyIsOrderFree(c, prev);
      TallyOne(c, prev, rs[n]);
    }
  }

  lemma TallyOne<C>(c: Config<C>, prev: seq<Result>, r: Result)
    requires Tallied(c, prev) && Honest(c, r) && r.ns !in SetOf(Names(prev))
    ensures Tallied(c, prev + [r])
  {
    NamesAppend(prev, r);
    SetOfAppend(Names(prev), r.ns);
    FailuresGrow(c, SetOf(Names(prev)), r);
    CountOne(|prev|, FailuresOf(c, SetOf(Names(prev))), FailuresOf(c, SetOf(Names(prev)) + {r.ns}), r);
    TallyAppend(prev, r);
  }

  lemma CountOne(n: nat, f: map<string, string>, g: map<string, string>, r: Result)
    requires |f| <= n
    requires if r.outcome.reason == "" then g == f
             else g == f[r.ns := r.outcome.reason + ": " + r.outcome.msg] && |g| == |f| + 1
    ensures |g| <= n + 1 && Count(Rollup(n - |f|, |f|, f), r) == Rollup(n + 1 - |g|, |g|, g)
  {
  }

  /** The results of the targets in order, each on its own. */
  function InOrder<C>(c: Config<C>, targets: seq<string>): (rs: seq<Result>)
    requires forall i :: 0 <= i < |targets| ==> targets[i] in c.cells
    ensures |rs| == |targets| && forall i :: 0 <= i < |rs| ==> rs[i] == Result(targets[i], EffectOf(c, targets[i]).1)
  {
    seq(|targets|, i requires 0 <= i < |targets| => Result(targets[i], EffectOf(c, targets[i]).1))
  }

  lemma {:induction false} LoopMeaning<C>(c: Config<C>, targets: seq<string>)
    requires Distinct(targets) && forall i :: 0 <= i < |targets| ==> targets[i] in c.cells
    ensures var (cells, r) := Loop(targets, c.cells, c.write);
            && r == Tally(InOrder(c, targets))
            && forall x | x in c.cells :: cells[x] == if x in targets then EffectOf(c, x).0 else c.cells[x]
  {
    if targets != [] {
      var n := |targets| - 1;
      LoopMeaning(c, targets[..n]);
      assert targets[n] !in targets[..n];
      assert InOrder(c, targets)[..n] == InOrder(c, targets[..n]);
      assert forall x :: x in targets <==> x in targets[..n] || x == targets[n];
    }
  }

  /** When the collector is done, nothing is pending, queued or in flight. */
  lemma AllCollected<C>(c: Config<C>, s: Pool<C>)
    requires Inv(c, s) && s.done
    ensures |s.collected| == |c.targets|
    ensures forall x :: After(s, x) == Times(Names(s.collected), x) == Times(c.targets, x)
  {
    FlyingBound(s.workers);
    if |s.workers| > 0 {
      assert s.workers[0].Exited?;
    }
    AllExited(s.workers);
    forall x ensures After(s, x) == Times(Names(s.collected), x) == Times(c.targets, x) {
      ExitedHoldNothing(s.workers, x);
      assert Before(c, s, x) + After(s, x) == Times(c.targets, x);
    }
  }

  lemma {:induction false} AllExited<C>(ws: seq<Worker<C>>)
    requires forall i :: 0 <= i < |ws| ==> ws[i].Exited?
    ensures Flying(ws) == 0
  {
    if ws != [] {
      AllExited(ws[..|ws| - 1]);
    }
  }

  lemma {:induction false} ExitedHoldNothing<C>(ws: seq<Worker<C>>, x: string)
    requires forall i :: 0 <= i < |ws| ==> ws[i].Exited?
    ensures HeldBefore(ws, x) == 0 && HeldAfter(ws, x) == 0
  {
    if ws != [] {
      ExitedHoldNothing(ws[..|ws| - 1], x);
    }
  }

  lemma RollupRefines<C>(c: Config<C>, rs: seq<Result>)
    requires Fit(c) && |rs| == |c.targets|
    requires forall i :: 0 <= i < |rs| ==> Honest(c, rs[i])
    requires forall x :: Times(Names(rs), x) == Times(c.targets, x)
    ensures Tally(rs) == Tally(InOrder(c, c.targets))
    ensures Tally(rs).failed == |Tally(rs).failures| && Tally(rs).failures.Keys <= SetOf(c.targets)
  {
    forall x ensures Times(c.targets, x) <= 1 {
      DistinctOnce(c.targets, x);
    }
    OnceDistinct(Names(rs));
    var ordered := InOrder(c, c.targets);
    assert Names(ordered) == c.targets;
    forall x ensures x in Names(rs) <==> x in c.targets {
      assert Times(Names(rs), x) == Times(c.targets, x);
    }
    assert SetOf(Names(rs)) == SetOf(c.targets);
    TallyIsOrderFree(c, rs);
    TallyIsOrderFree(c, ordered);
  }

  lemma {:induction false} TallyTotal(rs: seq<Result>)
    ensures Tally(rs).written + Tally(rs).failed == |rs|
  {
    if rs != [] {
      TallyTotal(rs[..|rs| - 1]);
    }
  }

  lemma CellsRefine<C>(c: Config<C>, s: Pool<C>)
    requires Fit(c) && CellsOk(c, s) && forall x :: After(s, x) == Times(c.targets, x)
    ensures s.cells == Loop(c.targets, c.cells, c.write).0
  {
    LoopMeaning(c, c.targets);
    var cells := Loop(c.targets, c.cells, c.write).0;
    forall x | x in c.cells ensures s.cells[x] == cells[x] {
      assert After(s, x) > 0 <==> x in c.targets;
    }
  }

  /** Schedule independence: however the workers were interleaved and however many there were, a finished pool
      has the store, the counts and the failure map of the plain loop. */
  lemma PoolRefinesLoop<C>(c: Config<C>, s: Pool<C>)
    requires Fit(c) && Inv(c, s) && s.done
    ensures (s.cells, s.rollup) == Loop(c.targets, c.cells, c.write)
    ensures s.rollup.written + s.rollup.failed == |c.targets|
    ensures s.rollup.failed == |s.rollup.failures| && s.rollup.failures.Keys <= SetOf(c.targets)
  {
    AllCollected(c, s);
    CellsRefine(c, s);
    RollupRefines(c, s.collected);
    LoopMeaning(c, c.targets);
    TallyTotal(s.collected);
  }

  function Candidates(workers: nat): set<Action>
  {
    {Spawn, Feed, CloseJobs, CloseResults, Collect, Finish} +
    (set w | 0 <= w < workers :: Take(w)) + (set w | 0 <= w < workers :: Fetch(w)) +
    (set w | 0 <= w < workers :: Write(w)) + (set w | 0 <= w < workers :: Send(w)) +
    (set w | 0 <= w < workers :: Exit(w))
  }

  lemma Progress<C>(c: Config<C>, s: Pool<C>)
    requires Inv(c, s) && !s.done
    ensures exists a :: a in Candidates(|s.workers|) && Enabled(c, s, a)
  {
    var a := NoDeadlock(c, s);
    Named(|s.workers|, a);
  }

  lemma Named(workers: nat, a: Action)
    requires IsWorker(a) ==> a.w < workers
    ensures a in Candidates(workers)
  {
  }

  lemma Advance<C>(c: Config<C>, s: Pool<C>, a: Action)
    requires Fit(c) && Inv(c, s) && Enabled(c, s, a)
    ensures Inv(c, Step(c, s, a)) && 0 <= Measure(c, Step(c, s, a)) < Measure(c, s)
  {
    InvStep(c, s, a);
    StepDecreases(c, s, a);
    MeasureBounded(c, Step(c, s, a));
  }

  /** One target in the result: its cell is what its own write leaves, and a failure is recorded with its reason and
      message. */
  lemma LoopOutcomes<C>(c: Config<C>, x: string)
    requires Fit(c) && x in c.targets
    ensures var (cells, r) := Loop(c.targets, c.cells, c.write);
            var (cell, outcome) := c.write(x, c.cells[x], c.cells[x]);
            && x in cells && cells[x] == cell
            && (x in r.failures <==> outcome.reason != "")
            && (x in r.failures ==> r.failures[x] == outcome.reason + ": " + outcome.msg)
  {
    LoopMeaning(c, c.targets);
    var ordered := InOrder(c, c.targets);
    assert Names(ordered) == c.targets;
    TallyIsOrderFree(c, ordered);
  }

  lemma AllOutcomes<C>(c: Config<C>)
    requires Fit(c)
    ensures var (cells, r) := Loop(c.targets, c.cells, c.write);
            && (forall x | x in c.targets ::
                  && x in cells && cells[x] == c.write(x, c.cells[x], c.cells[x]).0
                  && (x in r.failures <==> c.write(x, c.cells[x], c.cells[x]).1.reason != "")
                  && (x in r.failures ==>
                        r.failures[x] == c.write(x, c.cells[x], c.cells[x]).1.reason + ": " +
                                         c.write(x, c.cells[x], c.cells[x]).1.msg))
            && (forall x | x in c.cells && x !in c.targets :: x in cells && cells[x] == c.cells[x])
  {
    LoopMeaning(c, c.targets);
    forall x | x in c.targets
      ensures var (cells, r) := Loop(c.targets, c.cells, c.write);
              && x in cells && cells[x] == c.write(x, c.cells[x], c.cells[x]).0
              && (x in r.failures <==> c.write(x, c.cells[x], c.cells[x]).1.reason != "")
              && (x in r.failures ==>
                    r.failures[x] == c.write(x, c.cells[x], c.cells[x]).1.reason + ": " +
                                     c.write(x, c.cells[x], c.cells[x]).1.msg)
    {
      LoopOutcomes(c, x);
    }
  }

  /** fanOut under an arbitrary scheduler: as long as it is not finished, any enabled step may be taken. It always
      ends, and always with the result of the plain loop. */
  method RunPool<C>(c: Config<C>) returns (cells: map<string, C>, rollup: Rollup)
    requires Fit(c)
    ensures (cells, rollup) == Loop(c.targets, c.cells, c.write)
    ensures rollup.written + rollup.failed == |c.targets|
    ensures rollup.failed == |rollup.failures| && rollup.failures.Keys <= SetOf(c.targets)
    ensures forall x | x in c.targets ::
              && x in cells && cells[x] == c.write(x, c.cells[x], c.cells[x]).0
              && (x in rollup.failures <==> c.write(x, c.cells[x], c.cells[x]).1.reason != "")
              && (x in rollup.failures ==>
                    rollup.failures[x] == c.write(x, c.cells[x], c.cells[x]).1.reason + ": " +
                                          c.write(x, c.cells[x], c.cells[x]).1.msg)
    ensures forall x | x in c.cells && x !in c.targets :: x in cells && cells[x] == c.cells[x]
  {
    AllOutcomes(c);
    var s := Init(c);
    InvInit(c);
    while !s.done
      invariant Inv(c, s)
      decreases Measure(c, s)
    {
      Progress(c, s);
      var a :| a in Candidates(|s.workers|) && Enabled(c, s, a);
      Advance(c, s, a);
      s := Step(c, s, a);
    }
    PoolRefinesLoop(c, s);
    return s.cells, s.rollup;
  }
}
