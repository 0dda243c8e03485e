/**
 * `ListActivity`: the floating "clear" button updates the remembered set of
 * checked packages and starts `startCleanCache`, the sequencer that opens
 * each target's details screen in turn and waits on a gate between targets.
 *
 * Inside this class the unqualified `cleanCacheInterrupt`,
 * `cleanCacheFinished`, `cleanAppCacheFinished` and `waitAccessibility` are
 * `ListActivity`'s OWN companion members, not `MainActivity`'s: the
 * sequencer works on a different `SharedFlags` object from the one the
 * accessibility service writes. What other parties do to the sequencer's
 * object during a wait is an oracle (`Interference`); time is an abstract
 * millisecond count.
 */
module ListActivity {
  import opened Wrappers
  import opened Coordination
  import opened PlaceholderContent
  import CleanerService

  /** `Build.VERSION_CODES.P`. */
  const SDK_P := 28
  /** The two `delay(500L)` calls around the wait, and the `block(5000L)` timeout. */
  const SETTLE_MS: nat := 500
  const WAIT_TIMEOUT_MS: nat := 5000
  /** The most one target can hold up the sequence. */
  const ITERATION_BOUND_MS: nat := SETTLE_MS + WAIT_TIMEOUT_MS + SETTLE_MS

  /** `ITEMS.filter { it.checked }.map { it.name }`: the names of the checked items, in `ITEMS` order. */
  function CheckedNames(items: seq<PlaceholderPackage>): seq<string>
    decreases |items|
  {
    if items == [] then []
    else
      var last := items[|items| - 1];
      CheckedNames(items[..|items| - 1]) + (if last.checked then [last.name] else [])
  }

  /** `ITEMS.filter { !it.checked }.map { it.name }`. */
  function UncheckedNames(items: seq<PlaceholderPackage>): seq<string>
    decreases |items|
  {
    if items == [] then []
    else
      var last := items[|items| - 1];
      UncheckedNames(items[..|items| - 1]) + (if !last.checked then [last.name] else [])
  }

  predicate SomeItemNamed(items: seq<PlaceholderPackage>, n: string, checked: bool) {
    exists k :: 0 <= k < |items| && items[k].name == n && items[k].checked == checked
  }

  lemma {:induction false} NamesMembership(items: seq<PlaceholderPackage>, n: string)
    ensures n in CheckedNames(items) <==> SomeItemNamed(items, n, true)
    ensures n in UncheckedNames(items) <==> SomeItemNamed(items, n, false)
    decreases |items|
  {
    if items != [] {
      var front := items[..|items| - 1];
      NamesMembership(front, n);
      if SomeItemNamed(items, n, true) {
        var k :| 0 <= k < |items| && items[k].name == n && items[k].checked;
        if k < |front| { assert front[k] == items[k]; }
      }
      if SomeItemNamed(items, n, false) {
        var k :| 0 <= k < |items| && items[k].name == n && !items[k].checked;
        if k < |front| { assert front[k] == items[k]; }
      }
      if SomeItemNamed(front, n, true) {
        var k :| 0 <= k < |front| && front[k].name == n && front[k].checked;
        assert items[k] == front[k];
      }
      if SomeItemNamed(front, n, false) {
        var k :| 0 <= k < |front| && front[k].name == n && !front[k].checked;
        assert items[k] == front[k];
      }
    }
  }

  function Elements(s: seq<string>): set<string> {
    set n | n in s
  }

  /** The remembered set after the handler: checked names added first, then unchecked names removed. */
  function CheckedSetAfterFab(before: set<string>, items: seq<PlaceholderPackage>): set<string> {
    (before + Elements(CheckedNames(items))) - Elements(UncheckedNames(items))
  }

  /**
   * After the handler the set holds every name of a checked item unless an
   * unchecked item has the same name (removal runs second and wins), holds
   * no name of an unchecked item, and is unchanged for names not in `ITEMS`.
   */
  lemma CheckedSetAfterFabMeaning(before: set<string>, items: seq<PlaceholderPackage>, n: string)
    ensures SomeItemNamed(items, n, true) && !SomeItemNamed(items, n, false) ==>
      n in CheckedSetAfterFab(before, items)
    ensures SomeItemNamed(items, n, false) ==> n !in CheckedSetAfterFab(before, items)
    ensures !SomeItemNamed(items, n, true) && !SomeItemNamed(items, n, false) ==>
      (n in CheckedSetAfterFab(before, items) <==> n in before)
  {
    NamesMembership(items, n);
  }

  /** The sequencer's record of one target: the name, whether the launch went through, and how long the gate wait took. */
  datatype Visit = Visit(pkg: string, launched: bool, waited: nat)

  /** What other parties do to the sequencer's flags during one target's wait. */
  datatype Interference = Interference(openAfter: Option<nat>, interrupt: bool)

  /** A step the sequencer takes, in the order it takes them. */
  datatype Op =
    | SetInterrupt(value: bool)
    | SetFinished(value: bool)
    | Navigate(pkg: string, launched: bool)
    | SetStepDone(value: bool)
    | Sleep(ms: nat)
    | Wait(ms: nat)

  datatype Summary = Interrupted | Finished

  datatype Progress = Progress(flags: Flags, visits: seq<Visit>)

  /** One iteration of the loop: navigate, clear the step flag, settle, wait on the gate, settle. */
  function Iterate(pkg: string, launched: bool, e: Interference, p: Progress): Progress {
    var f := p.flags.(cleanAppCacheFinished := false);
    var b := BlockOutcome(f.gateOpen, WAIT_TIMEOUT_MS, e.openAfter);
    Progress(
      f.(gateOpen := f.gateOpen || b.signaled, cleanCacheInterrupt := f.cleanCacheInterrupt || e.interrupt),
      p.visits + [Visit(pkg, launched, b.waited)])
  }

  /** The loop from index `i` on: stop after the iteration that reads the interrupt flag true. */
  function Loop(pkgs: seq<string>, env: nat -> Interference, launchable: string -> bool, i: nat, p: Progress): Progress
    requires i <= |pkgs|
    decreases |pkgs| - i
  {
    if i == |pkgs| then p
    else
      var q := Iterate(pkgs[i], launchable(pkgs[i]), env(i), p);
      if q.flags.cleanCacheInterrupt then q else Loop(pkgs, env, launchable, i + 1, q)
  }

  /** One unfolding of `Loop`, for the imperative loop's invariant. */
  lemma LoopStep(pkgs: seq<string>, env: nat -> Interference, launchable: string -> bool, i: nat, p: Progress)
    requires i < |pkgs|
    ensures var q := Iterate(pkgs[i], launchable(pkgs[i]), env(i), p);
      Loop(pkgs, env, launchable, i, p) == if q.flags.cleanCacheInterrupt then q else Loop(pkgs, env, launchable, i + 1, q)
  {
  }

  datatype RunResult = RunResult(flags: Flags, visits: seq<Visit>, summary: Summary, relaunched: bool)

  /** A whole `startCleanCache` run from flags `f0`. */
  function Run(f0: Flags, pkgs: seq<string>, env: nat -> Interference, launchable: string -> bool, sdk: int): RunResult {
    var start := Progress(f0.(cleanCacheInterrupt := false, cleanCacheFinished := false), []);
    var end := Loop(pkgs, env, launchable, 0, start);
    var f := end.flags.(cleanCacheFinished := true);
    RunResult(f, end.visits, if f.cleanCacheInterrupt then Interrupted else Finished, |pkgs| > 0 && sdk < SDK_P)
  }

  /** The steps of one iteration. */
  function IterationOps(v: Visit): seq<Op> {
    [Navigate(v.pkg, v.launched), SetStepDone(false), Sleep(SETTLE_MS), Wait(v.waited), Sleep(SETTLE_MS)]
  }

  function Ops(visits: seq<Visit>): seq<Op>
    decreases |visits|
  {
    if visits == [] then [] else Ops(visits[..|visits| - 1]) + IterationOps(visits[|visits| - 1])
  }

  lemma OpsAppend(visits: seq<Visit>, v: Visit)
    ensures Ops(visits + [v]) == Ops(visits) + IterationOps(v)
  {
    assert (visits + [v])[..|visits|] == visits;
  }

  /** All steps of a run that made `visits`. */
  function Trace(visits: seq<Visit>): seq<Op> {
    [SetInterrupt(false), SetFinished(false)] + Ops(visits) + [SetFinished(true)]
  }

  function OpMs(op: Op): nat {
    match op
    case Sleep(ms) => ms
    case Wait(ms) => ms
    case _ => 0
  }

  /** The milliseconds a sequence of steps spends sleeping and waiting. */
  function Elapsed(ops: seq<Op>): nat
    decreases |ops|
  {
    if ops == [] then 0 else Elapsed(ops[..|ops| - 1]) + OpMs(ops[|ops| - 1])
  }

  /** The first index from `i` on whose wait brings an interrupt, or `n` when none before `n` does. */
  function StopIndex(env: nat -> Interference, i: nat, n: nat): (k: nat)
    ensures i <= n ==> i <= k <= n
    ensures i <= n ==> (k < n ==> env(k).interrupt) && forall j :: i <= j < k ==> !env(j).interrupt
    decreases n - i
  {
    if i >= n then n
    else if env(i).interrupt then i
    else StopIndex(env, i + 1, n)
  }

  /**
   * From index `i` on, the loop visits `pkgs[i]`, `pkgs[i + 1]`, ... in
   * order, each once, up to and including the first target whose wait brings
   * an interrupt; it ends interrupted exactly when such a target exists.
   */
  lemma {:induction false} LoopVisitsInOrder(
    pkgs: seq<string>, env: nat -> Interference, launchable: string -> bool, i: nat, p: Progress)
    requires i <= |pkgs| && |p.visits| == i && !p.flags.cleanCacheInterrupt
    ensures var q := Loop(pkgs, env, launchable, i, p);
      var stop := StopIndex(env, i, |pkgs|);
      && |q.visits| == (if stop < |pkgs| then stop + 1 else |pkgs|)
      && q.visits[..i] == p.visits
      && (forall k :: i <= k < |q.visits| ==> q.visits[k].pkg == pkgs[k] && q.visits[k].launched == launchable(pkgs[k]))
      && (q.flags.cleanCacheInterrupt <==> stop < |pkgs|)
      && (i < |pkgs| ==> !q.flags.cleanAppCacheFinished)
      && (i == |pkgs| ==> q == p)
    decreases |pkgs| - i
  {
    if i < |pkgs| {
      var q1 := Iterate(pkgs[i], launchable(pkgs[i]), env(i), p);
      assert q1.visits[..i] == p.visits;
      if !q1.flags.cleanCacheInterrupt {
        LoopVisitsInOrder(pkgs, env, launchable, i + 1, q1);
        var q := Loop(pkgs, env, launchable, i + 1, q1);
        assert q.visits[..i] == q.visits[..i + 1][..i];
      }
    }
  }

  /**
   * Every wait of the loop lasts at most the timeout; once the gate is open
   * it stays open (nothing closes it) and every later wait takes no time.
   */
  lemma {:induction false} LoopWaitsAreBounded(
    pkgs: seq<string>, env: nat -> Interference, launchable: string -> bool, i: nat, p: Progress)
    requires i <= |pkgs|
    ensures var q := Loop(pkgs, env, launchable, i, p);
      && |p.visits| <= |q.visits|
      && q.visits[..|p.visits|] == p.visits
      && (forall k :: |p.visits| <= k < |q.visits| ==> q.visits[k].waited <= WAIT_TIMEOUT_MS)
      && (p.flags.gateOpen ==> q.flags.gateOpen && forall k :: |p.visits| <= k < |q.visits| ==> q.visits[k].waited == 0)
    decreases |pkgs| - i
  {
    if i < |pkgs| {
      var q1 := Iterate(pkgs[i], launchable(pkgs[i]), env(i), p);
      if !q1.flags.cleanCacheInterrupt {
        LoopWaitsAreBounded(pkgs, env, launchable, i + 1, q1);
        var q := Loop(pkgs, env, launchable, i + 1, q1);
        assert q.visits[..|p.visits|] == q.visits[..|q1.visits|][..|p.visits|];
        assert q.visits[|p.visits|] == q1.visits[|p.visits|];
      }
    }
  }

  /**
   * When nobody else touches the sequencer's flags and its gate starts
   * closed, every target is visited and every wait runs to the full timeout.
   */
  lemma {:induction false} QuietLoopWaitsInFull(
    pkgs: seq<string>, env: nat -> Interference, launchable: string -> bool, i: nat, p: Progress)
    requires i <= |pkgs| && |p.visits| == i
    requires !p.flags.gateOpen && !p.flags.cleanCacheInterrupt
    requires forall j :: env(j) == Interference(None, false)
    ensures var q := Loop(pkgs, env, launchable, i, p);
      && |q.visits| == |pkgs| && !q.flags.gateOpen && !q.flags.cleanCacheInterrupt
      && forall k :: i <= k < |pkgs| ==> q.visits[k].waited == WAIT_TIMEOUT_MS
    decreases |pkgs| - i
  {
    if i < |pkgs| {
      var q1 := Iterate(pkgs[i], launchable(pkgs[i]), env(i), p);
      assert env(i) == Interference(None, false);
      QuietLoopWaitsInFull(pkgs, env, launchable, i + 1, q1);
      var q := Loop(pkgs, env, launchable, i + 1, q1);
      LoopWaitsAreBounded(pkgs, env, launchable, i + 1, q1);
      assert q.visits[i] == q.visits[..i + 1][i] == q1.visits[i];
    }
  }

  lemma {:induction false} ElapsedAppend(a: seq<Op>, b: seq<Op>)
    ensures Elapsed(a + b) == Elapsed(a) + Elapsed(b)
    decreases |b|
  {
    if b != [] {
      assert (a + b)[..|a + b| - 1] == a + b[..|b| - 1];
      ElapsedAppend(a, b[..|b| - 1]);
    } else {
      assert a + b == a;
    }
  }

  function TotalWaited(visits: seq<Visit>): nat
    decreases |visits|
  {
    if visits == [] then 0 else TotalWaited(visits[..|visits| - 1]) + visits[|visits| - 1].waited
  }

  lemma IterationElapsed(v: Visit)
    ensures Elapsed(IterationOps(v)) == 2 * SETTLE_MS + v.waited
  {
    var n, d, w := Navigate(v.pkg, v.launched), SetStepDone(false), Wait(v.waited);
    var ops := IterationOps(v);
    assert [n][..0] == [];
    assert Elapsed([n]) == 0;
    assert [n, d][..1] == [n];
    assert Elapsed([n, d]) == 0;
    assert [n, d, Sleep(SETTLE_MS)][..2] == [n, d];
    assert Elapsed([n, d, Sleep(SETTLE_MS)]) == SETTLE_MS;
    assert [n, d, Sleep(SETTLE_MS), w][..3] == [n, d, Sleep(SETTLE_MS)];
    assert Elapsed([n, d, Sleep(SETTLE_MS), w]) == SETTLE_MS + v.waited;
    assert ops[..4] == [n, d, Sleep(SETTLE_MS), w];
  }

  /** A run spends two settle delays per visited target plus its waits, and nothing else. */
  lemma {:induction false} TraceElapsed(visits: seq<Visit>)
    ensures Elapsed(Ops(visits)) == 2 * SETTLE_MS * |visits| + TotalWaited(visits)
    ensures Elapsed(Trace(visits)) == Elapsed(Ops(visits))
    decreases |visits|
  {
    if visits != [] {
      var front := visits[..|visits| - 1];
      TraceElapsed(front);
      ElapsedAppend(Ops(front), IterationOps(visits[|visits| - 1]));
      IterationElapsed(visits[|visits| - 1]);
    }
    ElapsedAppend([SetInterrupt(false), SetFinished(false)], Ops(visits));
    ElapsedAppend([SetInterrupt(false), SetFinished(false)] + Ops(visits), [SetFinished(true)]);
  }

  lemma {:induction false} TotalWaitedAtMost(visits: seq<Visit>, bound: nat)
    requires forall k :: 0 <= k < |visits| ==> visits[k].waited <= bound
    ensures TotalWaited(visits) <= bound * |visits|
    decreases |visits|
  {
    if visits != [] {
      var front := visits[..|visits| - 1];
      TotalWaitedAtMost(front, bound);
      assert bound * |visits| == bound * |front| + bound;
    }
  }

  lemma {:induction false} TotalWaitedExactly(visits: seq<Visit>, bound: nat)
    requires forall k :: 0 <= k < |visits| ==> visits[k].waited == bound
    ensures TotalWaited(visits) == bound * |visits|
    decreases |visits|
  {
    if visits != [] {
      var front := visits[..|visits| - 1];
      TotalWaitedExactly(front, bound);
      assert bound * |visits| == bound * |front| + bound;
    }
  }

  /**
   * A run visits the targets in list order, each at most once, and stops
   * right after the first target whose wait brought an interrupt; the
   * summary says "interrupted" exactly when such a target exists, and
   * otherwise every target was visited. `cleanCacheFinished` ends true, the
   * step flag ends cleared, and the screen is relaunched only for a
   * non-empty list below Android P.
   */
  lemma RunVisitsTargetsInOrder(f0: Flags, pkgs: seq<string>, env: nat -> Interference, launchable: string -> bool, sdk: int)
    ensures var r := Run(f0, pkgs, env, launchable, sdk);
      var stop := StopIndex(env, 0, |pkgs|);
      && |r.visits| == (if stop < |pkgs| then stop + 1 else |pkgs|)
      && (forall k :: 0 <= k < |r.visits| ==> r.visits[k].pkg == pkgs[k] && r.visits[k].launched == launchable(pkgs[k]))
      && (r.summary == Interrupted <==> stop < |pkgs|)
      && (r.summary == Interrupted <==> r.flags.cleanCacheInterrupt)
      && (r.summary == Finished ==> |r.visits| == |pkgs|)
      && r.flags.cleanCacheFinished
      && (pkgs != [] ==> !r.flags.cleanAppCacheFinished)
      && (r.relaunched <==> pkgs != [] && sdk < SDK_P)
  {
    var start := Progress(f0.(cleanCacheInterrupt := false, cleanCacheFinished := false), []);
    LoopVisitsInOrder(pkgs, env, launchable, 0, start);
  }

  /**
   * A run's total sleeping and waiting is at most 6000 ms per target of the
   * list; an open gate stays open through the run and makes every wait free.
   */
  lemma RunTimeIsBounded(f0: Flags, pkgs: seq<string>, env: nat -> Interference, launchable: string -> bool, sdk: int)
    ensures var r := Run(f0, pkgs, env, launchable, sdk);
      && Elapsed(Trace(r.visits)) <= ITERATION_BOUND_MS * |r.visits| <= ITERATION_BOUND_MS * |pkgs|
      && (f0.gateOpen ==> r.flags.gateOpen && Elapsed(Trace(r.visits)) == 2 * SETTLE_MS * |r.visits|)
  {
    var start := Progress(f0.(cleanCacheInterrupt := false, cleanCacheFinished := false), []);
    var r := Run(f0, pkgs, env, launchable, sdk);
    LoopVisitsInOrder(pkgs, env, launchable, 0, start);
    LoopWaitsAreBounded(pkgs, env, launchable, 0, start);
    TraceElapsed(r.visits);
    TotalWaitedAtMost(r.visits, WAIT_TIMEOUT_MS);
    if f0.gateOpen {
      TotalWaitedExactly(r.visits, 0);
    }
  }

  /** Two visits that agree on everything except whether the launch went through. */
  predicate SameVisitApartFromLaunch(a: Visit, b: Visit) {
    a.pkg == b.pkg && a.waited == b.waited
  }

  predicate SameVisitsApartFromLaunch(a: seq<Visit>, b: seq<Visit>) {
    |a| == |b| && forall k :: 0 <= k < |a| ==> SameVisitApartFromLaunch(a[k], b[k])
  }

  lemma {:induction false} LoopIgnoresLaunchOutcome(
    pkgs: seq<string>, env: nat -> Interference, l1: string -> bool, l2: string -> bool,
    i: nat, p1: Progress, p2: Progress)
    requires i <= |pkgs|
    requires p1.flags == p2.flags && SameVisitsApartFromLaunch(p1.visits, p2.visits)
    ensures var q1, q2 := Loop(pkgs, env, l1, i, p1), Loop(pkgs, env, l2, i, p2);
      q1.flags == q2.flags && SameVisitsApartFromLaunch(q1.visits, q2.visits)
    decreases |pkgs| - i
  {
    if i < |pkgs| {
      var q1 := Iterate(pkgs[i], l1(pkgs[i]), env(i), p1);
      var q2 := Iterate(pkgs[i], l2(pkgs[i]), env(i), p2);
      assert SameVisitsApartFromLaunch(q1.visits, q2.visits) by {
        forall k | 0 <= k < |q1.visits| ensures SameVisitApartFromLaunch(q1.visits[k], q2.visits[k]) {
          if k < |p1.visits| {
            assert q1.visits[k] == p1.visits[k] && q2.visits[k] == p2.visits[k];
          }
        }
      }
      if !q1.flags.cleanCacheInterrupt {
        LoopIgnoresLaunchOutcome(pkgs, env, l1, l2, i + 1, q1, q2);
      }
    }
  }

  /**
   * A failed launch is swallowed and changes nothing else: two runs that
   * differ only in which details screens can be started end with the same
   * flags, summary and relaunch decision, and visit the same targets with
   * the same waits.
   */
  lemma LaunchOutcomeDoesNotSteerRun(
    f0: Flags, pkgs: seq<string>, env: nat -> Interference, l1: string -> bool, l2: string -> bool, sdk: int)
    ensures var r1, r2 := Run(f0, pkgs, env, l1, sdk), Run(f0, pkgs, env, l2, sdk);
      && r1.flags == r2.flags && r1.summary == r2.summary && r1.relaunched == r2.relaunched
      && |r1.visits| == |r2.visits|
      && forall k :: 0 <= k < |r1.visits| ==> r1.visits[k].pkg == r2.visits[k].pkg && r1.visits[k].waited == r2.visits[k].waited
  {
    var start := Progress(f0.(cleanCacheInterrupt := false, cleanCacheFinished := false), []);
    LoopIgnoresLaunchOutcome(pkgs, env, l1, l2, 0, start, start);
  }

  /**
   * With nobody else touching the sequencer's companion members, as in the
   * program (the accessibility service writes `MainActivity`'s), a run from a
   * closed gate visits every target, waits the full 5000 ms on each, takes
   * exactly 6000 ms per target and reports "finished".
   */
  lemma QuietRunWaitsOutEveryTimeout(f0: Flags, pkgs: seq<string>, env: nat -> Interference, launchable: string -> bool, sdk: int)
    requires !f0.gateOpen
    requires forall j :: env(j) == Interference(None, false)
    ensures var r := Run(f0, pkgs, env, launchable, sdk);
      && r.summary == Finished && |r.visits| == |pkgs| && !r.flags.gateOpen
      && (forall k :: 0 <= k < |pkgs| ==> r.visits[k].waited == WAIT_TIMEOUT_MS)
      && Elapsed(Trace(r.visits)) == ITERATION_BOUND_MS * |pkgs|
  {
    var start := Progress(f0.(cleanCacheInterrupt := false, cleanCacheFinished := false), []);
    var r := Run(f0, pkgs, env, launchable, sdk);
    QuietLoopWaitsInFull(pkgs, env, launchable, 0, start);
    TraceElapsed(r.visits);
    TotalWaitedExactly(r.visits, WAIT_TIMEOUT_MS);
  }

  /**
   * The order of steps: the run first clears the interrupt flag and then
   * `cleanCacheFinished`; every navigation is followed by clearing the step
   * flag, a settle delay, the wait and a second settle delay; and
   * `cleanCacheFinished` is set true exactly once, as the last step.
   */
  lemma {:induction false} TraceOrder(visits: seq<Visit>)
    ensures var t := Trace(visits);
      && t[0] == SetInterrupt(false) && t[1] == SetFinished(false) && t[|t| - 1] == SetFinished(true)
      && (forall j :: 0 <= j < |t| - 1 ==> t[j] != SetFinished(true))
      && (forall j :: 0 <= j < |t| && t[j].Navigate? ==>
            j + 4 < |t| && t[j + 1] == SetStepDone(false) && t[j + 2] == Sleep(SETTLE_MS) &&
            t[j + 3].Wait? && t[j + 4] == Sleep(SETTLE_MS))
  {
    OpsShape(visits);
    var t := Trace(visits);
    var ops := Ops(visits);
    forall j | 0 <= j < |t| && t[j].Navigate?
      ensures j + 4 < |t| && t[j + 1] == SetStepDone(false) && t[j + 2] == Sleep(SETTLE_MS) &&
              t[j + 3].Wait? && t[j + 4] == Sleep(SETTLE_MS)
    {
      assert 2 <= j < 2 + |ops| && ops[j - 2] == t[j];
      assert t[j + 1] == ops[j - 1] && t[j + 2] == ops[j] && t[j + 3] == ops[j + 1] && t[j + 4] == ops[j + 2];
    }
  }

  /** The shape of the iteration steps: five per visit, a navigation only at the start of each block of five. */
  lemma {:induction false} OpsShape(visits: seq<Visit>)
    ensures |Ops(visits)| == 5 * |visits|
    ensures forall j :: 0 <= j < |Ops(visits)| ==> !Ops(visits)[j].SetFinished? && !Ops(visits)[j].SetInterrupt?
    ensures forall j :: 0 <= j < |Ops(visits)| && Ops(visits)[j].Navigate? ==>
      j % 5 == 0 && j + 4 < |Ops(visits)| &&
      Ops(visits)[j + 1] == SetStepDone(false) && Ops(visits)[j + 2] == Sleep(SETTLE_MS) &&
      Ops(visits)[j + 3].Wait? && Ops(visits)[j + 4] == Sleep(SETTLE_MS)
    decreases |visits|
  {
    if visits != [] {
      var front := visits[..|visits| - 1];
      OpsShape(front);
      var a := Ops(front);
      var b := IterationOps(visits[|visits| - 1]);
      var ops := a + b;
      forall j | 0 <= j < |ops|
        ensures !ops[j].SetFinished? && !ops[j].SetInterrupt?
      {
        if j < |a| { assert ops[j] == a[j]; } else { assert ops[j] == b[j - |a|]; }
      }
      forall j | 0 <= j < |ops| && ops[j].Navigate?
        ensures j % 5 == 0 && j + 4 < |ops| &&
          ops[j + 1] == SetStepDone(false) && ops[j + 2] == Sleep(SETTLE_MS) &&
          ops[j + 3].Wait? && ops[j + 4] == Sleep(SETTLE_MS)
      {
        if j < |a| {
          assert ops[j] == a[j];
          assert ops[j + 1] == a[j + 1] && ops[j + 2] == a[j + 2] && ops[j + 3] == a[j + 3] && ops[j + 4] == a[j + 4];
        } else {
          assert ops[j] == b[j - |a|];
          assert j == |a|;
        }
      }
    }
  }

  /**
   * The record of the steps the sequencer has taken. Each statement of
   * `startCleanCache` that acts (a flag write, a launch, a delay, the wait)
   * is a method below that both acts and records itself here, so the
   * recorded order is the order of the effects.
   */
  class StepLog {
    var ops: seq<Op>

    constructor ()
      ensures ops == []
    {
      ops := [];
    }
  }

  /** `cleanCacheInterrupt.set(value)`. */
  method SetInterruptFlag(flags: SharedFlags, value: bool, log: StepLog)
    modifies flags, log
    ensures flags.Snapshot() == old(flags.Snapshot()).(cleanCacheInterrupt := value)
    ensures log.ops == old(log.ops) + [SetInterrupt(value)]
  {
    flags.cleanCacheInterrupt := value;
    log.ops := log.ops + [SetInterrupt(value)];
  }

  /** `cleanCacheFinished.set(value)`. */
  method SetFinishedFlag(flags: SharedFlags, value: bool, log: StepLog)
    modifies flags, log
    ensures flags.Snapshot() == old(flags.Snapshot()).(cleanCacheFinished := value)
    ensures log.ops == old(log.ops) + [SetFinished(value)]
  {
    flags.cleanCacheFinished := value;
    log.ops := log.ops + [SetFinished(value)];
  }

  /** `cleanAppCacheFinished.set(false)`. */
  method ClearStepDone(flags: SharedFlags, log: StepLog)
    modifies flags, log
    ensures flags.Snapshot() == old(flags.Snapshot()).(cleanAppCacheFinished := false)
    ensures log.ops == old(log.ops) + [SetStepDone(false)]
  {
    flags.cleanAppCacheFinished := false;
    log.ops := log.ops + [SetStepDone(false)];
  }

  /** `delay(ms)`. */
  method Delay(ms: nat, log: StepLog)
    modifies log
    ensures log.ops == old(log.ops) + [Sleep(ms)]
  {
    log.ops := log.ops + [Sleep(ms)];
  }

  /**
   * `waitAccessibility.block(5000L)`, during which other parties may open
   * the gate (`e.openAfter`) and set the interrupt flag (`e.interrupt`).
   */
  method AwaitGate(flags: SharedFlags, e: Interference, log: StepLog) returns (b: BlockResult)
    modifies flags, flags.waitAccessibility, log
    ensures b == BlockOutcome(old(flags.Snapshot()).gateOpen, WAIT_TIMEOUT_MS, e.openAfter)
    ensures flags.Snapshot() == old(flags.Snapshot()).(
      gateOpen := old(flags.Snapshot()).gateOpen || b.signaled,
      cleanCacheInterrupt := old(flags.Snapshot()).cleanCacheInterrupt || e.interrupt)
    ensures log.ops == old(log.ops) + [Wait(b.waited)]
  {
    b := flags.waitAccessibility.Block(WAIT_TIMEOUT_MS, e.openAfter);
    if e.interrupt {
      flags.cleanCacheInterrupt := true;
    }
    log.ops := log.ops + [Wait(b.waited)];
  }

  /**
   * `startApplicationDetailsActivity`: asks for the details screen; an
   * `ActivityNotFoundException` is swallowed, so the call always returns
   * (see `LaunchOutcomeDoesNotSteerRun` for what that means for a run).
   */
  method StartApplicationDetailsActivity(packageName: string, launchable: string -> bool, log: StepLog)
    returns (launched: bool)
    modifies log
    ensures launched == launchable(packageName)
    ensures log.ops == old(log.ops) + [Navigate(packageName, launched)]
  {
    launched := launchable(packageName);
    log.ops := log.ops + [Navigate(packageName, launched)];
  }

  /** The body of `startCleanCache`'s loop for one target, with `e` the interference during its wait. */
  method CleanOne(flags: SharedFlags, pkg: string, e: Interference, launchable: string -> bool,
                  log: StepLog, ghost visits: seq<Visit>)
    returns (v: Visit)
    modifies flags, flags.waitAccessibility, log
    ensures Progress(flags.Snapshot(), visits + [v]) ==
            Iterate(pkg, launchable(pkg), e, Progress(old(flags.Snapshot()), visits))
    ensures log.ops == old(log.ops) + IterationOps(v)
  {
    var launched := StartApplicationDetailsActivity(pkg, launchable, log);
    ClearStepDone(flags, log);
    Delay(SETTLE_MS, log);
    var b := AwaitGate(flags, e, log);
    Delay(SETTLE_MS, log);
    v := Visit(pkg, launched, b.waited);
  }

  class ListActivity {
    var checkedPkgList: set<string>

    constructor ()
      ensures checkedPkgList == {}
    {
      checkedPkgList := {};
    }

    /**
     * The `fabClear` handler: add the names of the checked items, then
     * remove the names of the unchecked ones; the list it hands to
     * `startCleanCache` is the checked items' names in `ITEMS` order.
     */
    method OnFabClear(items: seq<PlaceholderPackage>) returns (pkgList: seq<string>)
      modifies this
      ensures checkedPkgList == CheckedSetAfterFab(old(checkedPkgList), items)
      ensures pkgList == CheckedNames(items)
    {
      ghost var before := checkedPkgList;
      for i := 0 to |items|
        invariant checkedPkgList == before + Elements(CheckedNames(items[..i]))
      {
        assert items[..i + 1][..i] == items[..i];
        if items[i].checked {
          checkedPkgList := checkedPkgList + {items[i].name};
        }
      }
      assert items[..|items|] == items;
      ghost var added := checkedPkgList;
      for i := 0 to |items|
        invariant checkedPkgList == added - Elements(UncheckedNames(items[..i]))
      {
        assert items[..i + 1][..i] == items[..i];
        if !items[i].checked {
          checkedPkgList := checkedPkgList - {items[i].name};
        }
      }
      pkgList := CheckedNames(items);
    }

    /**
     * `startCleanCache` over `ListActivity`'s own companion members `flags`.
     * `env(i)` is what other parties do to them during target `i`'s wait,
     * `launchable` whether a details screen can be started.
     */
    method StartCleanCache(flags: SharedFlags, pkgList: seq<string>, env: nat -> Interference,
                           launchable: string -> bool, sdk: int)
      returns (trace: seq<Op>, summary: Summary, relaunched: bool)
      modifies flags, flags.waitAccessibility
      ensures var r := Run(old(flags.Snapshot()), pkgList, env, launchable, sdk);
        && flags.Snapshot() == r.flags && trace == Trace(r.visits)
        && summary == r.summary && relaunched == r.relaunched
    {
      ghost var r := Run(flags.Snapshot(), pkgList, env, launchable, sdk);
      var log := new StepLog();
      SetInterruptFlag(flags, false, log);
      SetFinishedFlag(flags, false, log);
      ghost var start := Progress(flags.Snapshot(), []);
      ghost var end := Loop(pkgList, env, launchable, 0, start);
      assert r.visits == end.visits && r.flags == end.flags.(cleanCacheFinished := true);
      ghost var visits: seq<Visit> := [];

      var i := 0;
      while i < |pkgList|
        invariant 0 <= i <= |pkgList|
        invariant !flags.cleanCacheInterrupt
        invariant Loop(pkgList, env, launchable, i, Progress(flags.Snapshot(), visits)) == end
        invariant log.ops == [SetInterrupt(false), SetFinished(false)] + Ops(visits)
      {
        ghost var before := Progress(flags.Snapshot(), visits);
        var v := CleanOne(flags, pkgList[i], env(i), launchable, log, visits);
        assert log.ops == [SetInterrupt(false), SetFinished(false)] + Ops(visits + [v]) by {
          OpsAppend(visits, v);
        }
        visits := visits + [v];
        assert flags.cleanCacheInterrupt ==> Progress(flags.Snapshot(), visits) == end by {
          LoopStep(pkgList, env, launchable, i, before);
        }
        assert !flags.cleanCacheInterrupt ==> Loop(pkgList, env, launchable, i + 1, Progress(flags.Snapshot(), visits)) == end by {
          LoopStep(pkgList, env, launchable, i, before);
        }
        if flags.cleanCacheInterrupt {
          break;
        }
        i := i + 1;
      }

      assert Progress(flags.Snapshot(), visits) == end;
      SetFinishedFlag(flags, true, log);
      trace := log.ops;
      summary := if flags.cleanCacheInterrupt then Interrupted else Finished;
      relaunched := |pkgList| > 0 && sdk < SDK_P;
    }
  }

  /**
   * As written, from start-up: the sequencer starts a run on its own record
   * (`ListActivity.kt` lines 51-52), but `MainActivity`'s record keeps
   * `cleanCacheFinished` true, so the button changes nothing at all; the
   * sequencer sees no interrupt and a wait on its closed gate still lasts
   * the full 5000 ms.
   */
  method ButtonDoesNotReachSequencer(
    service: CleanerService.CleanerService, mainFlags: SharedFlags, listFlags: SharedFlags)
    returns (b: BlockResult)
    requires mainFlags != listFlags && mainFlags.waitAccessibility != listFlags.waitAccessibility
    requires mainFlags.Snapshot() == InitialFlags && listFlags.Snapshot() == InitialFlags
    modifies mainFlags, mainFlags.waitAccessibility, listFlags, listFlags.waitAccessibility
    ensures mainFlags.Snapshot() == InitialFlags
    ensures b == BlockResult(false, WAIT_TIMEOUT_MS)
    ensures !listFlags.cleanCacheInterrupt && !listFlags.cleanCacheFinished
  {
    listFlags.cleanCacheInterrupt := false;
    listFlags.cleanCacheFinished := false;
    service.OnAccessibilityButtonClicked(mainFlags);
    b := listFlags.waitAccessibility.Block(WAIT_TIMEOUT_MS, None);
  }

  /**
   * Corrected: when the sequencer and the service share one record, the
   * run's start clears `cleanCacheFinished` there, so the button sets the
   * interrupt the sequencer tests and releases its wait at once.
   */
  method ButtonStopsSharedRun(service: CleanerService.CleanerService, flags: SharedFlags)
    returns (b: BlockResult)
    requires flags.Snapshot() == InitialFlags
    modifies flags, flags.waitAccessibility
    ensures b == BlockResult(true, 0)
    ensures flags.cleanCacheInterrupt && flags.waitAccessibility.isOpen
  {
    flags.cleanCacheInterrupt := false;
    flags.cleanCacheFinished := false;
    service.OnAccessibilityButtonClicked(flags);
    b := flags.waitAccessibility.Block(WAIT_TIMEOUT_MS, None);
  }
}
