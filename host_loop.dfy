/** The engine loop shared by both hosting services
  * (`StandaloneFrooxEngineService` and `FrooxEngineRunnerService`): it
  * runs the engine until the service is cancelled, the engine has shut
  * down and application startup has finished, and begins the engine's
  * shutdown once, the first time it sees the service cancelled after
  * startup. The loop reads three flags other code sets; a run of the loop
  * is given as the flags it reads on each pass. */
module HostLoop {
  import opened Wrappers

  /** What the loop reads: the cancellation token, the engine's shutdown
    * callback having run, and `_applicationStartupComplete`. */
  datatype Flags = Flags(cancelled: bool, shutdownComplete: bool, startupComplete: bool)

  /** The loop condition fails: all three hold together. */
  predicate MayExit(f: Flags) {
    f.cancelled && f.shutdownComplete && f.startupComplete
  }

  /** The test that begins the shutdown passes (when no shutdown has
    * begun yet): cancelled, with startup complete. */
  predicate MayShutDown(f: Flags) {
    f.cancelled && f.startupComplete
  }

  /** One pass as the environment shapes it: the flags at the loop
    * condition, whether the engine update throws, and the flags at the
    * shutdown test after the tick. */
  datatype Pass = Pass(atCondition: Flags, updateThrows: bool, atShutdownTest: Flags)

  /** The calls the loop makes, in order. */
  datatype Step =
    | WaitForTick
    | RunUpdate(threw: bool)   // an exception is logged and the loop goes on
    | BeginShutdown
    | AwaitShutdown

  /** The passes that run: those before the first whose condition allows
    * the exit, or all of them when none does. */
  function PassesRun(passes: seq<Pass>): (n: nat)
    ensures n <= |passes|
    ensures forall i :: 0 <= i < n ==> !MayExit(passes[i].atCondition)
    ensures n < |passes| ==> MayExit(passes[n].atCondition)
  {
    if |passes| == 0 || MayExit(passes[0].atCondition) then 0
    else 1 + PassesRun(passes[1..])
  }

  /** The first of the first `n` passes whose shutdown test passes. */
  function FirstShutdown(passes: seq<Pass>, n: nat): (r: Option<nat>)
    requires n <= |passes|
    ensures r.Some? ==> r.value < n
  {
    if n == 0 then None
    else
      var r := FirstShutdown(passes, n - 1);
      if r.Some? then r
      else if MayShutDown(passes[n - 1].atShutdownTest) then Some(n - 1)
      else None
  }

  /** `FirstShutdown` finds the first pass whose test passes, and finds
    * none only when no pass's test passes. */
  lemma {:induction false} FirstShutdownMeaning(passes: seq<Pass>, n: nat)
    requires n <= |passes|
    ensures var r := FirstShutdown(passes, n);
      && (r.Some? ==>
        && MayShutDown(passes[r.value].atShutdownTest)
        && forall j :: 0 <= j < r.value ==> !MayShutDown(passes[j].atShutdownTest))
      && (r.None? ==> forall j :: 0 <= j < n ==> !MayShutDown(passes[j].atShutdownTest))
  {
    if n > 0 {
      FirstShutdownMeaning(passes, n - 1);
    }
  }

  /** Once found, the first shutdown pass stays the first. */
  lemma {:induction false} FirstShutdownStable(passes: seq<Pass>, m: nat, n: nat)
    requires m <= n <= |passes|
    requires FirstShutdown(passes, n).Some? && FirstShutdown(passes, n).value < m
    ensures FirstShutdown(passes, m) == FirstShutdown(passes, n)
  {
    if m < n {
      FirstShutdownMeaning(passes, n);
      FirstShutdownMeaning(passes, n - 1);
      FirstShutdownStable(passes, m, n - 1);
    }
  }

  /** How many times `x` occurs in `s`. */
  function Count(s: seq<Step>, x: Step): (n: nat)
    ensures n <= |s|
  {
    if s == [] then 0 else (if s[0] == x then 1 else 0) + Count(s[1..], x)
  }

  lemma {:induction false} CountAppend(a: seq<Step>, b: seq<Step>, x: Step)
    ensures Count(a + b, x) == Count(a, x) + Count(b, x)
  {
    if a == [] {
      assert a + b == b;
    } else {
      assert (a + b)[0] == a[0];
      assert (a + b)[1..] == a[1..] + b;
      CountAppend(a[1..], b, x);
    }
  }

  /** The engine updates of a trace, in order, with whether each threw. */
  function Updates(s: seq<Step>): (r: seq<bool>)
    ensures |r| <= |s|
  {
    if s == [] then []
    else (if s[0].RunUpdate? then [s[0].threw] else []) + Updates(s[1..])
  }

  lemma {:induction false} UpdatesAppend(a: seq<Step>, b: seq<Step>)
    ensures Updates(a + b) == Updates(a) + Updates(b)
  {
    if a == [] {
      assert a + b == b;
    } else {
      assert (a + b)[0] == a[0];
      assert (a + b)[1..] == a[1..] + b;
      UpdatesAppend(a[1..], b);
    }
  }

  /** Whether each of the passes' updates throws, in order. */
  function Throws(passes: seq<Pass>): (r: seq<bool>)
    ensures |r| == |passes|
    ensures forall i :: 0 <= i < |passes| ==> r[i] == passes[i].updateThrows
  {
    seq(|passes|, i requires 0 <= i < |passes| => passes[i].updateThrows)
  }

  /** The two services make the tick wait and the engine update in
    * opposite orders within a pass. */
  datatype Order = TickThenUpdate | UpdateThenTick

  /** The calls of one pass, given whether a shutdown had begun before it. */
  function PassSteps(order: Order, p: Pass, shuttingDown: bool): (r: seq<Step>)
    ensures 2 <= |r| <= 3
  {
    var work := match order
      case TickThenUpdate => [WaitForTick, RunUpdate(p.updateThrows)]
      case UpdateThenTick => [RunUpdate(p.updateThrows), WaitForTick];
    work + if !shuttingDown && MayShutDown(p.atShutdownTest) then [BeginShutdown] else []
  }

  /** A pass waits for one tick, runs one update, and begins the shutdown
    * exactly when none had begun and its test passes. */
  lemma PassStepsCounts(order: Order, p: Pass, shuttingDown: bool)
    ensures var r := PassSteps(order, p, shuttingDown);
      && Count(r, WaitForTick) == 1 && Count(r, AwaitShutdown) == 0
      && Count(r, BeginShutdown) == (if !shuttingDown && MayShutDown(p.atShutdownTest) then 1 else 0)
      && Updates(r) == [p.updateThrows]
  {
    var r := PassSteps(order, p, shuttingDown);
    var rest := r[2..];
    assert r == [r[0], r[1]] + rest;
    assert [r[0], r[1]][1..] == [r[1]] && [r[1]][1..] == [];
    CountAppend([r[0], r[1]], rest, WaitForTick);
    CountAppend([r[0], r[1]], rest, AwaitShutdown);
    CountAppend([r[0], r[1]], rest, BeginShutdown);
    UpdatesAppend([r[0], r[1]], rest);
    if |rest| == 1 {
      assert rest[1..] == [];
    }
  }

  /** The calls of the first `n` passes. */
  function Trace(order: Order, passes: seq<Pass>, n: nat): seq<Step>
    requires n <= |passes|
  {
    if n == 0 then []
    else Trace(order, passes, n - 1) + PassSteps(order, passes[n - 1], FirstShutdown(passes, n - 1).Some?)
  }

  /** The calls of a whole run of the loop: the passes that run, then the
    * await of the shutdown when the loop exits after beginning one. */
  function LoopSteps(order: Order, passes: seq<Pass>): seq<Step> {
    var n := PassesRun(passes);
    Trace(order, passes, n) + if n < |passes| && FirstShutdown(passes, n).Some? then [AwaitShutdown] else []
  }

  /** Every pass waits for one tick and runs one update; the shutdown
    * begins at most once, and only if some pass saw the service cancelled
    * after startup. */
  lemma TraceCounts(order: Order, passes: seq<Pass>, n: nat)
    requires n <= |passes|
    ensures var t := Trace(order, passes, n);
      && Count(t, WaitForTick) == n
      && Count(t, BeginShutdown) == (if FirstShutdown(passes, n).Some? then 1 else 0)
      && Count(t, AwaitShutdown) == 0
      && Updates(t) == Throws(passes[..n])
  {
    TraceStepCounts(order, passes, n);
    TraceUpdates(order, passes, n);
  }

  /** The trace of one more pass is the earlier trace and that pass's calls. */
  lemma TraceStep(order: Order, passes: seq<Pass>, n: nat) returns (t: seq<Step>, p: seq<Step>)
    requires 0 < n <= |passes|
    ensures t == Trace(order, passes, n - 1)
    ensures p == PassSteps(order, passes[n - 1], FirstShutdown(passes, n - 1).Some?)
    ensures Trace(order, passes, n) == t + p
  {
    t := Trace(order, passes, n - 1);
    p := PassSteps(order, passes[n - 1], FirstShutdown(passes, n - 1).Some?);
  }

  lemma {:induction false} TraceStepCounts(order: Order, passes: seq<Pass>, n: nat)
    requires n <= |passes|
    ensures var t := Trace(order, passes, n);
      && Count(t, WaitForTick) == n
      && Count(t, BeginShutdown) == (if FirstShutdown(passes, n).Some? then 1 else 0)
      && Count(t, AwaitShutdown) == 0
  {
    if n > 0 {
      TraceStepCounts(order, passes, n - 1);
      var before := FirstShutdown(passes, n - 1).Some?;
      var t, p := TraceStep(order, passes, n);
      PassStepsCounts(order, passes[n - 1], before);
      CountAppend(t, p, WaitForTick);
      CountAppend(t, p, BeginShutdown);
      CountAppend(t, p, AwaitShutdown);
      assert FirstShutdown(passes, n).Some? <==> before || MayShutDown(passes[n - 1].atShutdownTest);
    }
  }

  lemma {:induction false} TraceUpdates(order: Order, passes: seq<Pass>, n: nat)
    requires n <= |passes|
    ensures Updates(Trace(order, passes, n)) == Throws(passes[..n])
  {
    if n > 0 {
      TraceUpdates(order, passes, n - 1);
      var before := FirstShutdown(passes, n - 1).Some?;
      var t, p := TraceStep(order, passes, n);
      PassStepsCounts(order, passes[n - 1], before);
      UpdatesAppend(t, p);
      assert passes[..n] == passes[..n - 1] + [passes[n - 1]];
      ThrowsAppend(passes[..n - 1], passes[n - 1]);
    }
  }

  lemma ThrowsAppend(a: seq<Pass>, x: Pass)
    ensures Throws(a + [x]) == Throws(a) + [x.updateThrows]
  {
    assert |Throws(a + [x])| == |Throws(a) + [x.updateThrows]|;
    forall i | 0 <= i < |a| + 1
      ensures Throws(a + [x])[i] == (Throws(a) + [x.updateThrows])[i]
    {
      if i < |a| {
        assert (a + [x])[i] == a[i];
      }
    }
  }

  /** An earlier trace is a prefix of a later one. */
  lemma {:induction false} TracePrefix(order: Order, passes: seq<Pass>, m: nat, n: nat)
    requires m <= n <= |passes|
    ensures Trace(order, passes, m) <= Trace(order, passes, n)
  {
    if m < n {
      TracePrefix(order, passes, m, n - 1);
    }
  }

  /** The shutdown begins as the last call of the first pass whose test
    * passes, after that pass's tick. */
  lemma ShutdownPass(order: Order, passes: seq<Pass>, n: nat)
    requires n <= |passes| && FirstShutdown(passes, n).Some?
    ensures var j := FirstShutdown(passes, n).value;
      var t := Trace(order, passes, j + 1);
      && t <= Trace(order, passes, n)
      && t[|t| - 1] == BeginShutdown
      && Count(t, WaitForTick) == j + 1
  {
    var j := FirstShutdown(passes, n).value;
    TracePrefix(order, passes, j + 1, n);
    TraceStepCounts(order, passes, j + 1);
    FirstShutdownStable(passes, j + 1, n);
    assert FirstShutdown(passes, j + 1) == Some(j);
    assert FirstShutdown(passes, j).None? && MayShutDown(passes[j].atShutdownTest);
    var t, p := TraceStep(order, passes, j + 1);
    assert p[|p| - 1] == BeginShutdown;
    assert (t + p)[|t + p| - 1] == p[|p| - 1];
  }

  /** Within a pass the update follows the tick wait, or precedes it,
    * as the order says. */
  lemma {:induction false} TraceOrder(order: Order, passes: seq<Pass>, n: nat, k: nat)
    requires n <= |passes|
    requires k < |Trace(order, passes, n)| && Trace(order, passes, n)[k].RunUpdate?
    ensures var t := Trace(order, passes, n);
      && (order == TickThenUpdate ==> 0 < k && t[k - 1] == WaitForTick)
      && (order == UpdateThenTick ==> k + 1 < |t| && t[k + 1] == WaitForTick)
  {
    var t := Trace(order, passes, n - 1);
    var p := PassSteps(order, passes[n - 1], FirstShutdown(passes, n - 1).Some?);
    assert Trace(order, passes, n) == t + p;
    if k < |t| {
      TraceOrder(order, passes, n - 1, k);
    }
  }

  /** The whole run is the trace of the passes that run, then at most
    * the await of the shutdown. */
  lemma LoopStepsSplit(order: Order, passes: seq<Pass>) returns (tail: seq<Step>)
    ensures LoopSteps(order, passes) == Trace(order, passes, PassesRun(passes)) + tail
    ensures tail == [] || tail == [AwaitShutdown]
    ensures tail == [AwaitShutdown] <==> PassesRun(passes) < |passes| && FirstShutdown(passes, PassesRun(passes)).Some?
  {
    var n := PassesRun(passes);
    tail := if n < |passes| && FirstShutdown(passes, n).Some? then [AwaitShutdown] else [];
  }

  /** A whole run waits for one tick and runs one update per pass that
    * runs. */
  lemma LoopStepsWork(order: Order, passes: seq<Pass>)
    ensures Count(LoopSteps(order, passes), WaitForTick) == PassesRun(passes)
    ensures Updates(LoopSteps(order, passes)) == Throws(passes[..PassesRun(passes)])
  {
    var n := PassesRun(passes);
    var t := Trace(order, passes, n);
    TraceCounts(order, passes, n);
    var tail := LoopStepsSplit(order, passes);
    UpdatesAppend(t, tail);
    CountAppend(t, tail, WaitForTick);
    if tail != [] {
      assert tail[1..] == [];
    }
  }

  /** A whole run begins the shutdown at most once, and awaits it once
    * exactly when the loop exits after beginning it. */
  lemma LoopStepsShutdownCounts(order: Order, passes: seq<Pass>)
    ensures var n := PassesRun(passes);
      var s := FirstShutdown(passes, n);
      && Count(LoopSteps(order, passes), BeginShutdown) == (if s.Some? then 1 else 0)
      && Count(LoopSteps(order, passes), AwaitShutdown) == (if n < |passes| && s.Some? then 1 else 0)
  {
    var n := PassesRun(passes);
    var t := Trace(order, passes, n);
    TraceCounts(order, passes, n);
    var tail := LoopStepsSplit(order, passes);
    CountAppend(t, tail, BeginShutdown);
    CountAppend(t, tail, AwaitShutdown);
    if tail != [] {
      assert tail[1..] == [];
    }
  }

  /** The loop's calls extend the calls of the passes it ran, ending with
    * the await when it exits after beginning the shutdown. */
  lemma LoopStepsExtendTrace(order: Order, passes: seq<Pass>)
    ensures var n := PassesRun(passes);
      var t := Trace(order, passes, n);
      var steps := LoopSteps(order, passes);
      && t <= steps
      && (n < |passes| && FirstShutdown(passes, n).Some? ==> steps == t + [AwaitShutdown])
  {
  }

  /** The run begins the shutdown in the first pass whose test passes and,
    * when it exits after that, ends by awaiting it. */
  lemma LoopStepsShutdown(order: Order, passes: seq<Pass>)
    ensures var n := PassesRun(passes);
      var s := FirstShutdown(passes, n);
      var steps := LoopSteps(order, passes);
      && (n < |passes| && s.Some? ==> steps[|steps| - 1] == AwaitShutdown)
      && (s.Some? ==> Trace(order, passes, s.value + 1) <= Trace(order, passes, n) <= steps)
  {
    var n := PassesRun(passes);
    LoopStepsExtendTrace(order, passes);
    if FirstShutdown(passes, n).Some? {
      ShutdownPass(order, passes, n);
    }
  }

  /** The engine's shutdown sequences call these, in an order each
    * service fixes. */
  datatype ShutdownCall =
    | StopAllWorlds
    | ExitApp
    | WaitForPendingUploads
    | RequestShutdown
    | FinalizeSession

  /** `a` occurs in `s` and some `b` occurs after it. */
  predicate Before<T(==)>(s: seq<T>, a: T, b: T) {
    exists i, j :: 0 <= i < j < |s| && s[i] == a && s[j] == b
  }
}
