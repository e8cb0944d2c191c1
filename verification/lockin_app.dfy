/**
 * The application object that owns a session: it creates the isolated desktop and the three
 * windows, and tears everything down exactly once, whether the user quits, a signal arrives
 * or the interpreter exits. The collaborators (process manager, desktop manager, windows) are
 * modelled in their own modules; here each call on them is a step in `log`, so that the
 * order of the shutdown sequence can be stated.
 */
module LockIn {
  import opened Wrappers

  /** The three top-level windows, in the order `create_windows` builds them. */
  datatype Window = Header | AppManager | AiChat

  datatype Step =
    | CreateVirtualDesktop
    | CreateWindow(created: Window)
    | RunEventLoop
    | AllowClosing(permitted: Window)
    | CloseAllApplications
    | CloseWindow(closed: Window)
    | DesktopCleanup
    | ScheduleQuit           // the one-second timer that quits the Qt application
    | Quit                   // `app.quit()` from the signal handler

  const BuildOrder: seq<Window> := [Header, AppManager, AiChat]

  /** `[s]` when the guard holds: a step that runs only if its window exists. */
  function When(guard: bool, s: Step): (r: seq<Step>)
    ensures s in r <==> guard
    ensures |r| <= 1 && forall t :: t in r ==> t == s
  {
    if guard then [s] else []
  }

  /** Step 1 of the shutdown sequence: permission to close, for each window that exists. */
  function PermissionSteps(present: set<Window>): seq<Step> {
    When(AppManager in present, AllowClosing(AppManager))
    + When(AiChat in present, AllowClosing(AiChat))
    + When(Header in present, AllowClosing(Header))
  }

  /** Steps 3 and 4: close the floating windows, then the header. */
  function ClosingSteps(present: set<Window>): seq<Step> {
    When(AppManager in present, CloseWindow(AppManager))
    + When(AiChat in present, CloseWindow(AiChat))
    + When(Header in present, CloseWindow(Header))
  }

  /**
   * The shutdown sequence for the windows that exist: grant every window permission to
   * close, close the launched applications, close the windows, and tear down the desktop.
   */
  function ShutdownPlan(present: set<Window>): seq<Step> {
    PermissionSteps(present) + [CloseAllApplications] + ClosingSteps(present) + [DesktopCleanup]
  }

  /** No step of `plan` throws. */
  predicate NoRaise(plan: seq<Step>, raises: Step -> bool) {
    forall i :: 0 <= i < |plan| ==> !raises(plan[i])
  }

  /** The steps of `plan` that run when the steps for which `raises` holds throw: up to the first such. */
  function Attempted(plan: seq<Step>, raises: Step -> bool): (r: seq<Step>)
    ensures r <= plan
  {
    if plan == [] then []
    else if raises(plan[0]) then [plan[0]]
    else [plan[0]] + Attempted(plan[1..], raises)
  }

  /**
   * When no step throws, every step is attempted; otherwise the attempted steps end with
   * the first step that throws.
   */
  lemma {:induction false} AttemptedStopsAtFirstRaise(plan: seq<Step>, raises: Step -> bool)
    ensures NoRaise(plan, raises) ==> Attempted(plan, raises) == plan
    ensures NoRaise(plan, raises) <==> NoRaise(Attempted(plan, raises), raises)
    ensures var r := Attempted(plan, raises);
            !NoRaise(plan, raises) ==> r != [] && raises(r[|r| - 1]) && NoRaise(r[..|r| - 1], raises)
    decreases |plan|
  {
    if plan != [] {
      var r := Attempted(plan, raises);
      if !raises(plan[0]) {
        var t := Attempted(plan[1..], raises);
        AttemptedStopsAtFirstRaise(plan[1..], raises);
        assert r == [plan[0]] + t;
        NoRaiseCons(plan[0], plan[1..], raises);
        assert plan == [plan[0]] + plan[1..];
        NoRaiseCons(plan[0], t, raises);
        if !NoRaise(plan, raises) {
          assert r[..|r| - 1] == [plan[0]] + t[..|t| - 1];
          NoRaiseCons(plan[0], t[..|t| - 1], raises);
        }
      } else {
        assert r == [plan[0]];
        assert r[..|r| - 1] == [];
      }
    }
  }

  /** A step that does not throw in front of a plan does not change whether the plan throws. */
  lemma NoRaiseCons(s: Step, rest: seq<Step>, raises: Step -> bool)
    requires !raises(s)
    ensures NoRaise([s] + rest, raises) <==> NoRaise(rest, raises)
  {
    if NoRaise(rest, raises) {
      forall i | 0 <= i < |[s] + rest| ensures !raises(([s] + rest)[i]) {
        if i > 0 { assert ([s] + rest)[i] == rest[i - 1]; }
      }
    }
    if NoRaise([s] + rest, raises) {
      forall i | 0 <= i < |rest| ensures !raises(rest[i]) { assert ([s] + rest)[i + 1] == rest[i]; }
    }
  }

  /** A concatenation throws nowhere exactly when neither part throws. */
  lemma NoRaiseConcat(a: seq<Step>, b: seq<Step>, raises: Step -> bool)
    ensures NoRaise(a + b, raises) <==> NoRaise(a, raises) && NoRaise(b, raises)
  {
    if NoRaise(a, raises) && NoRaise(b, raises) {
      forall i | 0 <= i < |a + b| ensures !raises((a + b)[i]) {
        if i >= |a| { assert (a + b)[i] == b[i - |a|]; }
      }
    }
    if NoRaise(a + b, raises) {
      forall i | 0 <= i < |b| ensures !raises(b[i]) { assert (a + b)[|a| + i] == b[i]; }
      forall i | 0 <= i < |a| ensures !raises(a[i]) { assert (a + b)[i] == a[i]; }
    }
  }

  /** Running `a` then `b` under one handler: `b` starts only if no step of `a` threw. */
  lemma {:induction false} AttemptedConcat(a: seq<Step>, b: seq<Step>, raises: Step -> bool)
    ensures Attempted(a + b, raises) == if NoRaise(a, raises) then a + Attempted(b, raises) else Attempted(a, raises)
    decreases |a|
  {
    if a == [] {
      assert a + b == b;
    } else {
      var rest := a[1..];
      assert a + b == [a[0]] + (rest + b);
      assert Attempted(a + b, raises) == if raises(a[0]) then [a[0]] else [a[0]] + Attempted(rest + b, raises);
      if raises(a[0]) {
        assert !NoRaise(a, raises);
      } else {
        AttemptedConcat(rest, b, raises);
        assert a == [a[0]] + rest;
        NoRaiseCons(a[0], rest, raises);
        if NoRaise(rest, raises) {
          assert [a[0]] + (rest + Attempted(b, raises)) == a + Attempted(b, raises);
        }
      }
    }
  }

  /** `a`, then `x`, then `c`, then `y`: where each part sits. */
  lemma SplitAt4(a: seq<Step>, x: Step, c: seq<Step>, y: Step)
    ensures var p := a + [x] + c + [y];
      && |p| == |a| + |c| + 2 && p[|a|] == x && p[|p| - 1] == y
      && (forall i :: 0 <= i < |a| ==> p[i] == a[i])
      && (forall i :: |a| < i < |p| - 1 ==> p[i] == c[i - |a| - 1])
  {
  }

  /**
   * Every existing window is given permission to close before the applications are closed,
   * the applications are closed before any window is, and the desktop is torn down last.
   */
  lemma ShutdownOrder(present: set<Window>)
    ensures var p := ShutdownPlan(present);
            var k := |PermissionSteps(present)|;
            && k < |p| - 1 && p[k] == CloseAllApplications
            && (forall i :: 0 <= i < k ==> p[i].AllowClosing?)
            && (forall i :: k < i < |p| - 1 ==> p[i].CloseWindow?)
            && p[|p| - 1] == DesktopCleanup
  {
    var a, c := PermissionSteps(present), ClosingSteps(present);
    PermissionStepsShape(present);
    ClosingStepsShape(present);
    SplitAt4(a, CloseAllApplications, c, DesktopCleanup);
  }

  /** Exactly the windows that exist are given permission to close, and exactly they are closed. */
  lemma ShutdownCoversWindows(present: set<Window>)
    ensures forall w :: AllowClosing(w) in ShutdownPlan(present) <==> w in present
    ensures forall w :: CloseWindow(w) in ShutdownPlan(present) <==> w in present
  {
    forall w ensures AllowClosing(w) in ShutdownPlan(present) <==> w in present {
      ShutdownCoversWindow(present, w);
    }
    forall w ensures CloseWindow(w) in ShutdownPlan(present) <==> w in present {
      ShutdownCoversWindow(present, w);
    }
  }

  /** One window is given permission to close, and is closed, exactly when it exists. */
  lemma ShutdownCoversWindow(present: set<Window>, w: Window)
    ensures AllowClosing(w) in ShutdownPlan(present) <==> w in present
    ensures CloseWindow(w) in ShutdownPlan(present) <==> w in present
  {
    var a, c := PermissionSteps(present), ClosingSteps(present);
    InConcat4(a, CloseAllApplications, c, DesktopCleanup, AllowClosing(w));
    InConcat4(a, CloseAllApplications, c, DesktopCleanup, CloseWindow(w));
    var m, x, h := When(AppManager in present, AllowClosing(AppManager)), When(AiChat in present, AllowClosing(AiChat)),
                   When(Header in present, AllowClosing(Header));
    InConcat3(m, x, h, AllowClosing(w));
    InConcat3(m, x, h, CloseWindow(w));
    var m', x', h' := When(AppManager in present, CloseWindow(AppManager)), When(AiChat in present, CloseWindow(AiChat)),
                      When(Header in present, CloseWindow(Header));
    InConcat3(m', x', h', AllowClosing(w));
    InConcat3(m', x', h', CloseWindow(w));
  }

  lemma InConcat3<T>(p: seq<T>, q: seq<T>, r: seq<T>, e: T)
    ensures e in p + q + r <==> e in p || e in q || e in r
  {
  }

  lemma InConcat4<T>(a: seq<T>, x: T, c: seq<T>, y: T, e: T)
    ensures e in a + [x] + c + [y] <==> e in a || e == x || e in c || e == y
  {
  }

  lemma PermissionStepsShape(present: set<Window>)
    ensures forall i :: 0 <= i < |PermissionSteps(present)| ==> PermissionSteps(present)[i].AllowClosing?
    ensures forall w :: AllowClosing(w) in PermissionSteps(present) <==> w in present
  {
    forall w ensures AllowClosing(w) in PermissionSteps(present) <==> w in present {
      assert w == AppManager || w == AiChat || w == Header;
    }
  }

  lemma ClosingStepsShape(present: set<Window>)
    ensures forall i :: 0 <= i < |ClosingSteps(present)| ==> ClosingSteps(present)[i].CloseWindow?
    ensures forall w :: CloseWindow(w) in ClosingSteps(present) <==> w in present
  {
    forall w ensures CloseWindow(w) in ClosingSteps(present) <==> w in present {
      assert w == AppManager || w == AiChat || w == Header;
    }
  }

  class LockInApp {
    var cleanupCalled: bool
    var windows: set<Window>
    var log: seq<Step>

    /** `__init__`: the managers exist, no window yet, cleanup not run. */
    constructor ()
      ensures !cleanupCalled && windows == {} && log == []
    {
      cleanupCalled, windows, log := false, {}, [];
    }

    /**
     * One `if hasattr(...)` step of the shutdown sequence, inside the handler: it runs when its
     * guard holds and no earlier step threw. `done` is the part of the plan already passed.
     */
    method Guarded(guard: bool, s: Step, raises: Step -> bool, raisedBefore: bool,
                   ghost done: seq<Step>, ghost next: seq<Step>, ghost base: seq<Step>) returns (raised: bool)
      requires log == base + Attempted(done, raises)
      requires raisedBefore <==> !NoRaise(done, raises)
      requires next == done + When(guard, s)
      modifies this`log
      ensures log == base + Attempted(next, raises)
      ensures raised <==> !NoRaise(next, raises)
    {
      AttemptedConcat(done, When(guard, s), raises);
      NoRaiseConcat(done, When(guard, s), raises);
      AttemptedStopsAtFirstRaise(done, raises);
      raised := raisedBefore;
      if !raisedBefore && guard {
        log := log + [s];
        raised := raises(s);
      }
    }

    /** Step 1: `allow_closing` on every window that exists. */
    method GrantClosing(raises: Step -> bool) returns (raised: bool)
      modifies this`log
      ensures log == old(log) + Attempted(PermissionSteps(windows), raises)
      ensures raised <==> !NoRaise(PermissionSteps(windows), raises)
    {
      ghost var base := log;
      ghost var p1 := When(AppManager in windows, AllowClosing(AppManager));
      ghost var p2 := p1 + When(AiChat in windows, AllowClosing(AiChat));
      assert log == base + Attempted([], raises);
      assert p1 == [] + p1;
      raised := Guarded(AppManager in windows, AllowClosing(AppManager), raises, false, [], p1, base);
      raised := Guarded(AiChat in windows, AllowClosing(AiChat), raises, raised, p1, p2, base);
      raised := Guarded(Header in windows, AllowClosing(Header), raises, raised, p2, PermissionSteps(windows), base);
    }

    /** Steps 3 and 4: `close` on every window that exists, floating windows first. */
    method CloseWindows(raises: Step -> bool, raisedBefore: bool, ghost done: seq<Step>, ghost next: seq<Step>,
                        ghost base: seq<Step>) returns (raised: bool)
      requires log == base + Attempted(done, raises)
      requires raisedBefore <==> !NoRaise(done, raises)
      requires next == done + ClosingSteps(windows)
      modifies this`log
      ensures log == base + Attempted(next, raises)
      ensures raised <==> !NoRaise(next, raises)
    {
      ghost var w1 := When(AppManager in windows, CloseWindow(AppManager));
      ghost var w2 := When(AiChat in windows, CloseWindow(AiChat));
      ghost var w3 := When(Header in windows, CloseWindow(Header));
      ghost var p1 := done + w1;
      ghost var p2 := p1 + w2;
      AppendThree(done, w1, w2, w3);
      raised := Guarded(AppManager in windows, CloseWindow(AppManager), raises, raisedBefore, done, p1, base);
      raised := Guarded(AiChat in windows, CloseWindow(AiChat), raises, raised, p1, p2, base);
      raised := Guarded(Header in windows, CloseWindow(Header), raises, raised, p2, next, base);
    }

    /**
     * `cleanup`: a second call returns at once; the first runs the shutdown sequence, stops
     * at the first step that throws, schedules the quit and returns True in every case.
     */
    method Cleanup(raises: Step -> bool) returns (ok: bool)
      modifies this`log, this`cleanupCalled
      ensures ok && cleanupCalled
      ensures old(cleanupCalled) ==> log == old(log)
      ensures !old(cleanupCalled) ==>
                log == old(log) + Attempted(ShutdownPlan(windows), raises) + [ScheduleQuit]
    {
      if cleanupCalled {
        return true;
      }
      cleanupCalled := true;
      ghost var base := log;
      ghost var p1 := PermissionSteps(windows);
      ghost var p2 := p1 + [CloseAllApplications];
      ghost var p3 := p2 + ClosingSteps(windows);
      var raised := GrantClosing(raises);
      raised := Guarded(true, CloseAllApplications, raises, raised, p1, p2, base);
      raised := CloseWindows(raises, raised, p2, p3, base);
      raised := Guarded(true, DesktopCleanup, raises, raised, p3, ShutdownPlan(windows), base);
      log := log + [ScheduleQuit];
      ok := true;
    }

    /** `signal_handler`: clean up unless that already happened, then quit. */
    method SignalHandler(raises: Step -> bool)
      modifies this`log, this`cleanupCalled
      ensures cleanupCalled
      ensures old(cleanupCalled) ==> log == old(log) + [Quit]
      ensures !old(cleanupCalled) ==>
                log == old(log) + Attempted(ShutdownPlan(windows), raises) + [ScheduleQuit] + [Quit]
    {
      if !cleanupCalled {
        var _ := Cleanup(raises);
      }
      log := log + [Quit];
    }

    /** `cleanup_and_exit`, wired to the header's close button: clean up, then quit. */
    method CleanupAndExit(raises: Step -> bool)
      modifies this`log, this`cleanupCalled
      ensures cleanupCalled
      ensures old(cleanupCalled) ==> log == old(log) + [Quit]
      ensures !old(cleanupCalled) ==>
                log == old(log) + Attempted(ShutdownPlan(windows), raises) + [ScheduleQuit] + [Quit]
    {
      var ok := Cleanup(raises);
      if ok {
        log := log + [Quit];
      }
    }

    /**
     * The desktop step and `create_windows` up to the window whose construction threw: the
     * steps logged and the windows that now exist.
     */
    static method CreateWindows(built: nat) returns (steps: seq<Step>, made: set<Window>)
      requires built <= 3
      ensures steps == BuildSteps(built) && made == Created(built)
    {
      steps, made := [CreateVirtualDesktop], {};
      if built >= 1 {
        steps, made := steps + [CreateWindow(Header)], made + {Header};
      }
      if built >= 2 {
        steps, made := steps + [CreateWindow(AppManager)], made + {AppManager};
      }
      if built >= 3 {
        steps, made := steps + [CreateWindow(AiChat)], made + {AiChat};
      }
      BuildTable();
    }

    /**
     * `run`: the desktop is created first and its failure is only reported (`desktopOk` does
     * not matter); `built` windows are created, and when building them throws the
     * application cleans up and exits with 1, otherwise it runs the event loop.
     */
    method Run(desktopOk: bool, buildFailure: Option<nat>, raises: Step -> bool, exitCode: int)
      returns (code: int)
      modifies this
      ensures buildFailure.None? ==> code == exitCode && log == old(log) + BuildSteps(3) + [RunEventLoop]
      ensures buildFailure.Some? ==> code == 1 && cleanupCalled
      ensures buildFailure.Some? && !old(cleanupCalled) ==>
                var built := Built(buildFailure.value);
                log == old(log) + BuildSteps(built)
                       + Attempted(ShutdownPlan(old(windows) + Created(built)), raises) + [ScheduleQuit]
    {
      var built := if buildFailure.Some? then Built(buildFailure.value) else 3;
      var steps, made := CreateWindows(built);
      log, windows := log + steps, windows + made;
      if buildFailure.Some? {
        var _ := Cleanup(raises);
        return 1;
      }
      log := log + [RunEventLoop];
      code := exitCode;
    }
  }

  /** Appending three parts one after another. */
  lemma AppendThree(done: seq<Step>, x: seq<Step>, y: seq<Step>, z: seq<Step>)
    ensures done + (x + y + z) == done + x + y + z
  {
  }

  /** The steps and windows of each possible build. */
  lemma BuildTable()
    ensures BuildSteps(0) == [CreateVirtualDesktop] && Created(0) == {}
    ensures BuildSteps(1) == [CreateVirtualDesktop, CreateWindow(Header)] && Created(1) == {Header}
    ensures BuildSteps(2) == [CreateVirtualDesktop, CreateWindow(Header), CreateWindow(AppManager)]
            && Created(2) == {Header, AppManager}
    ensures BuildSteps(3) == [CreateVirtualDesktop, CreateWindow(Header), CreateWindow(AppManager), CreateWindow(AiChat)]
            && Created(3) == {Header, AppManager, AiChat}
  {
    assert BuildOrder[0] == Header && BuildOrder[1] == AppManager && BuildOrder[2] == AiChat;
  }

  /** The number of windows assigned before building threw after `n` of them. */
  function Built(n: nat): (r: nat)
    ensures r <= 3
  {
    if n < 3 then n else 3
  }

  function Created(n: nat): (r: set<Window>)
    requires n <= 3
    ensures forall w :: w in r <==> exists i :: 0 <= i < n && BuildOrder[i] == w
  {
    set i | 0 <= i < n :: BuildOrder[i]
  }

  /** The desktop is created first, then the windows in build order. */
  function BuildSteps(n: nat): (r: seq<Step>)
    requires n <= 3
    ensures |r| == n + 1 && r[0] == CreateVirtualDesktop
    ensures forall i :: 0 <= i < n ==> r[i + 1] == CreateWindow(BuildOrder[i])
  {
    if n == 0 then [CreateVirtualDesktop] else BuildSteps(n - 1) + [CreateWindow(BuildOrder[n - 1])]
  }
}
