/**
 * The registry of launched applications (`ProcessManager` in src/core/process_manager.py).
 *
 * Every operating-system and psutil query is an oracle argument; the calls that change
 * the outside world (spawning, posting WM_CLOSE, terminating, showing windows) are
 * appended to `log` in the order they are made.
 */
module ProcessManagement {
  import opened Wrappers
  import opened Text
  import opened Os
  import opened OrderedKeys

  /** One launched application; `hasHandle` says whether the `Popen` handle was kept. */
  datatype ManagedApp = ManagedApp(
    name: string,
    pid: Pid,
    mainWindow: Option<Hwnd>,
    windows: seq<Hwnd>,
    launchTime: real,
    hasHandle: bool)

  datatype ShowCommand = Minimize | Restore

  /** A call into the operating system that changes something outside the manager. */
  datatype Action =
    | Spawn(command: seq<string>)
    | PostClose(window: Hwnd)
    | Terminate(pid: Pid)
    | Kill(pid: Pid)
    | TerminateHandle(pid: Pid)
    | ShowWindow(window: Hwnd, show: ShowCommand)
    | SetForeground(window: Hwnd)

  // ------------------------------------------------------------------------------------
  // Launching
  // ------------------------------------------------------------------------------------

  /** What happens when `subprocess.Popen` is asked to start the command. */
  datatype LaunchObservation =
    | BinaryMissing
    | SpawnRaised
    | Spawned(pid: Pid, exitedAtPoll: bool, knownToPsutil: bool)

  predicate IsSeparator(c: char) {
    c == '/' || c == '\\'
  }

  /** The part of `p` after its last path separator. */
  function AfterLastSeparator(p: string): (r: string)
    ensures |r| <= |p| && r == p[|p| - |r|..]
    ensures forall i :: 0 <= i < |r| ==> !IsSeparator(r[i])
    ensures |r| < |p| ==> IsSeparator(p[|p| - |r| - 1])
  {
    if p == [] then []
    else if IsSeparator(p[|p| - 1]) then []
    else AfterLastSeparator(p[..|p| - 1]) + [p[|p| - 1]]
  }

  /** `os.path.basename` on Windows paths: the drive prefix and every directory are dropped. */
  function Basename(path: string): (r: string)
    ensures forall i :: 0 <= i < |r| ==> !IsSeparator(r[i])
  {
    AfterLastSeparator(if |path| >= 2 && path[1] == ':' then path[2..] else path)
  }

  /**
   * The root returned by `os.path.splitext`: the name without its last extension, where
   * dots that only lead the name do not start an extension.
   */
  function SplitExtRoot(b: string): (r: string)
    ensures r <= b
    ensures r != b ==> b[|r|] == '.' && forall i :: |r| < i < |b| ==> b[i] != '.'
    ensures r != b ==> exists i :: 0 <= i < |r| && r[i] != '.'
  {
    var d := RFind(b, ".");
    if d > 0 && exists i :: 0 <= i < d && b[i] != '.' then
      assert OccursAt(b, d, ".");
      assert b[d] == '.';
      forall i | d < i < |b| ensures b[i] != '.' {
        if b[i] == '.' {
          assert b[i..i + 1] == ".";
          assert OccursAt(b, i, ".");
        }
      }
      b[..d]
    else b
  }

  /** The name an application gets when none is given: its file name without extension. */
  function DefaultName(path: string): (r: string)
    ensures forall i :: 0 <= i < |r| ==> !IsSeparator(r[i])
    ensures r <= Basename(path)
  {
    var b := Basename(path);
    var r := SplitExtRoot(b);
    assert r == b[..|r|];
    r
  }

  /** The name recorded for a launch: the given one unless it is missing or empty. */
  function LaunchName(path: string, appName: Option<string>): (r: string)
    ensures appName.Some? && appName.value != [] ==> r == appName.value
    ensures appName.None? || appName.value == [] ==> r == DefaultName(path)
  {
    if appName.Some? && appName.value != [] then appName.value else DefaultName(path)
  }

  /** The registry key `f"{name}_{pid}"`. */
  function AppId(name: string, pid: Pid): (r: string)
    ensures |r| > |name| + 1 && r[..|name|] == name && r[|name|] == '_'
    ensures r[|name| + 1..] == NatToString(pid)
  {
    name + "_" + NatToString(pid)
  }

  /** Every launch spawns the path followed by its arguments. */
  function LaunchCommand(path: string, args: seq<string>): (r: seq<string>)
    ensures |r| == |args| + 1 && r[0] == path && r[1..] == args
  {
    [path] + args
  }

  /** A launch succeeds exactly when the process was spawned, was still alive at the poll and psutil knows it. */
  predicate LaunchSucceeds(obs: LaunchObservation) {
    obs.Spawned? && !obs.exitedAtPoll && obs.knownToPsutil
  }

  // ------------------------------------------------------------------------------------
  // Window discovery
  // ------------------------------------------------------------------------------------

  const DiscoveryAttempts: nat := 15
  const EarlyDeathTolerance: nat := 5
  const SkipClasses: seq<string> := ["IME", "MSCTFIME UI", "Default IME", "tooltips_class32"]
  const SkipTitles: seq<string> := ["", "Program Manager", "Desktop Window Manager"]
  const FinalSkipClasses: seq<string> := ["IME", "MSCTFIME UI", "Default IME"]

  /** A window the regular discovery pass keeps for an app whose process tree is `targets`. */
  predicate Accepted(w: WindowInfo, targets: seq<Pid>) {
    w.readable && w.isWindow && w.visible && w.ownerPid in targets
    && w.className !in SkipClasses && w.title !in SkipTitles
  }

  /** A title meaningful enough for the main window: more than one character. */
  predicate Titled(w: WindowInfo) {
    |w.title| > 1
  }

  /** The handles of the accepted windows, in enumeration order. */
  function AcceptedWindows(ws: seq<WindowInfo>, targets: seq<Pid>): (r: seq<Hwnd>)
    ensures |r| <= |ws|
    ensures forall i :: 0 <= i < |ws| && Accepted(ws[i], targets) ==> ws[i].hwnd in r
    ensures forall h :: h in r ==> exists i :: 0 <= i < |ws| && Accepted(ws[i], targets) && ws[i].hwnd == h
  {
    if ws == [] then []
    else
      var init := AcceptedWindows(ws[..|ws| - 1], targets);
      var w := ws[|ws| - 1];
      assert forall i :: 0 <= i < |ws| - 1 ==> ws[..|ws| - 1][i] == ws[i];
      if Accepted(w, targets) then init + [w.hwnd] else init
  }

  /** The first accepted window with a meaningful title, if any. */
  function FirstTitled(ws: seq<WindowInfo>, targets: seq<Pid>): (r: Option<Hwnd>)
    ensures r.None? ==> forall i :: 0 <= i < |ws| && Accepted(ws[i], targets) ==> !Titled(ws[i])
    ensures r.Some? ==> exists i :: 0 <= i < |ws| && Accepted(ws[i], targets) && Titled(ws[i]) && ws[i].hwnd == r.value
  {
    if ws == [] then None
    else
      var init := FirstTitled(ws[..|ws| - 1], targets);
      var w := ws[|ws| - 1];
      assert forall i :: 0 <= i < |ws| - 1 ==> ws[..|ws| - 1][i] == ws[i];
      if init.Some? then init
      else if Accepted(w, targets) && Titled(w) then Some(w.hwnd)
      else None
  }

  /** The first-match part of `FirstTitled`: no accepted, titled window comes before the chosen one. */
  lemma {:induction false} FirstTitledIsFirst(ws: seq<WindowInfo>, targets: seq<Pid>, j: nat)
    requires j < |ws| && Accepted(ws[j], targets) && Titled(ws[j])
    ensures FirstTitled(ws, targets).Some?
    ensures FirstTitled(ws, targets) == FirstTitled(ws[..j + 1], targets)
    decreases |ws|
  {
    if j < |ws| - 1 {
      var init := ws[..|ws| - 1];
      assert init[j] == ws[j];
      FirstTitledIsFirst(init, targets, j);
      assert init[..j + 1] == ws[..j + 1];
    } else {
      assert ws[..j + 1] == ws;
    }
  }

  /** The main window: the first titled accepted window, else the first accepted window. */
  function ChooseMain(ws: seq<WindowInfo>, targets: seq<Pid>, accepted: seq<Hwnd>): (r: Hwnd)
    requires accepted == AcceptedWindows(ws, targets) && accepted != []
    ensures r in accepted
    ensures FirstTitled(ws, targets).None? ==> r == accepted[0]
  {
    match FirstTitled(ws, targets)
    case Some(h) => h
    case None => accepted[0]
  }

  /** The broader match of the last pass, on the lower-cased app name. */
  predicate FinalMatch(w: WindowInfo, nameLower: string) {
    var titleLower := Lower(w.title);
    w.readable && w.isWindow && w.visible
    && ((nameLower == "notepad" && (w.className == "Notepad" || Contains(titleLower, "notepad")))
        || (Contains(titleLower, nameLower) && |w.title| > 1 && w.className !in FinalSkipClasses))
  }

  function FinalWindows(ws: seq<WindowInfo>, nameLower: string): (r: seq<Hwnd>)
    ensures |r| <= |ws|
    ensures forall i :: 0 <= i < |ws| && FinalMatch(ws[i], nameLower) ==> ws[i].hwnd in r
    ensures forall h :: h in r ==> exists i :: 0 <= i < |ws| && FinalMatch(ws[i], nameLower) && ws[i].hwnd == h
  {
    if ws == [] then []
    else
      var init := FinalWindows(ws[..|ws| - 1], nameLower);
      var w := ws[|ws| - 1];
      assert forall i :: 0 <= i < |ws| - 1 ==> ws[..|ws| - 1][i] == ws[i];
      if FinalMatch(w, nameLower) then init + [w.hwnd] else init
  }

  /**
   * What the discovery thread observes, attempt by attempt: `is_running()`, the recursive
   * children (None when listing them raised) and the window list (None when EnumWindows
   * raised); `finalWindows` is what the last pass enumerates.
   */
  datatype DiscoveryEnv = DiscoveryEnv(
    status: nat -> ProcStatus,
    children: nat -> Option<seq<Pid>>,
    windows: nat -> Option<seq<WindowInfo>>,
    finalWindows: Option<seq<WindowInfo>>)

  datatype Discovery =
    | Found(attempt: nat, windows: seq<Hwnd>, main: Hwnd)
    | FoundByTitle(windows: seq<Hwnd>, main: Hwnd)
    | Died(attempt: nat)
    | NothingFound

  datatype Step = Continue | Stop(outcome: Discovery)

  /** The process tree searched for windows: the app's pid, then its children when they could be listed. */
  function Targets(pid: Pid, children: Option<seq<Pid>>): (r: seq<Pid>)
    ensures |r| >= 1 && r[0] == pid && forall c :: children.Some? && c in children.value ==> c in r
  {
    [pid] + children.GetOr([])
  }

  /** One iteration of the retry loop (attempt `k`, counting from 0). */
  function Attempt(pid: Pid, env: DiscoveryEnv, k: nat): Step {
    match env.status(k)
    case NotRunning => if k < EarlyDeathTolerance then Continue else Stop(Died(k))
    case Inaccessible => Continue
    case Running =>
      var targets := Targets(pid, env.children(k));
      match env.windows(k)
      case None => Continue
      case Some(ws) =>
        var accepted := AcceptedWindows(ws, targets);
        if accepted == [] then Continue else Stop(Found(k, accepted, ChooseMain(ws, targets, accepted)))
  }

  /** The last pass, run only when every attempt went on to the next one. */
  function FinalPass(name: string, env: DiscoveryEnv): Discovery {
    var found := FinalWindows(env.finalWindows.GetOr([]), Lower(name));
    if found == [] then NothingFound else FoundByTitle(found, found[0])
  }

  /** The outcome of discovery from attempt `k` on. */
  function DiscoverFrom(pid: Pid, name: string, env: DiscoveryEnv, k: nat): Discovery
    decreases DiscoveryAttempts - k
  {
    if k >= DiscoveryAttempts then FinalPass(name, env)
    else match Attempt(pid, env, k)
      case Stop(d) => d
      case Continue => DiscoverFrom(pid, name, env, k + 1)
  }

  /** A loop that stops early stops at an attempt from `k` on, and for a reason the attempt shows. */
  lemma {:induction false} DiscoverFromStops(pid: Pid, name: string, env: DiscoveryEnv, k: nat)
    ensures var d := DiscoverFrom(pid, name, env, k);
      && (d.Found? ==> k <= d.attempt < DiscoveryAttempts && env.status(d.attempt) == Running
                        && d.windows != [] && d.main in d.windows)
      && (d.Died? ==> k <= d.attempt < DiscoveryAttempts && EarlyDeathTolerance <= d.attempt
                       && env.status(d.attempt) == NotRunning)
      && (d.FoundByTitle? ==> d.windows != [] && d.main == d.windows[0])
    decreases DiscoveryAttempts - k
  {
    if k >= DiscoveryAttempts {
      FinalPassShape(name, env);
    } else if Attempt(pid, env, k).Stop? {
      AttemptStops(pid, env, k);
    } else {
      DiscoverFromStops(pid, name, env, k + 1);
    }
  }

  /** Every attempt from `k` on, with outcomes `steps`, goes on to the next. */
  ghost predicate ContinuesFrom(steps: nat -> Step, k: nat)
    decreases DiscoveryAttempts - k
  {
    k >= DiscoveryAttempts || (steps(k) == Continue && ContinuesFrom(steps, k + 1))
  }

  lemma {:induction false} ContinuesFromAll(steps: nat -> Step, k: nat)
    requires ContinuesFrom(steps, k)
    ensures forall j :: k <= j < DiscoveryAttempts ==> steps(j) == Continue
    decreases DiscoveryAttempts - k
  {
    if k < DiscoveryAttempts {
      ContinuesFromAll(steps, k + 1);
    }
  }

  /** The outcomes of the attempts of one discovery. */
  ghost function Attempts(pid: Pid, env: DiscoveryEnv): nat -> Step {
    (j: nat) => Attempt(pid, env, j)
  }

  /** The title-match pass is reached only when every attempt from `k` on went on to the next. */
  lemma {:induction false} DiscoverFromFinal(pid: Pid, name: string, env: DiscoveryEnv, k: nat)
    ensures var d := DiscoverFrom(pid, name, env, k);
      d.FoundByTitle? || d.NothingFound? ==> ContinuesFrom(Attempts(pid, env), k)
    decreases DiscoveryAttempts - k
  {
    if k < DiscoveryAttempts {
      if Attempt(pid, env, k).Stop? {
        AttemptStops(pid, env, k);
      } else {
        DiscoverFromFinal(pid, name, env, k + 1);
      }
    }
  }

  /** What an attempt that stops the loop reports. */
  lemma AttemptStops(pid: Pid, env: DiscoveryEnv, k: nat)
    requires Attempt(pid, env, k).Stop?
    ensures var d := Attempt(pid, env, k).outcome;
      && (d.Found? || d.Died?)
      && (d.Found? ==> d.attempt == k && env.status(k) == Running && d.windows != [] && d.main in d.windows)
      && (d.Died? ==> d.attempt == k && EarlyDeathTolerance <= k && env.status(k) == NotRunning)
  {
  }

  /** The title-match pass reports its first window as the main one. */
  lemma FinalPassShape(name: string, env: DiscoveryEnv)
    ensures var d := FinalPass(name, env);
      && (d.FoundByTitle? || d.NothingFound?)
      && (d.FoundByTitle? ==> d.windows != [] && d.main == d.windows[0])
  {
  }

  /**
   * Discovery makes at most 15 attempts, tolerates a dead process only while the attempt
   * index is below 5, reports a main window among the windows it found, and reaches the
   * title-match pass only when no attempt found anything.
   */
  lemma DiscoveryBounds(pid: Pid, name: string, env: DiscoveryEnv)
    ensures var d := DiscoverFrom(pid, name, env, 0);
      && (d.Found? ==> d.attempt < DiscoveryAttempts && d.windows != [] && d.main in d.windows)
      && (d.Died? ==> EarlyDeathTolerance <= d.attempt < DiscoveryAttempts)
      && (d.FoundByTitle? || d.NothingFound? ==> forall j :: 0 <= j < DiscoveryAttempts ==> Attempt(pid, env, j) == Continue)
      && (d.FoundByTitle? ==> d.windows != [] && d.main == d.windows[0])
  {
    DiscoverFromStops(pid, name, env, 0);
    DiscoverFromFinal(pid, name, env, 0);
    var d := DiscoverFrom(pid, name, env, 0);
    if d.FoundByTitle? || d.NothingFound? {
      var steps := Attempts(pid, env);
      ContinuesFromAll(steps, 0);
      forall j | 0 <= j < DiscoveryAttempts ensures Attempt(pid, env, j) == Continue {
        assert steps(j) == Continue;
      }
    }
  }

  /** One EnumWindows pass of the regular attempt: the accepted windows and the first titled one. */
  method ScanWindows(ws: seq<WindowInfo>, targets: seq<Pid>) returns (windows: seq<Hwnd>, main: Option<Hwnd>)
    ensures windows == AcceptedWindows(ws, targets)
    ensures main == FirstTitled(ws, targets)
  {
    windows, main := [], None;
    for i := 0 to |ws|
      invariant windows == AcceptedWindows(ws[..i], targets)
      invariant main == FirstTitled(ws[..i], targets)
    {
      assert ws[..i + 1][..i] == ws[..i];
      var w := ws[i];
      if Accepted(w, targets) {
        windows := windows + [w.hwnd];
        if Titled(w) && main.None? {
          main := Some(w.hwnd);
        }
      }
    }
    assert ws[..|ws|] == ws;
  }

  /** The EnumWindows pass of the final attempt. */
  method ScanByTitle(ws: seq<WindowInfo>, nameLower: string) returns (found: seq<Hwnd>)
    ensures found == FinalWindows(ws, nameLower)
  {
    found := [];
    for i := 0 to |ws|
      invariant found == FinalWindows(ws[..i], nameLower)
    {
      assert ws[..i + 1][..i] == ws[..i];
      if FinalMatch(ws[i], nameLower) {
        found := found + [ws[i].hwnd];
      }
    }
    assert ws[..|ws|] == ws;
  }

  /** One attempt of the retry loop: go on to the next attempt, or stop with an outcome. */
  method TryAttempt(pid: Pid, env: DiscoveryEnv, attempt: nat) returns (step: Step)
    ensures step == Attempt(pid, env, attempt)
  {
    var status := env.status(attempt);
    if status == NotRunning {
      if attempt < EarlyDeathTolerance {
        return Continue;
      }
      return Stop(Died(attempt));
    }
    if status == Inaccessible {
      return Continue;
    }
    var targets := Targets(pid, env.children(attempt));
    var listing := env.windows(attempt);
    if listing.None? {
      return Continue;
    }
    var windows, main := ScanWindows(listing.value, targets);
    if windows != [] {
      return Stop(Found(attempt, windows, if main.Some? then main.value else windows[0]));
    }
    return Continue;
  }

  /** The retry loop of the discovery thread. */
  method DiscoverWindows(pid: Pid, name: string, env: DiscoveryEnv) returns (d: Discovery)
    ensures d == DiscoverFrom(pid, name, env, 0)
  {
    var attempt: nat := 0;
    while attempt < DiscoveryAttempts
      invariant attempt <= DiscoveryAttempts
      invariant DiscoverFrom(pid, name, env, attempt) == DiscoverFrom(pid, name, env, 0)
      decreases DiscoveryAttempts - attempt
    {
      var step := TryAttempt(pid, env, attempt);
      if step.Stop? {
        return step.outcome;
      }
      attempt := attempt + 1;
    }
    var found := ScanByTitle(env.finalWindows.GetOr([]), Lower(name));
    if found != [] {
      return FoundByTitle(found, found[0]);
    }
    return NothingFound;
  }

  /** The registry entry after discovery: only a successful outcome changes its windows. */
  function WithDiscovery(app: ManagedApp, d: Discovery): (r: ManagedApp)
    ensures r.name == app.name && r.pid == app.pid && r.launchTime == app.launchTime && r.hasHandle == app.hasHandle
    ensures (d.Found? || d.FoundByTitle?) ==> r.windows == d.windows && r.mainWindow == Some(d.main)
    ensures (d.Died? || d.NothingFound?) ==> r == app
  {
    match d
    case Found(_, ws, m) => app.(windows := ws, mainWindow := Some(m))
    case FoundByTitle(ws, m) => app.(windows := ws, mainWindow := Some(m))
    case _ => app
  }

  // ------------------------------------------------------------------------------------
  // Pruning, information and queries
  // ------------------------------------------------------------------------------------

  const GracePeriod: real := 30.0

  /**
   * An entry `_cleanup_dead_processes` removes: at least 30 seconds old, and its process is
   * not running, its launch handle has exited, or psutil cannot reach it.
   */
  predicate IsDead(app: ManagedApp, now: real, status: Pid -> ProcStatus, handleExited: Pid -> bool) {
    now - app.launchTime >= GracePeriod
    && (status(app.pid) != Running || (app.hasHandle && handleExited(app.pid)))
  }

  /** The windows of an app that are still valid: its main window first, then the others. */
  function ValidWindows(app: ManagedApp, isWindow: Hwnd -> bool): (r: seq<Hwnd>)
    ensures forall h :: h in r ==> isWindow(h) && (h in app.windows || Some(h) == app.mainWindow)
    ensures forall i :: 0 < i < |r| ==> Some(r[i]) != app.mainWindow
    ensures app.mainWindow.Some? && isWindow(app.mainWindow.value) ==> r != [] && Some(r[0]) == app.mainWindow
  {
    (if app.mainWindow.Some? && isWindow(app.mainWindow.value) then [app.mainWindow.value] else [])
    + OtherWindows(app.windows, app.mainWindow, isWindow)
  }

  /** The valid windows of `ws` other than `main`, in order. */
  function OtherWindows(ws: seq<Hwnd>, main: Option<Hwnd>, isWindow: Hwnd -> bool): (r: seq<Hwnd>)
    ensures forall h :: h in r <==> h in ws && Some(h) != main && isWindow(h)
  {
    if ws == [] then []
    else
      var init := OtherWindows(ws[..|ws| - 1], main, isWindow);
      var h := ws[|ws| - 1];
      assert forall x :: x in ws <==> x in ws[..|ws| - 1] || x == h;
      if Some(h) != main && isWindow(h) then init + [h] else init
  }

  /** The windows `get_all_managed_windows` reports for the apps `ids`, running apps only. */
  function ManagedWindows(ids: seq<string>, apps: map<string, ManagedApp>, status: Pid -> ProcStatus,
                          isWindow: Hwnd -> bool): (r: seq<Hwnd>)
    requires forall id :: id in ids ==> id in apps
  {
    if ids == [] then []
    else
      var init := ids[..|ids| - 1];
      var app := apps[ids[|ids| - 1]];
      assert forall id :: id in init ==> id in ids;
      ManagedWindows(init, apps, status, isWindow)
      + (if status(app.pid) == Running then ValidWindows(app, isWindow) else [])
  }

  /** Every reported window is valid and belongs to a running app of `ids`. */
  lemma {:induction false} ManagedWindowsSound(ids: seq<string>, apps: map<string, ManagedApp>,
                                               status: Pid -> ProcStatus, isWindow: Hwnd -> bool, h: Hwnd)
    requires forall id :: id in ids ==> id in apps
    requires h in ManagedWindows(ids, apps, status, isWindow)
    ensures isWindow(h)
    ensures exists id :: id in ids && status(apps[id].pid) == Running
                         && (h in apps[id].windows || apps[id].mainWindow == Some(h))
  {
    var init := ids[..|ids| - 1];
    var last := ids[|ids| - 1];
    assert forall id :: id in init ==> id in ids;
    if h in ManagedWindows(init, apps, status, isWindow) {
      ManagedWindowsSound(init, apps, status, isWindow, h);
    } else {
      assert last in ids;
    }
  }

  /** The information `get_application_info` returns about the process. */
  datatype ProcessInfo = ProcessInfo(pid: Pid, name: string, status: string)

  datatype AppInfo = AppInfo(
    appId: string,
    name: string,
    launchTime: real,
    uptime: real,
    mainWindow: Option<Hwnd>,
    windowCount: nat,
    processInfo: ProcessInfo)

  /** The record for an unreachable process. */
  function DeadProcessInfo(app: ManagedApp): (r: ProcessInfo)
    ensures r.pid == app.pid && r.name == app.name && r.status == "dead"
  {
    ProcessInfo(app.pid, app.name, "dead")
  }

  // ------------------------------------------------------------------------------------
  // Closing
  // ------------------------------------------------------------------------------------

  /**
   * What `close_application` observes: whether the main window is still a window,
   * whether posting WM_CLOSE raised, `is_running()` after the grace sleep, whether the
   * process exits within the wait, and whether the launch handle is still running.
   */
  datatype CloseObservation = CloseObservation(
    mainIsWindow: bool,
    postRaises: bool,
    status: ProcStatus,
    exitsInTime: bool,
    handleRunning: bool)

  /** Whether the main window gets a WM_CLOSE. */
  predicate PostsToMain(app: ManagedApp, obs: CloseObservation) {
    app.mainWindow.Some? && obs.mainIsWindow
  }

  /** `close_application` fails only when posting to the main window raised. */
  predicate CloseFails(app: ManagedApp, obs: CloseObservation) {
    PostsToMain(app, obs) && obs.postRaises
  }

  function HandleActions(app: ManagedApp, handleRunning: bool): (r: seq<Action>)
    ensures r == [] || r == [TerminateHandle(app.pid)]
  {
    if app.hasHandle && handleRunning then [TerminateHandle(app.pid)] else []
  }

  /** The calls `close_application` makes on a registered app. */
  function CloseActions(app: ManagedApp, obs: CloseObservation): (r: seq<Action>)
    ensures PostsToMain(app, obs) <==> |r| > 0 && r[0].PostClose?
    ensures PostsToMain(app, obs) ==> r[0] == PostClose(app.mainWindow.value)
    ensures CloseFails(app, obs) ==> |r| == 1
    ensures Kill(app.pid) in r ==> Terminate(app.pid) in r
  {
    var post := if PostsToMain(app, obs) then [PostClose(app.mainWindow.value)] else [];
    if CloseFails(app, obs) then post
    else
      var stop := if obs.status == Running then
                    [Terminate(app.pid)] + (if obs.exitsInTime then [] else [Kill(app.pid)])
                  else [];
      post + stop + HandleActions(app, obs.handleRunning)
  }

  /**
   * How the third pass's try block ends for one process: it had already exited, it exited
   * within the 3 s wait, it needed a kill, or `terminate` or the `kill` after the timeout raised.
   */
  datatype ForceOutcome = AlreadyExited | ExitsInTime | NeedsKill | TerminateRaises | KillRaises

  /** A force close that raised: the handler skips the handle cleanup and the deletion. */
  predicate ForceRaised(o: ForceOutcome) {
    o == TerminateRaises || o == KillRaises
  }

  datatype CloseAllEnv = CloseAllEnv(
    isWindow: Hwnd -> bool,
    postRaises: Hwnd -> bool,
    statusAfterGrace: Pid -> ProcStatus,
    force: Pid -> ForceOutcome,
    handleRunning: Pid -> bool)

  /** The first pass's posts to `targets`: one per window until a post raises. */
  function PostsSent(targets: seq<Hwnd>, postRaises: Hwnd -> bool): (r: seq<Action>)
    ensures |r| <= |targets|
    ensures forall i :: 0 <= i < |r| ==> r[i] == PostClose(targets[i])
    ensures (forall i :: 0 <= i < |targets| - 1 ==> !postRaises(targets[i])) ==> |r| == |targets|
  {
    if targets == [] then []
    else
      var init := targets[..|targets| - 1];
      if exists i :: 0 <= i < |init| && postRaises(init[i]) then PostsSent(init, postRaises)
      else PostsSent(init, postRaises) + [PostClose(targets[|targets| - 1])]
  }

  /** While no post has raised, the next window gets its post. */
  lemma PostsSentSnoc(targets: seq<Hwnd>, postRaises: Hwnd -> bool, j: nat)
    requires j < |targets| && forall k :: 0 <= k < j ==> !postRaises(targets[k])
    ensures PostsSent(targets[..j + 1], postRaises) == PostsSent(targets[..j], postRaises) + [PostClose(targets[j])]
  {
    var t := targets[..j + 1];
    assert t[..|t| - 1] == targets[..j];
    assert !exists i :: 0 <= i < j && postRaises(targets[..j][i]);
  }

  /** Once a post has raised, later windows of that app get nothing. */
  lemma {:induction false} PostsSentStops(targets: seq<Hwnd>, postRaises: Hwnd -> bool, k: nat)
    requires k < |targets| && postRaises(targets[k])
    ensures PostsSent(targets, postRaises) == PostsSent(targets[..k + 1], postRaises)
    decreases |targets|
  {
    if k < |targets| - 1 {
      var init := targets[..|targets| - 1];
      assert init[k] == targets[k];
      PostsSentStops(init, postRaises, k);
      assert init[..k + 1] == targets[..k + 1];
    } else {
      assert targets[..k + 1] == targets;
    }
  }

  /** A main window gets at most one WM_CLOSE from the first pass. */
  lemma MainPostedAtMostOnce(app: ManagedApp, env: CloseAllEnv, i: nat, j: nat)
    requires app.mainWindow.Some?
    requires var posts := PostsSent(ValidWindows(app, env.isWindow), env.postRaises);
      i < j < |posts| && posts[i] == PostClose(app.mainWindow.value)
    ensures PostsSent(ValidWindows(app, env.isWindow), env.postRaises)[j] != PostClose(app.mainWindow.value)
  {
  }

  /** Pass 3 on one app still running after the grace period. */
  function ForceActions(app: ManagedApp, env: CloseAllEnv): (r: seq<Action>)
    ensures forall a :: a in r ==> !a.PostClose?
    ensures Kill(app.pid) in r ==> |r| >= 2 && r[0] == Terminate(app.pid) && r[1] == Kill(app.pid)
    ensures ForceRaised(env.force(app.pid)) ==> Terminate(app.pid) in r && TerminateHandle(app.pid) !in r
    ensures !ForceRaised(env.force(app.pid)) ==>
              (TerminateHandle(app.pid) in r <==> app.hasHandle && env.handleRunning(app.pid))
  {
    var handle := HandleActions(app, env.handleRunning(app.pid));
    match env.force(app.pid)
    case AlreadyExited => handle
    case ExitsInTime => [Terminate(app.pid)] + handle
    case NeedsKill => [Terminate(app.pid), Kill(app.pid)] + handle
    case TerminateRaises => [Terminate(app.pid)]
    case KillRaises => [Terminate(app.pid), Kill(app.pid)]
  }

  /** An entry `close_all_applications` leaves behind: still running after the wait, and its force close raised. */
  predicate Stubborn(app: ManagedApp, env: CloseAllEnv) {
    env.statusAfterGrace(app.pid) == Running && ForceRaised(env.force(app.pid))
  }

  /** The posts of the first pass over `ids`. */
  function PostPass(ids: seq<string>, apps: map<string, ManagedApp>, env: CloseAllEnv): (r: seq<Action>)
    requires forall id :: id in ids ==> id in apps
  {
    if ids == [] then []
    else
      var init := ids[..|ids| - 1];
      assert forall id :: id in init ==> id in ids;
      PostPass(init, apps, env) + PostsSent(ValidWindows(apps[ids[|ids| - 1]], env.isWindow), env.postRaises)
  }

  /** The calls of the third pass over `ids`. */
  function ForcePass(ids: seq<string>, apps: map<string, ManagedApp>, env: CloseAllEnv): (r: seq<Action>)
    requires forall id :: id in ids ==> id in apps
  {
    if ids == [] then []
    else
      var init := ids[..|ids| - 1];
      assert forall id :: id in init ==> id in ids;
      ForcePass(init, apps, env) + ForceActions(apps[ids[|ids| - 1]], env)
  }

  /** Graceful before forced: the first pass only posts WM_CLOSE, the third never does. */
  lemma {:induction false} PassesSeparate(ids: seq<string>, apps: map<string, ManagedApp>, env: CloseAllEnv)
    requires forall id :: id in ids ==> id in apps
    ensures forall a :: a in PostPass(ids, apps, env) ==> a.PostClose?
    ensures forall a :: a in ForcePass(ids, apps, env) ==> !a.PostClose?
  {
    if ids != [] {
      var init := ids[..|ids| - 1];
      assert forall id :: id in init ==> id in ids;
      PassesSeparate(init, apps, env);
    }
  }

  /** The ids that reach the third pass: running after the grace sleep. */
  function StillRunning(apps: map<string, ManagedApp>, env: CloseAllEnv): (r: set<string>)
    ensures forall id :: id in r <==> id in apps && env.statusAfterGrace(apps[id].pid) == Running
  {
    set id | id in apps && env.statusAfterGrace(apps[id].pid) == Running
  }

  /** The ids left after `close_all_applications`. */
  function Survivors(apps: map<string, ManagedApp>, env: CloseAllEnv): (r: set<string>)
    ensures forall id :: id in r <==> id in apps && Stubborn(apps[id], env)
  {
    set id | id in apps && Stubborn(apps[id], env)
  }

  /** The ids `_cleanup_dead_processes` keeps. */
  function Alive(apps: map<string, ManagedApp>, now: real, status: Pid -> ProcStatus,
                 handleExited: Pid -> bool): (r: set<string>)
    ensures forall id :: id in r <==> id in apps && !IsDead(apps[id], now, status, handleExited)
  {
    set id | id in apps && !IsDead(apps[id], now, status, handleExited)
  }

  /** The main window an app's show/focus calls act on; other windows are never used instead. */
  function MainTarget(apps: map<string, ManagedApp>, id: string, isWindow: Hwnd -> bool): (r: Option<Hwnd>)
    ensures r.Some? <==> id in apps && apps[id].mainWindow.Some? && isWindow(apps[id].mainWindow.value)
    ensures r.Some? ==> r == apps[id].mainWindow
  {
    if id in apps && apps[id].mainWindow.Some? && isWindow(apps[id].mainWindow.value)
    then apps[id].mainWindow else None
  }

  // ------------------------------------------------------------------------------------
  // The manager
  // ------------------------------------------------------------------------------------

  class ProcessManager {
    /** `managed_apps`, with `order` its insertion order. */
    var apps: map<string, ManagedApp>
    var order: seq<string>
    var log: seq<Action>

    ghost predicate Valid()
      reads this
    {
      Mirrors(order, apps)
    }

    constructor ()
      ensures Valid() && apps == map[] && order == [] && log == []
    {
      apps, order, log := map[], [], [];
    }

    /** Assign `apps[id] := app`, keeping the insertion order. */
    method Store(id: string, app: ManagedApp)
      requires Valid()
      modifies this
      ensures Valid()
      ensures apps == old(apps)[id := app] && order == Put(old(order), id) && log == old(log)
    {
      order := Put(order, id);
      apps := apps[id := app];
    }

    /** Delete `apps[id]`. */
    method Delete(id: string)
      requires Valid()
      modifies this
      ensures Valid()
      ensures apps == old(apps) - {id} && order == Remove(old(order), id) && log == old(log)
    {
      order := Remove(order, id);
      apps := apps - {id};
    }

    /** `launch_application`: spawn, confirm the process, register it under `"{name}_{pid}"`. */
    method LaunchApplication(path: string, appName: Option<string>, args: seq<string>,
                             obs: LaunchObservation, now: real) returns (ok: bool)
      requires Valid()
      modifies this
      ensures Valid()
      ensures ok == LaunchSucceeds(obs)
      ensures log == old(log) + (if obs.Spawned? then [Spawn(LaunchCommand(path, args))] else [])
      ensures !ok ==> apps == old(apps) && order == old(order)
      ensures ok ==> var id := AppId(LaunchName(path, appName), obs.pid);
        && apps == old(apps)[id := ManagedApp(LaunchName(path, appName), obs.pid, None, [], now, true)]
        && order == Put(old(order), id)
    {
      match obs
      case BinaryMissing =>
        return false;
      case SpawnRaised =>
        return false;
      case Spawned(pid, exitedAtPoll, knownToPsutil) =>
        log := log + [Spawn(LaunchCommand(path, args))];
        if exitedAtPoll {
          return false;
        }
        if !knownToPsutil {
          return false;
        }
        var name := LaunchName(path, appName);
        Store(AppId(name, pid), ManagedApp(name, pid, None, [], now, true));
        return true;
    }

    /**
     * `_find_app_windows_delayed` for the entry `id`: the discovered windows and main
     * window are recorded on it; if the entry is no longer registered nothing changes.
     */
    method FindAppWindowsDelayed(id: string, env: DiscoveryEnv)
      requires Valid()
      modifies this
      ensures Valid() && order == old(order) && log == old(log)
      ensures id !in old(apps) ==> apps == old(apps)
      ensures id in old(apps) ==>
        apps == old(apps)[id := WithDiscovery(old(apps)[id], DiscoverFrom(old(apps)[id].pid, old(apps)[id].name, env, 0))]
    {
      if id !in apps {
        return;
      }
      var app := apps[id];
      var d := DiscoverWindows(app.pid, app.name, env);
      apps := apps[id := WithDiscovery(app, d)];
    }

    /** The first loop of `_cleanup_dead_processes`: the ids of the dead entries, in registry order. */
    method DeadEntries(now: real, status: Pid -> ProcStatus, handleExited: Pid -> bool) returns (dead: seq<string>)
      requires Valid()
      ensures forall id :: id in dead <==> id in apps && IsDead(apps[id], now, status, handleExited)
    {
      dead := [];
      for i := 0 to |order|
        invariant forall id :: id in dead ==> id in apps && IsDead(apps[id], now, status, handleExited)
        invariant forall k :: 0 <= k < i && IsDead(apps[order[k]], now, status, handleExited) ==> order[k] in dead
      {
        var id := order[i];
        if IsDead(apps[id], now, status, handleExited) {
          dead := dead + [id];
        }
      }
      forall id | id in apps && IsDead(apps[id], now, status, handleExited) ensures id in dead {
        var k :| 0 <= k < |order| && order[k] == id;
      }
    }

    /** Delete each of `ids` that is still registered. */
    method ForgetAll(ids: seq<string>)
      requires Valid()
      modifies this
      ensures Valid() && log == old(log)
      ensures apps == RestrictMap(old(apps), old(apps).Keys - Elems(ids))
      ensures order == Restrict(old(order), old(apps).Keys - Elems(ids))
    {
      apps, order := DeleteAll(apps, order, ids);
    }

    /** `_cleanup_dead_processes`: drop the dead entries that are past the grace period. */
    method CleanupDeadProcesses(now: real, status: Pid -> ProcStatus, handleExited: Pid -> bool)
      requires Valid()
      modifies this
      ensures Valid() && log == old(log)
      ensures apps == RestrictMap(old(apps), Alive(old(apps), now, status, handleExited))
      ensures order == Restrict(old(order), Alive(old(apps), now, status, handleExited))
    {
      var dead := DeadEntries(now, status, handleExited);
      ForgetAll(dead);
      assert old(apps).Keys - Elems(dead) == Alive(old(apps), now, status, handleExited);
    }

    /** `get_managed_apps`: prune the dead entries, then hand out a copy of the registry. */
    method GetManagedApps(now: real, status: Pid -> ProcStatus, handleExited: Pid -> bool)
      returns (copy: map<string, ManagedApp>)
      requires Valid()
      modifies this
      ensures Valid() && log == old(log) && copy == apps
      ensures copy == RestrictMap(old(apps), Alive(old(apps), now, status, handleExited))
      ensures order == Restrict(old(order), Alive(old(apps), now, status, handleExited))
    {
      CleanupDeadProcesses(now, status, handleExited);
      copy := apps;
    }

    /** `close_application`: post WM_CLOSE, stop the process, then forget the entry. */
    method CloseApplication(id: string, obs: CloseObservation) returns (ok: bool)
      requires Valid()
      modifies this
      ensures Valid()
      ensures id !in old(apps) ==> !ok && apps == old(apps) && order == old(order) && log == old(log)
      ensures id in old(apps) ==> ok == !CloseFails(old(apps)[id], obs)
      ensures id in old(apps) ==> log == old(log) + CloseActions(old(apps)[id], obs)
      ensures ok ==> apps == old(apps) - {id} && order == Remove(old(order), id)
      ensures !ok ==> apps == old(apps) && order == old(order)
    {
      if id !in apps {
        return false;
      }
      var actions, closed := CloseCalls(apps[id], obs);
      log := log + actions;
      if !closed {
        return false;
      }
      Delete(id);
      return true;
    }

    /** The calls `close_application` makes on a registered app, and whether it gets to the end. */
    static method CloseCalls(app: ManagedApp, obs: CloseObservation) returns (actions: seq<Action>, closed: bool)
      ensures actions == CloseActions(app, obs) && closed == !CloseFails(app, obs)
    {
      actions := [];
      if app.mainWindow.Some? && obs.mainIsWindow {
        actions := actions + [PostClose(app.mainWindow.value)];
        if obs.postRaises {
          return actions, false;
        }
      }
      if obs.status == Running {
        actions := actions + [Terminate(app.pid)];
        if !obs.exitsInTime {
          actions := actions + [Kill(app.pid)];
        }
      }
      actions := actions + HandleActions(app, obs.handleRunning);
      closed := true;
    }

    /** The posts of the first pass to one app's windows; a post that raises ends that app's turn. */
    static method PostCloseWindows(targets: seq<Hwnd>, postRaises: Hwnd -> bool) returns (sent: seq<Action>)
      ensures sent == PostsSent(targets, postRaises)
    {
      sent := [];
      var j := 0;
      while j < |targets|
        invariant j <= |targets|
        invariant forall k :: 0 <= k < j ==> !postRaises(targets[k])
        invariant sent == PostsSent(targets[..j], postRaises)
      {
        PostsSentSnoc(targets, postRaises, j);
        sent := sent + [PostClose(targets[j])];
        if postRaises(targets[j]) {
          PostsSentStops(targets, postRaises, j);
          return;
        }
        j := j + 1;
      }
      assert targets[..j] == targets;
    }

    /** The posts of pass 1 over `ids`, app after app. */
    static method PostCalls(ids: seq<string>, apps: map<string, ManagedApp>, env: CloseAllEnv) returns (posts: seq<Action>)
      requires forall id :: id in ids ==> id in apps
      ensures posts == PostPass(ids, apps, env)
    {
      posts := [];
      for i := 0 to |ids|
        invariant posts == PostPass(ids[..i], apps, env)
      {
        assert ids[..i + 1][..i] == ids[..i];
        var sent := PostCloseWindows(ValidWindows(apps[ids[i]], env.isWindow), env.postRaises);
        posts := posts + sent;
      }
      assert ids[..|ids|] == ids;
    }

    /** Pass 1 of `close_all_applications`: WM_CLOSE to every valid window of every app. */
    method PostClosePass(env: CloseAllEnv)
      requires Valid()
      modifies this`log
      ensures log == old(log) + PostPass(order, apps, env)
    {
      var posts := PostCalls(order, apps, env);
      log := log + posts;
    }

    /**
     * The entries of `order` whose process is (`running`) or is not (`!running`) still
     * running after the grace sleep, in registry order.
     */
    static ghost function Partition(order: seq<string>, apps: map<string, ManagedApp>, env: CloseAllEnv, running: bool): seq<string> {
      if order == [] then []
      else
        var last := order[|order| - 1];
        var init := Partition(order[..|order| - 1], apps, env, running);
        if last in apps && (env.statusAfterGrace(apps[last].pid) == Running) == running then init + [last] else init
    }

    /** The two halves of the partition are the registry order restricted to each status. */
    static lemma {:induction false} PartitionIsRestrict(order: seq<string>, apps: map<string, ManagedApp>, env: CloseAllEnv)
      ensures Partition(order, apps, env, true) == Restrict(order, StillRunning(apps, env))
      ensures Partition(order, apps, env, false) == Restrict(order, apps.Keys - StillRunning(apps, env))
    {
      if order != [] {
        PartitionIsRestrict(order[..|order| - 1], apps, env);
      }
    }

    /** The entries whose process is running after the grace sleep, in registry order, and the others. */
    static method SplitByStatus(order: seq<string>, apps: map<string, ManagedApp>, env: CloseAllEnv)
      returns (running: seq<string>, ended: seq<string>)
      requires forall id :: id in order ==> id in apps
      ensures running == Restrict(order, StillRunning(apps, env))
      ensures ended == Restrict(order, apps.Keys - StillRunning(apps, env))
    {
      running, ended := [], [];
      for i := 0 to |order|
        invariant running == Partition(order[..i], apps, env, true)
        invariant ended == Partition(order[..i], apps, env, false)
      {
        assert order[..i + 1][..i] == order[..i];
        var id := order[i];
        if env.statusAfterGrace(apps[id].pid) == Running {
          running := running + [id];
        } else {
          ended := ended + [id];
        }
      }
      assert order[..|order|] == order;
      PartitionIsRestrict(order, apps, env);
    }

    /** Pass 2: entries whose process has ended are forgotten; the running ones are returned. */
    method GracePass(env: CloseAllEnv) returns (remaining: seq<string>)
      requires Valid()
      modifies this
      ensures Valid() && log == old(log)
      ensures remaining == Restrict(old(order), StillRunning(old(apps), env))
      ensures apps == RestrictMap(old(apps), StillRunning(old(apps), env))
      ensures order == remaining
    {
      var ended;
      remaining, ended := SplitByStatus(order, apps, env);
      ForgetAll(ended);
      assert old(apps).Keys - Elems(ended) == StillRunning(old(apps), env);
    }

    /** The calls of pass 3, made for every remaining entry in turn. */
    static method ForceCloseCalls(remaining: seq<string>, apps: map<string, ManagedApp>, env: CloseAllEnv)
      returns (calls: seq<Action>)
      requires forall id :: id in remaining ==> id in apps
      ensures calls == ForcePass(remaining, apps, env)
    {
      calls := [];
      for i := 0 to |remaining|
        invariant calls == ForcePass(remaining[..i], apps, env)
      {
        assert remaining[..i + 1][..i] == remaining[..i];
        calls := calls + ForceActions(apps[remaining[i]], env);
      }
      assert remaining[..|remaining|] == remaining;
    }

    /** The remaining entries whose force close completed, so that pass 3 deletes them. */
    method ForceClosed(remaining: seq<string>, env: CloseAllEnv) returns (closed: seq<string>)
      requires forall id :: id in remaining ==> id in apps
      ensures forall id :: id in closed <==> id in remaining && !ForceRaised(env.force(apps[id].pid))
    {
      closed := [];
      for i := 0 to |remaining|
        invariant forall id :: id in closed <==> id in remaining[..i] && !ForceRaised(env.force(apps[id].pid))
      {
        assert forall id :: id in remaining[..i + 1] <==> id in remaining[..i] || id == remaining[i];
        if !ForceRaised(env.force(apps[remaining[i]].pid)) {
          closed := closed + [remaining[i]];
        }
      }
      assert remaining[..|remaining|] == remaining;
    }

    /** Pass 3: stop each remaining process; an entry stays only when stopping it raised. */
    method ForceClosePass(remaining: seq<string>, env: CloseAllEnv)
      requires Valid() && order == remaining
      requires forall id :: id in apps ==> env.statusAfterGrace(apps[id].pid) == Running
      modifies this
      ensures Valid()
      ensures log == old(log) + ForcePass(remaining, old(apps), env)
      ensures apps == RestrictMap(old(apps), Survivors(old(apps), env))
      ensures order == Restrict(remaining, Survivors(old(apps), env))
    {
      var calls := ForceCloseCalls(remaining, apps, env);
      log := log + calls;
      var closed := ForceClosed(remaining, env);
      ForgetAll(closed);
      assert old(apps).Keys - Elems(closed) == Survivors(old(apps), env);
    }

    /**
     * `close_all_applications`: post WM_CLOSE everywhere, wait, forget what has ended,
     * force the rest. Only entries whose force close raised survive.
     */
    method CloseAllApplications(env: CloseAllEnv)
      requires Valid()
      modifies this
      ensures Valid()
      ensures apps == RestrictMap(old(apps), Survivors(old(apps), env))
      ensures order == Restrict(old(order), Survivors(old(apps), env))
      ensures log == old(log) + PostPass(old(order), old(apps), env)
                     + ForcePass(Restrict(old(order), StillRunning(old(apps), env)), old(apps), env)
    {
      if order == [] {
        assert apps == map[];
        return;
      }
      ghost var apps0, order0 := apps, order;
      PostClosePass(env);
      var remaining := GracePass(env);
      GraceThenForce(order0, apps0, apps, remaining, env);
      ForceClosePass(remaining, env);
    }

    /** `minimize_application`: only the main window, and only while it is a window. */
    method MinimizeApplication(id: string, isWindow: Hwnd -> bool) returns (ok: bool)
      modifies this`log
      ensures ok <==> MainTarget(apps, id, isWindow).Some?
      ensures log == old(log) + (if ok then [ShowWindow(MainTarget(apps, id, isWindow).value, Minimize)] else [])
    {
      var target := MainTarget(apps, id, isWindow);
      if target.None? {
        return false;
      }
      log := log + [ShowWindow(target.value, Minimize)];
      return true;
    }

    /**
     * `restore_application`: restore and raise the main window. False when it is not a
     * window, or when raising it raises (after the restore has already been sent).
     */
    method RestoreApplication(id: string, isWindow: Hwnd -> bool, foregroundRaises: bool) returns (ok: bool)
      modifies this`log
      ensures ok <==> MainTarget(apps, id, isWindow).Some? && !foregroundRaises
      ensures MainTarget(apps, id, isWindow).None? ==> log == old(log)
      ensures MainTarget(apps, id, isWindow).Some? ==>
                var h := MainTarget(apps, id, isWindow).value;
                log == old(log) + [ShowWindow(h, Restore)] + (if foregroundRaises then [] else [SetForeground(h)])
    {
      var target := MainTarget(apps, id, isWindow);
      if target.None? {
        return false;
      }
      log := log + [ShowWindow(target.value, Restore)];
      if foregroundRaises {
        return false;
      }
      log := log + [SetForeground(target.value)];
      return true;
    }

    /**
     * `focus_application`: restore the main window if it is minimised, then raise it. False
     * when it is not a window, or when raising it raises.
     */
    method FocusApplication(id: string, isWindow: Hwnd -> bool, isIconic: Hwnd -> bool, foregroundRaises: bool)
      returns (ok: bool)
      modifies this`log
      ensures ok <==> MainTarget(apps, id, isWindow).Some? && !foregroundRaises
      ensures MainTarget(apps, id, isWindow).None? ==> log == old(log)
      ensures MainTarget(apps, id, isWindow).Some? ==>
                var h := MainTarget(apps, id, isWindow).value;
                log == old(log) + (if isIconic(h) then [ShowWindow(h, Restore)] else [])
                       + (if foregroundRaises then [] else [SetForeground(h)])
    {
      var target := MainTarget(apps, id, isWindow);
      if target.None? {
        return false;
      }
      var h := target.value;
      if isIconic(h) {
        log := log + [ShowWindow(h, Restore)];
      }
      if foregroundRaises {
        return false;
      }
      log := log + [SetForeground(h)];
      return true;
    }

    /**
     * `get_application_info`: None for an unknown id; otherwise the entry's data, with
     * psutil's record of the process or, when psutil cannot reach it, a 'dead' record.
     */
    function GetApplicationInfo(id: string, now: real, psutilInfo: Option<ProcessInfo>): (r: Option<AppInfo>)
      reads this
      ensures r.None? <==> id !in apps
      ensures r.Some? ==> r.value.appId == id && r.value.name == apps[id].name
                          && r.value.windowCount == |apps[id].windows| && r.value.mainWindow == apps[id].mainWindow
                          && r.value.uptime == now - apps[id].launchTime
      ensures r.Some? && psutilInfo.None? ==> r.value.processInfo.status == "dead" && r.value.processInfo.pid == apps[id].pid
    {
      if id !in apps then None
      else
        var app := apps[id];
        Some(AppInfo(id, app.name, app.launchTime, now - app.launchTime, app.mainWindow, |app.windows|,
                     psutilInfo.GetOr(DeadProcessInfo(app))))
    }

    /** `get_all_managed_windows`. */
    method GetAllManagedWindows(status: Pid -> ProcStatus, isWindow: Hwnd -> bool) returns (all: seq<Hwnd>)
      requires Valid()
      ensures all == ManagedWindows(order, apps, status, isWindow)
    {
      all := [];
      for i := 0 to |order|
        invariant all == ManagedWindows(order[..i], apps, status, isWindow)
      {
        assert order[..i + 1][..i] == order[..i];
        var app := apps[order[i]];
        if status(app.pid) == Running {
          all := all + ValidWindows(app, isWindow);
        }
      }
      assert order[..|order|] == order;
    }

    /** `is_window_managed`: the window's owner is the process of a running registered app. */
    method IsWindowManaged(h: Hwnd, owner: Hwnd -> Option<Pid>, status: Pid -> ProcStatus) returns (managed: bool)
      requires Valid()
      ensures managed <==> owner(h).Some? && exists id :: id in apps && apps[id].pid == owner(h).value
                                                         && status(apps[id].pid) == Running
    {
      var pid := owner(h);
      if pid.None? {
        return false;
      }
      for i := 0 to |order|
        invariant forall k :: 0 <= k < i ==> !(apps[order[k]].pid == pid.value && status(apps[order[k]].pid) == Running)
      {
        var app := apps[order[i]];
        if status(app.pid) == Running && app.pid == pid.value {
          return true;
        }
      }
      forall id | id in apps ensures !(apps[id].pid == pid.value && status(apps[id].pid) == Running) {
        assert id in order;
        var k :| 0 <= k < |order| && order[k] == id;
      }
      return false;
    }
  }

  /** What the second pass leaves is what the third pass works on, in terms of the registry before both. */
  lemma GraceThenForce(order0: seq<string>, apps0: map<string, ManagedApp>, apps1: map<string, ManagedApp>,
                       remaining: seq<string>, env: CloseAllEnv)
    requires Mirrors(order0, apps0)
    requires apps1 == RestrictMap(apps0, StillRunning(apps0, env))
    requires remaining == Restrict(order0, StillRunning(apps0, env))
    ensures forall id :: id in apps1 ==> env.statusAfterGrace(apps1[id].pid) == Running
    ensures forall id :: id in remaining ==> id in apps1 && id in apps0
    ensures ForcePass(remaining, apps1, env) == ForcePass(remaining, apps0, env)
    ensures Survivors(apps1, env) == Survivors(apps0, env)
    ensures RestrictMap(apps1, Survivors(apps1, env)) == RestrictMap(apps0, Survivors(apps0, env))
    ensures Restrict(remaining, Survivors(apps1, env)) == Restrict(order0, Survivors(apps0, env))
  {
    var sr, sv := StillRunning(apps0, env), Survivors(apps0, env);
    ForcePassSameApps(remaining, apps1, apps0, env);
    assert Survivors(apps1, env) == sv;
    assert sr * sv == sv;
    RestrictTwice(order0, sr, sv);
    RestrictMapTwice(apps0, sr, sv);
  }

  lemma {:induction false} ForcePassSameApps(ids: seq<string>, apps1: map<string, ManagedApp>,
                                             apps0: map<string, ManagedApp>, env: CloseAllEnv)
    requires forall id :: id in ids ==> id in apps1
    requires forall id :: id in apps1 ==> id in apps0 && apps1[id] == apps0[id]
    ensures ForcePass(ids, apps1, env) == ForcePass(ids, apps0, env)
  {
    if ids != [] {
      var init := ids[..|ids| - 1];
      assert forall id :: id in init ==> id in ids;
      ForcePassSameApps(init, apps1, apps0, env);
    }
  }
}
