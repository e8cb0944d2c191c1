/**
 * The floating app manager window: loading a preset launches its applications one by one
 * and each browser with its tabs in a separate, isolated instance; the window stays open
 * until shutdown.
 */
module AppManager {
  import opened Wrappers
  import opened Text

  /** One `launch_application` call on the process manager: executable, display name, arguments. */
  datatype LaunchRequest = LaunchRequest(path: string, name: string, args: seq<string>)

  /** Whether the process manager reports that a launch succeeded. */
  type Launcher = LaunchRequest -> bool

  /** An application entry of a preset; a missing key is `None`. */
  datatype AppInfo = AppInfo(name: Option<string>, path: Option<string>, args: Option<seq<string>>)

  /** A preset as the dropdown holds it: `browser_tabs` maps a browser name to its URLs. */
  datatype PresetData = PresetData(name: Option<string>, apps: seq<AppInfo>, browserTabs: seq<(string, seq<string>)>)

  function NameOf(app: AppInfo): string {
    if app.name.Some? then app.name.value else "Unknown"
  }

  function PathOf(app: AppInfo): string {
    if app.path.Some? then app.path.value else ""
  }

  function ArgsOf(app: AppInfo): seq<string> {
    if app.args.Some? then app.args.value else []
  }

  // ---------------------------------------------------------------------------------------
  // Regular applications
  // ---------------------------------------------------------------------------------------

  const BrowserWords: seq<string> := ["chrome", "edge", "msedge", "firefox"]

  /** Browsers are launched from the tab lists, so the application loop skips them. */
  predicate IsBrowserApp(name: string) {
    AnyOccurs(BrowserWords, Lower(name))
  }

  predicate IsPowerShell(name: string) {
    Contains(Lower(name), "powershell")
  }

  function Occurrences(args: seq<string>, arg: string): nat {
    multiset(args)[arg]
  }

  /** PowerShell is kept open with `-NoExit`, added at the end unless already present. */
  function NormalizeArgs(name: string, args: seq<string>): (r: seq<string>)
    ensures !IsPowerShell(name) ==> r == args
    ensures IsPowerShell(name) ==> "-NoExit" in r
    ensures IsPowerShell(name) && "-NoExit" !in args ==> r == args + ["-NoExit"] && Occurrences(r, "-NoExit") == 1
    ensures "-NoExit" in args ==> r == args
  {
    if !IsPowerShell(name) then args
    else if args == [] then ["-NoExit"]
    else if "-NoExit" !in args then args + ["-NoExit"]
    else args
  }

  /** Normalising twice is normalising once. */
  lemma NormalizeArgsIdempotent(name: string, args: seq<string>)
    ensures NormalizeArgs(name, NormalizeArgs(name, args)) == NormalizeArgs(name, args)
  {
  }

  function AppRequest(app: AppInfo): LaunchRequest {
    LaunchRequest(PathOf(app), NameOf(app), NormalizeArgs(NameOf(app), ArgsOf(app)))
  }

  /** The launches the application loop asks for, in preset order. */
  function AppRequests(apps: seq<AppInfo>): (r: seq<LaunchRequest>)
    ensures |r| <= |apps|
  {
    if apps == [] then []
    else
      var last := apps[|apps| - 1];
      AppRequests(apps[..|apps| - 1]) + (if IsBrowserApp(NameOf(last)) then [] else [AppRequest(last)])
  }

  lemma AppRequestsSnoc(apps: seq<AppInfo>, i: nat)
    requires i < |apps|
    ensures AppRequests(apps[..i + 1])
              == AppRequests(apps[..i]) + (if IsBrowserApp(NameOf(apps[i])) then [] else [AppRequest(apps[i])])
  {
    assert apps[..i + 1][..i] == apps[..i];
  }

  lemma SuccessesSnoc(reqs: seq<LaunchRequest>, r: LaunchRequest, launch: Launcher)
    ensures Successes(reqs + [r], launch) == Successes(reqs, launch) + (if launch(r) then 1 else 0)
  {
    assert (reqs + [r])[..|reqs|] == reqs;
  }

  /** No browser is launched by the application loop, and every other entry is. */
  lemma {:induction false} AppRequestsSkipBrowsers(apps: seq<AppInfo>)
    ensures forall r :: r in AppRequests(apps) ==> !IsBrowserApp(r.name)
    ensures forall a :: a in apps && !IsBrowserApp(NameOf(a)) ==> AppRequest(a) in AppRequests(apps)
    decreases |apps|
  {
    if apps != [] {
      var init := apps[..|apps| - 1];
      AppRequestsSkipBrowsers(init);
      forall a | a in apps && !IsBrowserApp(NameOf(a)) ensures AppRequest(a) in AppRequests(apps) {
        if a != apps[|apps| - 1] {
          var i :| 0 <= i < |apps| && apps[i] == a;
          assert a == init[i];
        }
      }
    }
  }

  /** The entries the application loop skips. */
  function BrowserApps(apps: seq<AppInfo>): (n: nat)
    ensures |AppRequests(apps)| + n == |apps|
  {
    if apps == [] then 0
    else BrowserApps(apps[..|apps| - 1]) + (if IsBrowserApp(NameOf(apps[|apps| - 1])) then 1 else 0)
  }

  function Successes(reqs: seq<LaunchRequest>, launch: Launcher): (n: nat)
    ensures n <= |reqs|
  {
    if reqs == [] then 0
    else Successes(reqs[..|reqs| - 1], launch) + (if launch(reqs[|reqs| - 1]) then 1 else 0)
  }

  /**
   * How the loop leaves a PowerShell entry's own argument list: appending mutates the list
   * the preset holds, while a missing or empty list is replaced by a new one.
   */
  function Persisted(app: AppInfo): (r: AppInfo)
    ensures r.name == app.name && r.path == app.path
  {
    if !IsBrowserApp(NameOf(app)) && IsPowerShell(NameOf(app)) && app.args.Some? && app.args.value != []
       && "-NoExit" !in app.args.value
    then app.(args := Some(app.args.value + ["-NoExit"]))
    else app
  }

  function PersistedApps(apps: seq<AppInfo>): (r: seq<AppInfo>)
    ensures |r| == |apps| && forall i :: 0 <= i < |apps| ==> r[i] == Persisted(apps[i])
  {
    seq(|apps|, i requires 0 <= i < |apps| => Persisted(apps[i]))
  }

  // ---------------------------------------------------------------------------------------
  // Isolated browsers
  // ---------------------------------------------------------------------------------------

  /** The executables tried for Chrome and for Edge, in order. */
  const ChromeCandidates: seq<string> :=
    ["chrome.exe", "C:\\Program Files\\Google\\Chrome\\Application\\chrome.exe",
     "C:\\Program Files (x86)\\Google\\Chrome\\Application\\chrome.exe"]
  const EdgeCandidates: seq<string> :=
    ["msedge.exe", "C:\\Program Files (x86)\\Microsoft\\Edge\\Application\\msedge.exe",
     "C:\\Program Files\\Microsoft\\Edge\\Application\\msedge.exe"]

  /** The executables tried for a browser, in order. */
  function BrowserCandidates(lowerName: string): seq<string> {
    if lowerName == "chrome" then ChromeCandidates
    else if lowerName == "edge" then EdgeCandidates
    else []
  }

  function Candidates(name: string): seq<string> {
    BrowserCandidates(Lower(name))
  }

  const CommonFlags: seq<string> := ["--new-window", "--no-first-run", "--no-default-browser-check"]

  /** The command line for one attempt, with its own user data directory. */
  function BrowserCommand(lowerName: string, exe: string, dataDir: string, urls: seq<string>): (cmd: seq<string>)
    ensures cmd != [] && cmd[0] == exe
  {
    if lowerName == "chrome" then [exe, "--user-data-dir=" + dataDir] + CommonFlags + ["--disable-default-apps"] + urls
    else if lowerName == "edge" then [exe, "--user-data-dir=" + dataDir] + CommonFlags + urls
    else [exe] + urls
  }

  /** Chrome and Edge get the same isolation flags, except that only Chrome disables default apps. */
  lemma BrowserCommandShape(exe: string, dataDir: string, urls: seq<string>)
    ensures BrowserCommand("chrome", exe, dataDir, urls)[1..]
              == ["--user-data-dir=" + dataDir, "--new-window", "--no-first-run", "--no-default-browser-check",
                  "--disable-default-apps"] + urls
    ensures BrowserCommand("edge", exe, dataDir, urls)[1..]
              == ["--user-data-dir=" + dataDir, "--new-window", "--no-first-run", "--no-default-browser-check"] + urls
  {
  }

  /** The launch for the `i`-th candidate: the executable, and the rest of the command as arguments. */
  function BrowserRequest(name: string, urls: seq<string>, dataDir: nat -> string, i: nat): LaunchRequest
    requires i < |Candidates(name)|
  {
    var cmd := BrowserCommand(Lower(name), Candidates(name)[i], dataDir(i), urls);
    LaunchRequest(cmd[0], name + " (LockIn)", cmd[1..])
  }

  /** How many candidates are tried: up to and including the first that launches. */
  function TriedCount(name: string, urls: seq<string>, dataDir: nat -> string, launch: Launcher, from: nat): (n: nat)
    requires from <= |Candidates(name)|
    ensures from <= n <= |Candidates(name)|
    ensures forall i :: from <= i < n - 1 ==> !launch(BrowserRequest(name, urls, dataDir, i))
    ensures n > from && n < |Candidates(name)| ==> launch(BrowserRequest(name, urls, dataDir, n - 1))
    decreases |Candidates(name)| - from
  {
    if from == |Candidates(name)| then from
    else if launch(BrowserRequest(name, urls, dataDir, from)) then from + 1
    else TriedCount(name, urls, dataDir, launch, from + 1)
  }

  /** The launches `launch_isolated_browser` asks for: none without URLs. */
  function BrowserAttempts(name: string, urls: seq<string>, dataDir: nat -> string, launch: Launcher): seq<LaunchRequest> {
    if urls == [] then []
    else
      Tried(name, urls, dataDir, TriedCount(name, urls, dataDir, launch, 0))
  }

  /** The launches for the first `n` candidates. */
  function Tried(name: string, urls: seq<string>, dataDir: nat -> string, n: nat): (r: seq<LaunchRequest>)
    requires n <= |Candidates(name)|
    ensures |r| == n
    ensures forall i :: 0 <= i < n ==> r[i] == BrowserRequest(name, urls, dataDir, i)
  {
    if n == 0 then [] else Tried(name, urls, dataDir, n - 1) + [BrowserRequest(name, urls, dataDir, n - 1)]
  }

  /** What `launch_isolated_browser` returns. */
  predicate BrowserLaunched(name: string, urls: seq<string>, dataDir: nat -> string, launch: Launcher) {
    urls == [] || exists i :: 0 <= i < |Candidates(name)| && launch(BrowserRequest(name, urls, dataDir, i))
  }

  /** The per-browser user data directories of one preset load. */
  type DataDirs = (string, nat) -> string

  /** The data directories of one browser's attempts. */
  function DirsOf(dataDirs: DataDirs, name: string): nat -> string {
    (i: nat) => dataDirs(name, i)
  }

  /** One turn of the browser loop: a browser with tabs is launched and counted if it started. */
  function BrowserStep(prev: (seq<LaunchRequest>, nat), tab: (string, seq<string>), dataDirs: DataDirs, launch: Launcher): (r: (seq<LaunchRequest>, nat))
    ensures r.1 <= prev.1 + (if tab.1 != [] then 1 else 0)
  {
    var (name, urls) := tab;
    if urls == [] then prev
    else
      var dirs := DirsOf(dataDirs, name);
      (prev.0 + BrowserAttempts(name, urls, dirs, launch),
       prev.1 + (if BrowserLaunched(name, urls, dirs, launch) then 1 else 0))
  }

  /** The launches of the browser loop and how many browsers started. */
  function BrowserPhase(tabs: seq<(string, seq<string>)>, dataDirs: DataDirs, launch: Launcher): (r: (seq<LaunchRequest>, nat))
    ensures r.1 <= |tabs|
  {
    if tabs == [] then ([], 0)
    else BrowserStep(BrowserPhase(tabs[..|tabs| - 1], dataDirs, launch), tabs[|tabs| - 1], dataDirs, launch)
  }

  /** The first candidate that launches ends the attempts, and the browser counts as launched. */
  lemma TryBrowserHit(name: string, urls: seq<string>, dataDir: nat -> string, launch: Launcher, i: nat)
    requires urls != [] && i < |Candidates(name)|
    requires TriedCount(name, urls, dataDir, launch, 0) == TriedCount(name, urls, dataDir, launch, i)
    requires launch(BrowserRequest(name, urls, dataDir, i))
    ensures BrowserLaunched(name, urls, dataDir, launch)
    ensures BrowserAttempts(name, urls, dataDir, launch) == Tried(name, urls, dataDir, i + 1)
  {
  }

  /** A candidate that does not launch passes the turn to the next one. */
  lemma TryBrowserMiss(name: string, urls: seq<string>, dataDir: nat -> string, launch: Launcher, i: nat)
    requires i < |Candidates(name)|
    requires TriedCount(name, urls, dataDir, launch, 0) == TriedCount(name, urls, dataDir, launch, i)
    requires !launch(BrowserRequest(name, urls, dataDir, i))
    ensures TriedCount(name, urls, dataDir, launch, 0) == TriedCount(name, urls, dataDir, launch, i + 1)
    ensures Tried(name, urls, dataDir, i + 1) == Tried(name, urls, dataDir, i) + [BrowserRequest(name, urls, dataDir, i)]
  {
  }

  /** With no candidate launching, every candidate is tried and the browser does not start. */
  lemma TryBrowserExhausted(name: string, urls: seq<string>, dataDir: nat -> string, launch: Launcher)
    requires urls != []
    requires forall k :: 0 <= k < |Candidates(name)| ==> !launch(BrowserRequest(name, urls, dataDir, k))
    requires TriedCount(name, urls, dataDir, launch, 0) == TriedCount(name, urls, dataDir, launch, |Candidates(name)|)
    ensures !BrowserLaunched(name, urls, dataDir, launch)
    ensures BrowserAttempts(name, urls, dataDir, launch) == Tried(name, urls, dataDir, |Candidates(name)|)
  {
  }

  /** The browser loop after one more entry of the preset's tabs. */
  lemma {:induction false} BrowserPhaseSnoc(tabs: seq<(string, seq<string>)>, dataDirs: DataDirs, launch: Launcher, j: nat)
    requires j < |tabs|
    ensures BrowserPhase(tabs[..j + 1], dataDirs, launch) == BrowserStep(BrowserPhase(tabs[..j], dataDirs, launch), tabs[j], dataDirs, launch)
  {
    assert tabs[..j + 1][..j] == tabs[..j];
  }

  /** The browsers that have tabs to open. */
  function BrowsersWithTabs(tabs: seq<(string, seq<string>)>): (n: nat)
    ensures n <= |tabs|
  {
    if tabs == [] then 0
    else BrowsersWithTabs(tabs[..|tabs| - 1]) + (if tabs[|tabs| - 1].1 != [] then 1 else 0)
  }

  /** No more browsers start than have tabs. */
  lemma {:induction false} BrowserPhaseBounded(tabs: seq<(string, seq<string>)>, dataDirs: DataDirs, launch: Launcher)
    ensures BrowserPhase(tabs, dataDirs, launch).1 <= BrowsersWithTabs(tabs)
    decreases |tabs|
  {
    if tabs != [] {
      BrowserPhaseBounded(tabs[..|tabs| - 1], dataDirs, launch);
    }
  }

  /** `total_count`: every application entry, browsers included, and every browser with tabs. */
  function TotalCount(preset: PresetData): nat {
    |preset.apps| + BrowsersWithTabs(preset.browserTabs)
  }

  function SuccessCount(preset: PresetData, dataDirs: DataDirs, launch: Launcher): nat {
    Successes(AppRequests(preset.apps), launch) + BrowserPhase(preset.browserTabs, dataDirs, launch).1
  }

  /**
   * A preset can report success only when every launch succeeded; and since browser
   * entries among the applications are skipped but still counted, a preset holding one
   * always reports partial success.
   */
  lemma SuccessAtMostTotal(preset: PresetData, dataDirs: DataDirs, launch: Launcher)
    ensures SuccessCount(preset, dataDirs, launch) <= TotalCount(preset)
    ensures (exists a :: a in preset.apps && IsBrowserApp(NameOf(a))) ==>
              SuccessCount(preset, dataDirs, launch) < TotalCount(preset)
  {
    BrowserPhaseBounded(preset.browserTabs, dataDirs, launch);
    if exists a :: a in preset.apps && IsBrowserApp(NameOf(a)) {
      BrowserAppsCounted(preset.apps);
    }
  }

  lemma BrowserAppsCounted(apps: seq<AppInfo>)
    requires exists a :: a in apps && IsBrowserApp(NameOf(a))
    ensures BrowserApps(apps) > 0
  {
    var a :| a in apps && IsBrowserApp(NameOf(a));
    var i :| 0 <= i < |apps| && apps[i] == a;
    BrowserAppCountedAt(apps, i);
  }

  /** The browser at index `i` is counted. */
  lemma {:induction false} BrowserAppCountedAt(apps: seq<AppInfo>, i: nat)
    requires i < |apps| && IsBrowserApp(NameOf(apps[i]))
    ensures BrowserApps(apps) > 0
    decreases |apps|
  {
    if i < |apps| - 1 {
      var init := apps[..|apps| - 1];
      assert init[i] == apps[i];
      BrowserAppCountedAt(init, i);
    }
  }

  // ---------------------------------------------------------------------------------------
  // The window
  // ---------------------------------------------------------------------------------------

  datatype Notice =
    | NoPresetSelected
    | LoadingPreset(name: string)
    | PresetLoaded(name: string, launched: nat)
    | PartiallyLoaded(name: string, launched: nat, total: nat)
    | CannotClose

  class FloatingAppManager {
    /** Every launch asked of the process manager, oldest first. */
    var requests: seq<LaunchRequest>
    /** Every preset written back through the configuration, with its last-used time. */
    var saved: seq<(string, PresetData, string)>
    var notices: seq<Notice>
    var allowClose: bool

    constructor()
      ensures requests == [] && saved == [] && notices == [] && !allowClose
    {
      requests := [];
      saved := [];
      notices := [];
      allowClose := false;
    }

    /**
     * `launch_isolated_browser`: with URLs, try each candidate executable in order with a
     * fresh user data directory, stopping at the first launch that succeeds.
     */
    static method TryBrowser(name: string, urls: seq<string>, dataDir: nat -> string, launch: Launcher)
      returns (ok: bool, tried: seq<LaunchRequest>)
      ensures ok == BrowserLaunched(name, urls, dataDir, launch)
      ensures tried == BrowserAttempts(name, urls, dataDir, launch)
    {
      tried := [];
      if urls == [] {
        return true, tried;
      }
      var candidates := Candidates(name);
      var i := 0;
      while i < |candidates|
        invariant 0 <= i <= |candidates|
        invariant forall k :: 0 <= k < i ==> !launch(BrowserRequest(name, urls, dataDir, k))
        invariant TriedCount(name, urls, dataDir, launch, 0) == TriedCount(name, urls, dataDir, launch, i)
        invariant tried == Tried(name, urls, dataDir, i)
      {
        var request := BrowserRequest(name, urls, dataDir, i);
        tried := tried + [request];
        if launch(request) {
          TryBrowserHit(name, urls, dataDir, launch, i);
          return true, tried;
        }
        TryBrowserMiss(name, urls, dataDir, launch, i);
        i := i + 1;
      }
      TryBrowserExhausted(name, urls, dataDir, launch);
      return false, tried;
    }

    /** `launch_isolated_browser`, recording its launches. */
    method LaunchIsolatedBrowser(name: string, urls: seq<string>, dataDir: nat -> string, launch: Launcher)
      returns (ok: bool)
      modifies this
      ensures ok == BrowserLaunched(name, urls, dataDir, launch)
      ensures requests == old(requests) + BrowserAttempts(name, urls, dataDir, launch)
      ensures saved == old(saved) && notices == old(notices) && allowClose == old(allowClose)
    {
      var tried;
      ok, tried := TryBrowser(name, urls, dataDir, launch);
      requests := requests + tried;
    }

    /** The application loop of `load_selected_preset`: the launches it asks for and how many succeed. */
    static method LaunchApps(apps: seq<AppInfo>, launch: Launcher) returns (made: seq<LaunchRequest>, successes: nat)
      ensures made == AppRequests(apps)
      ensures successes == Successes(AppRequests(apps), launch)
    {
      successes := 0;
      made := [];
      for i := 0 to |apps|
        invariant made == AppRequests(apps[..i])
        invariant successes == Successes(made, launch)
      {
        var app := apps[i];
        AppRequestsSnoc(apps, i);
        if !IsBrowserApp(NameOf(app)) {
          var request := AppRequest(app);
          SuccessesSnoc(made, request, launch);
          made := made + [request];
          if launch(request) {
            successes := successes + 1;
          }
        }
      }
      assert apps[..|apps|] == apps;
    }

    /** The browser loop of `load_selected_preset`: the launches it asks for and how many browsers start. */
    static method LaunchBrowsers(tabs: seq<(string, seq<string>)>, dataDirs: DataDirs, launch: Launcher)
      returns (made: seq<LaunchRequest>, started: nat)
      ensures made == BrowserPhase(tabs, dataDirs, launch).0
      ensures started == BrowserPhase(tabs, dataDirs, launch).1
    {
      started := 0;
      made := [];
      for j := 0 to |tabs|
        invariant made == BrowserPhase(tabs[..j], dataDirs, launch).0
        invariant started == BrowserPhase(tabs[..j], dataDirs, launch).1
      {
        BrowserPhaseSnoc(tabs, dataDirs, launch, j);
        var browser, urls := tabs[j].0, tabs[j].1;
        if urls != [] {
          var ok, tried := TryBrowser(browser, urls, DirsOf(dataDirs, browser), launch);
          made := made + tried;
          if ok {
            started := started + 1;
          }
        }
      }
      assert tabs[..|tabs|] == tabs;
    }

    /**
     * `load_selected_preset`, once the user has confirmed: launch the applications, then
     * the browsers with tabs, record the preset as used, and report how many of the
     * expected launches succeeded.
     */
    method LoadSelectedPreset(selected: Option<PresetData>, confirmed: bool, dataDirs: DataDirs,
                              launch: Launcher, now: string)
      modifies this
      ensures selected.None? ==>
                requests == old(requests) && saved == old(saved) && notices == old(notices) + [NoPresetSelected]
      ensures selected.Some? && !confirmed ==>
                requests == old(requests) && saved == old(saved) && notices == old(notices)
      ensures selected.Some? && confirmed ==>
                var preset := selected.value;
                var name := if preset.name.Some? then preset.name.value else "Unknown";
                var launched := SuccessCount(preset, dataDirs, launch);
                && requests == old(requests) + AppRequests(preset.apps) + BrowserPhase(preset.browserTabs, dataDirs, launch).0
                && saved == old(saved) + [(name, preset.(apps := PersistedApps(preset.apps)), now)]
                && notices == old(notices) + [LoadingPreset(name),
                     if launched == TotalCount(preset) then PresetLoaded(name, launched)
                     else PartiallyLoaded(name, launched, TotalCount(preset))]
      ensures allowClose == old(allowClose)
    {
      if selected.None? {
        notices := notices + [NoPresetSelected];
        return;
      }
      var preset := selected.value;
      var name := if preset.name.Some? then preset.name.value else "Unknown";
      if !confirmed {
        return;
      }
      var total := |preset.apps| + BrowsersWithTabs(preset.browserTabs);
      var apps, successes := LaunchApps(preset.apps, launch);
      var browsers, started := LaunchBrowsers(preset.browserTabs, dataDirs, launch);
      var launched := successes + started;
      assert launched == SuccessCount(preset, dataDirs, launch);
      assert total == TotalCount(preset);
      var outcome := if launched == total then PresetLoaded(name, launched) else PartiallyLoaded(name, launched, total);
      requests := requests + apps + browsers;
      saved := saved + [(name, preset.(apps := PersistedApps(preset.apps)), now)];
      notices := notices + [LoadingPreset(name), outcome];
    }

    /** `allow_closing`, called during shutdown. */
    method AllowClosing()
      modifies this
      ensures allowClose
      ensures requests == old(requests) && saved == old(saved) && notices == old(notices)
    {
      allowClose := true;
    }

    /** `closeEvent`: accepted only once closing is allowed; otherwise the user is told why not. */
    method CloseEvent() returns (accepted: bool)
      modifies this
      ensures accepted <==> allowClose
      ensures notices == old(notices) + (if accepted then [] else [CannotClose])
      ensures requests == old(requests) && saved == old(saved) && allowClose == old(allowClose)
    {
      accepted := allowClose;
      if !accepted {
        notices := notices + [CannotClose];
      }
    }
  }
}
