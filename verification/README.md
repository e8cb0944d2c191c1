# Lock-In, modelled in Dafny

Lock-In isolates a work session on Windows. It opens a dedicated virtual desktop, or
falls back to a kiosk mode that hides the Windows taskbar and desktop icons when the desktop
binding (`VirtualDesktopAccessor.dll`) is missing or misbehaves. It launches applications
there and tracks the processes and their windows in a registry. On exit it tears
everything down in a fixed order: it closes the applications gracefully and then by
force, sweeps any window left on the isolated desktop, switches back to the original
desktop and removes the isolated one.

This project models the core of that lifecycle and the self-contained pieces around it,
and proves properties of the model:

| module (file) | models |
|---|---|
| `ProcessManagement` (`process_manager.dfy`) | the registry of launched applications: launch, window discovery with its bounded retry, pruning of dead entries after the 30-second grace period, closing one application and the three-pass close of all of them, minimize/restore/focus, and the queries |
| `VirtualDesktop` (`virtual_desktop.dfy`) | the desktop controller: the binding's self-test, creation with its kiosk fallback, window migration, the leftover-window sweep and the idempotent teardown |
| `LockIn` (`lockin_app.dfy`) | the application object: window creation in `run`, the guarded, ordered and idempotent `cleanup`, the signal handler and `cleanup_and_exit` |
| `WindowManagement` (`window_manager.dfy`) | the window manager: the available area between the sidebars, the five layouts as integer rectangle arithmetic, pruning of gone windows, and add/remove/focus |
| `AppScanner` (`app_scanner.dfy`) | the installed-application scanner: the match score, search ranking, the four-source merge without duplicates, the name rules and the cache age |
| `Config` (`config.dfy`) | the configuration manager: applications, settings and presets, and a preset made from the running applications |
| `AiSecurity` (`ai_security.dfy`) | API-key storage: format validation, the `DPAPI:`/`FERNET:` marker framing and the key map kept in the encrypted file |
| `AppSearch` (`app_search_widget.dfy`) | the search box: selection with wrap-around, result refresh, launch of the selected row |
| `AiChat` (`floating_ai_chat.dfy`) | the assistant window: its state machine, the transcript edits (removing the last message block) and the close gate |
| `AppManager` (`floating_app_manager.dfy`) | the app manager window: loading a preset, isolated browser launch and the close gate |
| `Os` (`os_model.dfy`) | window handles, process ids and the answers the operating system gives about them |
| `OrderedKeys`, `Sorting`, `Text`, `Wrappers` | shared pieces: insertion-ordered dictionaries, Python's stable `sorted`, string helpers, `Option` |

Every call into the operating system is an oracle. The `win32gui`, `win32process` and
`psutil` calls and the desktop binding's integer results are parameters of the operation,
or function-typed fields of an observation record, and each may fail. The model records
each side effect it performs (window messages, terminations, binding calls, shell hiding,
dialogs and launches) in a `log`, `effects`, `notices` or `requests` sequence. Ordering,
at-most-once and "nothing else happens" properties are stated over that sequence. Python
dictionaries keep insertion order. A dictionary that the source iterates is therefore
modelled as a `map` plus a sequence of its keys, and the class invariant ties the two.

Where the code and its comments or documentation disagree, the model follows the code:

- A launch whose process has exited by the poll is a failure. There is no hand-off to a
  child process.
- The main window is chosen by title length only; window class plays no part.
- Minimize, restore and focus never fall back to a window other than the main one.
- A desktop whose post-creation check fails is not removed. Only a failed switch removes
  the newly created desktop before the fallback.

## Model

| member | source | states |
|---|---|---|
| ProcessManagement.AfterLastSeparator | src/core/process_manager.py:74-75 | the result is the longest separator-free suffix of the path: a suffix, free of `/` and `\`, and preceded by a separator when shorter than the path |
| ProcessManagement.Basename | src/core/process_manager.py:74-75 | `os.path.basename` drops the drive and every directory: the result holds no path separator |
| ProcessManagement.SplitExtRoot | src/core/process_manager.py:74-75 | the `os.path.splitext` root is a prefix of the name; when it is shorter, a dot follows it, no later dot exists, and it holds a character other than a dot (leading dots start no extension) |
| ProcessManagement.DefaultName | src/core/process_manager.py:73-75 | the default app name is a prefix of the file name and holds no path separator |
| ProcessManagement.LaunchName | src/core/process_manager.py:73-75 | the given name is kept unless it is missing or empty, in which case the default name is used |
| ProcessManagement.AppId | src/core/process_manager.py:85 | the registry key is the name, an underscore, then the decimal pid |
| ProcessManagement.LaunchCommand | src/core/process_manager.py:44-47 | the command spawned is the path followed by exactly the given arguments |
| ProcessManagement.AcceptedWindows | src/core/process_manager.py:139-167 | a window handle is collected exactly when some enumerated window is visible, owned by the process tree and not of a skipped class or title; no more than were enumerated |
| ProcessManagement.FirstTitled | src/core/process_manager.py:158-160 | the main-window candidate is an accepted window titled with more than one character; none exists when no accepted window has such a title |
| ProcessManagement.FirstTitledIsFirst | src/core/process_manager.py:158-160 | the candidate is the first such window: it is decided by the windows up to any titled accepted one |
| ProcessManagement.ChooseMain | src/core/process_manager.py:176-181 | the main window is one of the found windows, and the first found window when none is titled |
| ProcessManagement.FinalWindows | src/core/process_manager.py:188-229 | the last pass collects exactly the windows matching Notepad or titled with the app's name outside the IME classes |
| ProcessManagement.Targets | src/core/process_manager.py:130-137 | the searched process tree starts with the app's pid and includes every listed child |
| ProcessManagement.DiscoverFromStops | src/core/process_manager.py:111-186 | an early stop happens at an attempt within range: `Found` with a running process and a main window among its windows, `Died` only at attempt 5 or later with the process not running |
| ProcessManagement.ContinuesFromAll | src/core/process_manager.py:111-186 | an attempt run that never stopped went on at every attempt |
| ProcessManagement.DiscoverFromFinal | src/core/process_manager.py:188-231 | the title-match pass is reached only when every attempt went on to the next |
| ProcessManagement.AttemptStops | src/core/process_manager.py:114-184 | an attempt stops only by finding windows (process running) or by a death at attempt 5 or later |
| ProcessManagement.FinalPassShape | src/core/process_manager.py:225-231 | the title-match pass reports its first window as the main one |
| ProcessManagement.DiscoveryBounds | src/core/process_manager.py:105-236 | at most 15 attempts; a dead process is tolerated below attempt 5; a found main window is among the found windows; the last pass runs only when every attempt went on |
| ProcessManagement.ScanWindows | src/core/process_manager.py:139-170 | one enumeration yields exactly the accepted windows and the first titled one |
| ProcessManagement.ScanByTitle | src/core/process_manager.py:192-221 | the final enumeration yields exactly the title-matched windows |
| ProcessManagement.TryAttempt | src/core/process_manager.py:112-186 | one iteration of the retry loop behaves as the attempt function says |
| ProcessManagement.DiscoverWindows | src/core/process_manager.py:105-236 | the discovery thread's loop produces the outcome `DiscoveryBounds` is about |
| ProcessManagement.WithDiscovery | src/core/process_manager.py:176-181 | only a successful discovery changes the entry, and then sets its windows and main window; name, pid, launch time and handle never change |
| ProcessManagement.ValidWindows | src/core/process_manager.py:358-365 | the windows that get WM_CLOSE are valid windows of the app, the main window first and never repeated later |
| ProcessManagement.OtherWindows | src/core/process_manager.py:363-365 | exactly the valid windows of the app other than its main window |
| ProcessManagement.ManagedWindowsSound | src/core/process_manager.py:519-539 | every window `get_all_managed_windows` reports is valid and belongs to a running registered app |
| ProcessManagement.DeadProcessInfo | src/core/process_manager.py:497-504 | an unreachable process is reported with the app's pid and name and the status `dead` |
| ProcessManagement.HandleActions | src/core/process_manager.py:318-324 | the launch handle is terminated at most once, and only when it is still running |
| ProcessManagement.CloseActions | src/core/process_manager.py:285-324 | WM_CLOSE goes first and only to a valid main window; a failed post ends the call; a kill always follows a terminate |
| ProcessManagement.PostsSent | src/core/process_manager.py:367-375 | posts go to the windows in order, one each, stopping after the first post that raises |
| ProcessManagement.PostsSentSnoc | src/core/process_manager.py:367-369 | while no post has raised, the next window gets its post |
| ProcessManagement.PostsSentStops | src/core/process_manager.py:367-375 | after a post raises, no later window of that app gets one |
| ProcessManagement.MainPostedAtMostOnce | src/core/process_manager.py:357-369 | the first pass posts WM_CLOSE to a main window at most once |
| ProcessManagement.ForceActions | src/core/process_manager.py:399-426 | the third pass never posts WM_CLOSE; a kill comes only after a terminate; when `terminate` or the kill after the timeout raises, the handle cleanup is skipped, and otherwise the handle is terminated exactly when it exists and is still running |
| ProcessManagement.PassesSeparate | src/core/process_manager.py:352-426 | the first pass only posts WM_CLOSE and the third never does |
| ProcessManagement.StillRunning | src/core/process_manager.py:381-396 | the ids that reach the third pass are exactly the registered ones still running after the wait |
| ProcessManagement.Survivors | src/core/process_manager.py:398-426 | the ids left after closing everything are exactly those still running whose force close raised |
| ProcessManagement.Alive | src/core/process_manager.py:244-277 | the kept entries are exactly the registered ones that are not dead |
| ProcessManagement.MainTarget | src/core/process_manager.py:430-482 | minimize, restore and focus act exactly when the app is registered and its main window is still a window, and then on that window only |
| ProcessManagement.ProcessManager.constructor | src/core/process_manager.py:30-33 | an empty registry and no calls made |
| ProcessManagement.ProcessManager.Store | src/core/process_manager.py:86 | the entry is set and the insertion order keeps an existing key's place |
| ProcessManagement.ProcessManager.Delete | src/core/process_manager.py:329 | the entry and its place in the order are removed |
| ProcessManagement.ProcessManager.LaunchApplication | src/core/process_manager.py:39-103 | `True` exactly when the process was spawned, alive at the poll and known to psutil; then it is registered under `name_pid` with no windows; every spawn is logged with its command |
| ProcessManagement.ProcessManager.FindAppWindowsDelayed | src/core/process_manager.py:105-236 | the discovered windows are recorded on the entry; nothing else in the registry changes |
| ProcessManagement.ProcessManager.DeadEntries | src/core/process_manager.py:246-270 | collects exactly the dead entries |
| ProcessManagement.ProcessManager.ForgetAll | src/core/process_manager.py:272-277 | every listed id is deleted, the rest are kept in their order |
| ProcessManagement.ProcessManager.CleanupDeadProcesses | src/core/process_manager.py:244-277 | the registry afterwards holds exactly the entries that are not dead, in their order |
| ProcessManagement.ProcessManager.GetManagedApps | src/core/process_manager.py:238-242 | the copy handed out is the registry after pruning the dead entries |
| ProcessManagement.ProcessManager.CloseApplication | src/core/process_manager.py:279-336 | `False` for an unknown id; otherwise the close calls are made and the entry is removed unless posting WM_CLOSE raised |
| ProcessManagement.ProcessManager.CloseCalls | src/core/process_manager.py:285-324 | the calls made are `CloseActions`, and the call gets to the end unless posting raised |
| ProcessManagement.ProcessManager.PostCloseWindows | src/core/process_manager.py:367-375 | posts to one app's windows are `PostsSent` |
| ProcessManagement.ProcessManager.PostCalls | src/core/process_manager.py:353-375 | the first pass's posts, app after app in registry order |
| ProcessManagement.ProcessManager.PostClosePass | src/core/process_manager.py:352-375 | the first pass adds exactly its posts to the log |
| ProcessManagement.ProcessManager.PartitionIsRestrict | src/core/process_manager.py:384-396 | the ids split by status after the wait are the registry order restricted to each status |
| ProcessManagement.ProcessManager.SplitByStatus | src/core/process_manager.py:384-396 | returns the running ids and the ended ids, each in registry order |
| ProcessManagement.ProcessManager.GracePass | src/core/process_manager.py:381-396 | the second pass forgets the ended entries and returns the still running ones in order |
| ProcessManagement.ProcessManager.ForceCloseCalls | src/core/process_manager.py:399-426 | the third pass's calls, entry after entry |
| ProcessManagement.ProcessManager.ForceClosed | src/core/process_manager.py:399-423 | exactly the remaining entries whose force close did not raise |
| ProcessManagement.ProcessManager.ForceClosePass | src/core/process_manager.py:398-426 | the third pass makes its calls and deletes every entry except those whose `terminate`, or whose kill after the timeout, raised |
| ProcessManagement.ProcessManager.CloseAllApplications | src/core/process_manager.py:338-428 | the log grows by the posts of the first pass then the calls of the third; the only entries left are still running ones whose force close raised |
| ProcessManagement.ProcessManager.MinimizeApplication | src/core/process_manager.py:430-444 | succeeds exactly when the main window is valid, and then minimizes it alone |
| ProcessManagement.ProcessManager.RestoreApplication | src/core/process_manager.py:446-461 | succeeds exactly when the main window is valid and raising it does not raise; a valid main window is always restored first, and nothing is done otherwise |
| ProcessManagement.ProcessManager.FocusApplication | src/core/process_manager.py:463-482 | succeeds exactly when the main window is valid and raising it does not raise; a valid main window is restored first only when it is minimised, and nothing is done otherwise |
| ProcessManagement.ProcessManager.GetApplicationInfo | src/core/process_manager.py:484-517 | `None` exactly for an unknown id; otherwise the id, name, main window, window count and uptime of the entry, with a `dead` record when psutil cannot reach the process |
| ProcessManagement.ProcessManager.GetAllManagedWindows | src/core/process_manager.py:519-539 | the windows of the running apps in registry order, each app's valid main window first |
| ProcessManagement.ProcessManager.IsWindowManaged | src/core/process_manager.py:541-555 | true exactly when the window's owner is the process of a running registered app |
| ProcessManagement.GraceThenForce | src/core/process_manager.py:381-426 | what the second pass keeps is what the third pass works on, so the survivors can be stated on the registry before both |
| ProcessManagement.ForcePassSameApps | src/core/process_manager.py:399-426 | the third pass's calls depend only on the entries it visits |
| VirtualDesktop.CreateCalls | src/core/virtual_desktop.py:104-166 | no binding call without the binding; the created desktop is removed again exactly when it was created but switching to it failed; only create, switch and remove calls are made |
| VirtualDesktop.Leftovers | src/core/virtual_desktop.py:424-452 | the sweep collects exactly the visible, titled, non-shell windows on the isolated desktop |
| VirtualDesktop.ForceCloseCalls | src/core/virtual_desktop.py:454-479 | a leftover that still exists always gets WM_CLOSE first; a vanished one gets nothing |
| VirtualDesktop.SweepTouchesOnlyLeftovers | src/core/virtual_desktop.py:454-479 | the sweep acts only on the windows it was given, and never on a desktop |
| VirtualDesktop.SweepPostsToEveryWindow | src/core/virtual_desktop.py:454-479 | every leftover that still exists receives a close request |
| VirtualDesktop.SwitchToVirtual | src/core/virtual_desktop.py:369-375 | teardown switches to the isolated desktop exactly when it is known and not current |
| VirtualDesktop.SwitchBackAndRemove | src/core/virtual_desktop.py:388-410 | teardown only switches and removes desktops, and removes the isolated desktop exactly when both desktop numbers are known |
| VirtualDesktop.VirtualDesktopManager.constructor | src/core/virtual_desktop.py:20-31 | nothing created; the binding counts as loaded exactly when its self-test gives a desktop number of 0 or more and a positive count |
| VirtualDesktop.VirtualDesktopManager.FallbackToKiosk | src/core/virtual_desktop.py:168-186 | kiosk mode hides the shell and reports a created, not real, session |
| VirtualDesktop.VirtualDesktopManager.CreateVirtualDesktop | src/core/virtual_desktop.py:104-166 | always reports success; the session is real exactly when the binding is loaded and the desktop was created, switched to and verified; the shell is hidden in both modes |
| VirtualDesktop.VirtualDesktopManager.MoveWindowToVirtualDesktop | src/core/virtual_desktop.py:205-220 | nothing is moved unless the session is real with the binding loaded; success exactly when the move answers 0 or more |
| VirtualDesktop.VirtualDesktopManager.IsWindowOnVirtualDesktop | src/core/virtual_desktop.py:222-232 | true exactly in a real session when the binding answers a positive number |
| VirtualDesktop.VirtualDesktopManager.IsVirtualDesktopActive | src/core/virtual_desktop.py:481-490 | outside a real session, or when the query raises, it answers whether a session was created; otherwise whether the current desktop is the isolated one |
| VirtualDesktop.VirtualDesktopManager.WindowsOnVirtualDesktop | src/core/virtual_desktop.py:424-452 | no windows without the binding or an isolated desktop; `None` when the enumeration raised; otherwise the leftovers |
| VirtualDesktop.VirtualDesktopManager.ForceCloseRemaining | src/core/virtual_desktop.py:454-479 | the log grows by the sweep over the given windows |
| VirtualDesktop.VirtualDesktopManager.Cleanup | src/core/virtual_desktop.py:360-422 | nothing without a session; kiosk mode restores the shell; a real session switches in, sweeps, switches back, removes the desktop and restores the shell; a raising enumeration stops the teardown with the session still marked created |
| VirtualDesktop.CollectLeftovers | src/core/virtual_desktop.py:431-452 | the callback collects the leftovers in enumeration order |
| VirtualDesktop.TeardownOrder | src/core/virtual_desktop.py:360-422 | in a completed real teardown every leftover that still exists is asked to close before the switch back, then the isolated desktop is removed, and the shell is restored last |
| LockIn.When | main.py:67-99 | a guarded step runs exactly when its window exists, and at most once |
| LockIn.Attempted | main.py:65-102 | the steps that run under one exception handler are a prefix of the sequence |
| LockIn.AttemptedStopsAtFirstRaise | main.py:65-102 | with no throwing step the whole sequence runs; otherwise the run ends with the first step that throws and nothing before it threw |
| LockIn.NoRaiseCons | main.py:65-102 | a step that does not throw in front of a sequence does not change whether the sequence throws |
| LockIn.NoRaiseConcat | main.py:65-102 | two parts run one after the other throw nowhere exactly when neither part throws |
| LockIn.AttemptedConcat | main.py:65-102 | under one handler, the second part starts only if no step of the first threw |
| LockIn.ShutdownOrder | main.py:55-110 | every existing window is given permission to close before the applications are closed, the applications are closed before any window is, and the desktop is torn down last |
| LockIn.ShutdownCoversWindows | main.py:66-94 | exactly the windows that exist are given permission to close, and exactly they are closed |
| LockIn.ShutdownCoversWindow | main.py:66-94 | one window is given permission to close, and is closed, exactly when it exists |
| LockIn.PermissionStepsShape | main.py:66-74 | step 1 only grants permission to close, and does so for exactly the existing windows |
| LockIn.ClosingStepsShape | main.py:82-94 | steps 3 and 4 only close windows, and close exactly the existing ones |
| LockIn.LockInApp.constructor | main.py:26-39 | no window yet and cleanup not run |
| LockIn.LockInApp.Guarded | main.py:67-99 | one `hasattr` step runs when its window exists and no earlier step threw |
| LockIn.LockInApp.GrantClosing | main.py:66-74 | step 1 runs as far as the first step that throws |
| LockIn.LockInApp.CloseWindows | main.py:82-94 | steps 3 and 4 run as far as the first step that throws |
| LockIn.LockInApp.Cleanup | main.py:55-110 | a second call does nothing; the first runs the shutdown sequence up to the first throwing step, schedules the quit, and returns `True` in every case |
| LockIn.LockInApp.SignalHandler | main.py:47-53 | cleans up unless that already happened, then quits |
| LockIn.LockInApp.CleanupAndExit | main.py:168-175 | cleans up (at most once) and then quits |
| LockIn.LockInApp.CreateWindows | main.py:119-166 | the desktop is created first, then the windows in build order, as far as building got |
| LockIn.LockInApp.Run | main.py:113-131 | a failed desktop creation is only reported; a window that fails to build leads to cleanup over the windows built so far and exit code 1; otherwise the event loop runs and its exit code is returned |
| LockIn.BuildTable | main.py:133-166 | the steps and windows of each possible partial build |
| LockIn.Built | main.py:133-166 | at most three windows are built |
| LockIn.Created | main.py:133-166 | the windows that exist after a partial build are the first ones in build order |
| LockIn.BuildSteps | main.py:113-166 | the desktop step comes first, then one creation step per window in build order |
| WindowManagement.AvailableArea | src/core/window_manager.py:40-47 | the available area leaves a margin of one sidebar width (300) on the left and on the right and keeps the top and the height |
| WindowManagement.HorizontalTiling | src/core/window_manager.py:140-155 | side-by-side tiles start at the left edge, share the full height, each begins where the previous ends, and leave fewer than `n` pixels of width unused |
| WindowManagement.VerticalTiling | src/core/window_manager.py:157-172 | stacked tiles start at the top, share the full width, each begins where the previous ends, and leave fewer than `n` pixels of height unused |
| WindowManagement.QuadTiling | src/core/window_manager.py:174-196 | the four quadrants are equal, adjoin each other, and the last stops less than two pixels short of the far corner |
| WindowManagement.MaximizedOps | src/core/window_manager.py:128-138 | one operation per window |
| WindowManagement.HorizontalOps | src/core/window_manager.py:140-155 | one operation per window |
| WindowManagement.VerticalOps | src/core/window_manager.py:157-172 | one operation per window |
| WindowManagement.QuadOps | src/core/window_manager.py:174-199 | one operation per window |
| WindowManagement.FloatingOps | src/core/window_manager.py:201-205 | one operation per window |
| WindowManagement.LayoutTouchesEachWindowOnce | src/core/window_manager.py:94-110 | every layout acts on each visible window exactly once, in order |
| WindowManagement.MaximizedPlacesOnlyFirst | src/core/window_manager.py:128-138 | the maximized layout gives the whole area to the first window and hides all the others |
| WindowManagement.QuadPlacesAtMostFour | src/core/window_manager.py:187-199 | the quad layout places at most the first four windows and hides every later one |
| WindowManagement.Visible | src/core/window_manager.py:112-126 | the reported windows are exactly the registered ones that are shown and not minimised |
| WindowManagement.DroppedOf | src/core/window_manager.py:120-124 | the pruned windows are exactly those gone or failing to answer |
| WindowManagement.DroppedList | src/core/window_manager.py:120-124 | the same windows as `DroppedOf`, in registry order |
| WindowManagement.ScanRegistry | src/core/window_manager.py:115-124 | the walk over the registry finds the visible and the pruned windows |
| WindowManagement.WindowList | src/core/window_manager.py:242-264 | a row is listed for every managed window that can still be queried, carrying its app id, app name, title and state, and no other rows |
| WindowManagement.WindowManager.constructor | src/core/window_manager.py:35-47 | nothing managed, the maximized layout, the area between the sidebars |
| WindowManagement.WindowManager.Store | src/core/window_manager.py:59-65 | the entry is set and the insertion order keeps an existing key's place |
| WindowManagement.WindowManager.ForgetAll | src/core/window_manager.py:121-124 | every listed window is deleted and the rest keep their order |
| WindowManagement.WindowManager.VisibleManagedWindows | src/core/window_manager.py:112-126 | returns the visible windows and deletes exactly the gone or failing ones, keeping minimised ones |
| WindowManagement.WindowManager.ApplyMaximized | src/core/window_manager.py:128-138 | the log grows by the maximized layout's operations |
| WindowManagement.WindowManager.ApplyTiledHorizontal | src/core/window_manager.py:140-155 | the log grows by the side-by-side tiling |
| WindowManagement.WindowManager.ApplyTiledVertical | src/core/window_manager.py:157-172 | the log grows by the stacked tiling |
| WindowManagement.WindowManager.ApplyTiledQuad | src/core/window_manager.py:174-199 | the log grows by the quad tiling |
| WindowManagement.WindowManager.ApplyFloating | src/core/window_manager.py:201-205 | the log grows by a show of every window |
| WindowManagement.WindowManager.ApplyLayout | src/core/window_manager.py:94-110 | prunes the registry, then lays out the visible windows in the current layout; nothing is laid out when none is visible |
| WindowManagement.WindowManager.AddWindow | src/core/window_manager.py:49-73 | `True` exactly when the handle is a window whose geometry could be read; then it is registered and the layout re-applied; otherwise nothing changes |
| WindowManagement.WindowManager.RemoveWindow | src/core/window_manager.py:75-87 | an unmanaged window changes nothing; a managed one is forgotten and the layout re-applied |
| WindowManagement.WindowManager.FocusWindow | src/core/window_manager.py:219-240 | `False` for an unmanaged window; a minimised one is restored, then raised, and in the maximized layout given the whole area |
| WindowManagement.WindowManager.GetWindowList | src/core/window_manager.py:242-264 | returns `WindowList` of the registry in order |
| WindowManagement.WindowManager.SetLayout | src/core/window_manager.py:89-92 | the layout changes and is applied at once: the registry loses exactly the windows that are gone or fail, keeping its order, and the visible ones are laid out |
| WindowManagement.WindowManager.UpdateAvailableArea | src/core/window_manager.py:266-277 | the area is recomputed from the new geometry and the layout re-applied: the registry loses exactly the windows that are gone or fail, keeping its order, and the visible ones are laid out in the new area |
| WindowManagement.PruningKeepsMinimized | src/core/window_manager.py:112-126 | pruning keeps minimised windows without reporting them, reports only kept windows, and removes every gone or failing window |
| AppScanner.CalculateMatchScore | src/utils/system_app_scanner.py:502-538 | the tiered tests and the greedy in-order character scan compute exactly the score `MatchScore` defines: 1000 exact, 900 prefix, 800 word start, 700 substring, else 50 per query character when the query is a subsequence of the name, else 0 |
| AppScanner.FirstMatchKeeps | src/utils/system_app_scanner.py:525-536 | taking the first matching character, as the scan's `break` does, never loses a subsequence match that exists |
| AppScanner.ScorePositiveIffSubsequence | src/utils/system_app_scanner.py:502-538 | a name scores above 0 exactly when the query is a subsequence of it |
| AppScanner.SearchApps | src/utils/system_app_scanner.py:483-500 | the loop, the stable descending sort and the cut at 50 compute `SearchResult`; an empty query returns every app |
| AppScanner.SearchReturnsHits | src/utils/system_app_scanner.py:490-500 | a non-empty query returns at most 50 apps, as many as there are hits up to that bound, each an installed app holding the query as a subsequence of its lower-cased name |
| AppScanner.SearchOrdered | src/utils/system_app_scanner.py:499-500 | the results come in non-increasing order of match score |
| AppScanner.SearchComplete | src/utils/system_app_scanner.py:490-500 | with at most 50 hits, every installed app that matches is returned |
| AppScanner.SearchTiesKeepOrder | src/utils/system_app_scanner.py:499 | apps with equal scores keep the order of the installed list (the sort is stable) |
| AppScanner.RankedPermutes | src/utils/system_app_scanner.py:499 | sorting the scored hits only rearranges them |
| AppScanner.AssignAllLastWins | src/utils/system_app_scanner.py:119-120 | in the registry pass the last app with a given lower-cased path is the one stored under it |
| AppScanner.AddMissingKeeps | src/utils/system_app_scanner.py:125-141 | a later pass never replaces an entry that is already present |
| AppScanner.AddMissingFirst | src/utils/system_app_scanner.py:125-127 | in a later pass a path not yet present gets the first app of that pass that has it |
| AppScanner.MergedUniquePaths | src/utils/system_app_scanner.py:114-144 | the merged list holds one app per lower-cased path |
| AppScanner.MergedSortedByName | src/utils/system_app_scanner.py:144 | the merged list is ordered by lower-cased name |
| AppScanner.MergedPaths | src/utils/system_app_scanner.py:114-144 | the merged list holds exactly the lower-cased paths found by the four scans |
| AppScanner.MergedPriority | src/utils/system_app_scanner.py:114-141 | earlier sources win: a registry app is the last registry entry with its path, a program-directory app whose path the registry lacks is the first such entry, and no later source replaces either |
| AppScanner.SystemAppScanner.StoreAll | src/utils/system_app_scanner.py:119-120 | the registry loop builds the dictionary `AssignAll` describes |
| AppScanner.SystemAppScanner.StoreMissing | src/utils/system_app_scanner.py:125-141 | each later loop builds the dictionary `AddMissing` describes |
| AppScanner.SystemAppScanner.ScanSystemApps | src/utils/system_app_scanner.py:111-144 | the cached list becomes the merged, name-sorted list of the four scans |
| AppScanner.IsValidApp | src/utils/system_app_scanner.py:400-417 | an app is valid exactly when its path exists, its name has at least 3 characters and its lower-cased name holds none of the skip words |
| AppScanner.NameRuleDefaults | src/utils/system_app_scanner.py:419-481 | with no keyword of the tables in the lower-cased name, the icon is `📱` and the category `Other` |
| AppScanner.AppIcon | src/utils/system_app_scanner.py:419-459 | the icon is that of the first key, in the dictionary's order, occurring in the lower-cased name, and `📱` when none occurs |
| AppScanner.Categorize | src/utils/system_app_scanner.py:461-481 | the category is the first, in the dictionary's order, with a keyword in the lower-cased name, and `Other` when none has one |
| AppScanner.CodeIsATextEditor | src/utils/system_app_scanner.py:461-481 | a name containing "code" is filed under Text Editors, since that entry of the category table comes before Development |
| AppScanner.ShouldRefreshCache | src/utils/system_app_scanner.py:44-53 | the cache is kept exactly when the file exists, its age can be read and it is at most seven days |
| Text.FirstHit | src/utils/system_app_scanner.py:455-481 | the result is the value of the first table entry with a keyword in the name, else the default |
| Config.WithDefaults | src/utils/config.py:238-244 | an added entry keeps its name and path and gets icon `""`, args `[]` and category `User Added` only where it lacks them |
| Config.WithoutPath | src/utils/config.py:261-264 | the filtered list keeps exactly the entries whose path differs, and is shorter exactly when some entry had the path |
| Config.WithoutAbsentPath | src/utils/config.py:262-271 | removing a path no entry has leaves the list unchanged |
| Config.WithoutPathIdempotent | src/utils/config.py:262-264 | removing a path twice leaves what removing it once leaves |
| Config.AddThenRemove | src/utils/config.py:227-275 | adding an entry under a new path and then removing that path gives back the original list |
| Config.GetSetting | src/utils/config.py:277-279 | a missing section or key yields the caller's default |
| Config.GetAfterSet | src/utils/config.py:277-292 | after `set_setting(s, k, v)`, `get_setting(s, k)` returns `v` whatever the default, creating the section if needed |
| Config.SetLeavesOthers | src/utils/config.py:281-292 | setting one key leaves every other section and key, present or missing, reading as before |
| Config.Stamped | src/utils/config.py:337-340 | the stored preset carries its name, keeps an existing `created_at` (else now) and has `last_used` set to now; the rest is the caller's data |
| Config.ResaveKeepsCreation | src/utils/config.py:337-340 | saving a preset a second time keeps the first creation time and moves only `last_used` |
| Config.SaveThenDelete | src/utils/config.py:331-362 | deleting a preset just saved under a new name restores the previous presets |
| Config.ConfigIconRules | src/utils/config.py:433-457 | the icon is the `📱` default exactly when no keyword of the icon table occurs in the lower-cased name |
| Config.ConfigIcon | src/utils/config.py:433-457 | the icon is that of the first table entry with a keyword in the lower-cased name |
| Config.PlainEntries | src/utils/config.py:370-384 | every entry collected by the loop comes from a managed app that is neither Chrome- nor Edge-named |
| Config.LastTabs | src/utils/config.py:379-382 | a browser's tab list stays empty when no app of that browser is managed |
| Config.PresetBrowsers | src/utils/config.py:364-409 | a browser never enters the preset as itself; the Chrome and Edge entries follow the other apps, each exactly when that browser's tab list is non-empty |
| Config.PresetWithoutTabReaders | src/utils/config.py:459-469 | with the tab readers as written (always empty), a preset from running apps lists only the non-browser apps and no tabs |
| Config.CurrentAppsAsPreset | src/utils/config.py:364-409 | the loop builds exactly the preset `PresetFromApps` describes, so the properties above hold for it |
| Config.ConfigManager.constructor | src/utils/config.py:16-64 | each configuration is the loaded file when it could be read, else the default one |
| Config.ConfigManager.AddApplication | src/utils/config.py:227-253 | a duplicate path is refused with `False` and the list unchanged; otherwise the entry with its defaults is appended at the end and the save's result is returned |
| Config.ConfigManager.RemoveApplication | src/utils/config.py:255-275 | every entry with the path is removed; the result is `False` when none matched, else the save's result |
| Config.ConfigManager.SetSetting | src/utils/config.py:281-292 | the settings become those with the key set in its (possibly new) section; nothing else changes |
| Config.ConfigManager.SavePreset | src/utils/config.py:331-347 | the stamped preset is stored under its name, replacing only that name |
| Config.ConfigManager.DeletePreset | src/utils/config.py:349-362 | an absent name gives `False` and no change; otherwise only that name is removed |
| AiSecurity.Encode | src/ai/ai_security.py:134-142 | the bytes `store_api_key` writes are never empty: a cipher marker always leads them |
| AiSecurity.UnframeFrame | src/ai/ai_security.py:176-181 | reading the marker strips exactly the `DPAPI:` or `FERNET:` marker that storing put in front of the ciphertext |
| AiSecurity.Decrypt | src/ai/ai_security.py:176-191 | a `DPAPI:` file cannot be read without DPAPI; a `FERNET:` file is read by Fernet alone; an unmarked file is readable exactly when DPAPI (when available) or Fernet can read it |
| AiSecurity.Load | src/ai/ai_security.py:163-209 | `_load_all_keys` either keeps the key file or deletes it (a corrupt one); a missing file loads as no keys |
| AiSecurity.BlankOrOtherLoadsEmpty | src/ai/ai_security.py:192-199 | a payload that decrypts to blank text, or to JSON that is not a dictionary, loads as no keys and the file is kept |
| AiSecurity.StoreThenLoad | src/ai/ai_security.py:123-209 | when the ciphers and the JSON codec invert each other, what `store_api_key` writes loads back as the same map and the file is kept |
| AiSecurity.ValidKeyFormatMeaning | src/ai/ai_security.py:250-263 | an OpenAI key (service name in any case) is valid exactly when it starts with `sk-` and has 40 to 200 characters; a key for any other service is valid exactly when it is not blank |
| AiSecurity.ValidKeyFormat | src/ai/ai_security.py:250-263 | a blank key is never valid, whatever the service |
| AiSecurity.AISecurityManager.constructor | src/ai/ai_security.py:30-35 | the manager starts from the given environment and the key file as found |
| AiSecurity.AISecurityManager.LoadAllKeys | src/ai/ai_security.py:163-209 | returns the loaded map and leaves the key file as loading leaves it |
| AiSecurity.AISecurityManager.StoreApiKey | src/ai/ai_security.py:123-152 | succeeds exactly when encrypting and writing do not raise; then the file holds the encoding of the loaded map with this service's entry set to the new key, and otherwise it stays as loading left it |
| AiSecurity.AISecurityManager.GetApiKey | src/ai/ai_security.py:154-161 | returns the loaded entry for the service, `None` when absent |
| AiSecurity.AISecurityManager.DeleteApiKey | src/ai/ai_security.py:211-238 | succeeds exactly when the service is stored and writing back (or removing the file) does not raise; then the file holds the remaining keys or is removed when none remain, and otherwise it stays as loading left it |
| AiSecurity.AISecurityManager.HasApiKey | src/ai/ai_security.py:240-243 | true exactly when the loaded map holds a non-null, non-blank key for the service |
| AiSecurity.AISecurityManager.ListStoredServices | src/ai/ai_security.py:245-248 | returns the services of the loaded map |
| AiSecurity.AISecurityManager.ClearAllKeys | src/ai/ai_security.py:265-273 | succeeds exactly when neither removal raises; once the key file's own removal succeeded it is gone and a later load finds no keys, and otherwise it is untouched |
| AiSecurity.AISecurityManager.StoreOpenAIApiKey | src/ai/ai_security.py:283-289 | succeeds exactly when the key is a well-formed OpenAI key and the store's write succeeds; an ill-formed key leaves the file untouched, a failed write leaves it as loading left it, and a success stores the key under `openai` |
| AiSecurity.StoreOverwritesOnlyThatService | src/ai/ai_security.py:123-152 | after a store, loading finds the new key under that service and every other service unchanged |
| AiSecurity.DeleteRemovesOnlyThatService | src/ai/ai_security.py:211-238 | after a delete, loading finds exactly the other services with their keys |
| AppSearch.MovedIndex | src/ui/app_search_widget.py:175-189 | one step of the selection stays on a row, moves by the direction when that stays in range, and wraps to the last row from before the first and to the first from after the last |
| AppSearch.AppArgs | src/ui/app_search_widget.py:359-368 | `-NoExit` is passed exactly when the lower-cased name mentions `powershell` and not `core`; otherwise no arguments |
| AppSearch.AppSearchWidget.constructor | src/ui/app_search_widget.py:21-31 | the widget starts with no results, no selection (-1) and an empty search box |
| AppSearch.AppSearchWidget.MoveSelection | src/ui/app_search_widget.py:175-189 | without results nothing changes; otherwise the selection moves as `MovedIndex` says and the results stay |
| AppSearch.AppSearchWidget.OnSearchChanged | src/ui/app_search_widget.py:257-277 | blank text clears the results; other text lists what the scanner finds for the stripped text; the first row is selected when there is one, else -1 |
| AppSearch.AppSearchWidget.LaunchSelectedApp | src/ui/app_search_widget.py:340-357 | without a selected row nothing happens; with one, exactly one launch request carrying its path, name and arguments is emitted, and the search box and results are cleared |
| AppSearch.AppSearchWidget.CurrentApp | src/ui/app_search_widget.py:370-374 | the selected application when the selection is a row, `None` otherwise |
| AiChat.FireIsStep | src/ui/floating_ai_chat.py:396-425 | walking the declared transition list gives, trigger by trigger, exactly the sources and destinations of `Step` |
| AiChat.TriggerSources | src/ui/floating_ai_chat.py:396-418 | `reset` leads to idle from every state; `api_key_set` fires only in setup_required, `response_received` only in processing, `need_setup` only in idle and error_state, always to setup_required |
| AiChat.StartAndSend | src/ui/floating_ai_chat.py:401-405 | `start_chat` takes idle to waiting_for_input and `message_sent` takes waiting_for_input to processing |
| AiChat.EveryStateReachable | src/ui/floating_ai_chat.py:387-425 | from the initial idle state every state is reachable, and `reset` returns every state to idle |
| AiChat.AutoSummarizeEveryTen | src/ui/floating_ai_chat.py:896-897 | once the threshold is reached, summaries fire exactly every ten messages |
| AiChat.ShouldAutoSummarize | src/ui/floating_ai_chat.py:891-897 | a summary is asked for only once the count has reached the threshold, and never for a count between 1 and 9 |
| AiChat.FirstCloseUnique | src/ui/floating_ai_chat.py:920-929 | the `</div>` that brings the nesting count back to 0 is unique |
| AiChat.WithoutLastMessage | src/ui/floating_ai_chat.py:911-932 | the content is unchanged when the message marker is absent or its block never closes; otherwise it is the content before the marker joined to what follows the first `</div>` that brings the nesting count to 0 |
| AiChat.FloatingAIChat.constructor | src/ui/floating_ai_chat.py:427-430 | the machine starts in idle, with an empty transcript and closing not allowed |
| AiChat.FloatingAIChat.FireTrigger | src/ui/floating_ai_chat.py:443-481 | a trigger the current state allows moves to its destination; a rejected one leaves the state as it was and reports failure |
| AiChat.FloatingAIChat.AddMessage | src/ui/floating_ai_chat.py:807-827 | the transcript gains the message block at its end and nothing else changes |
| AiChat.MessageHtml | src/ui/floating_ai_chat.py:812-817 | the block opens with the marker that removing the last message searches for, and ends with the message followed by the closing `</div>` |
| AiChat.FloatingAIChat.RemoveLastMessage | src/ui/floating_ai_chat.py:911-932 | the transcript loses its last message block as `WithoutLastMessage` states |
| AiChat.FloatingAIChat.SendMessage | src/ui/floating_ai_chat.py:829-874 | a blank message does nothing; without a key only the key dialog opens; otherwise idle goes through waiting_for_input to processing, the stripped message and the thinking placeholder are shown, and the worker starts with the current conversation |
| AiChat.FloatingAIChat.HandleAiResponse | src/ui/floating_ai_chat.py:875-897 | the placeholder gives way to the reply, a reported conversation id is adopted, processing returns to idle, and a summary is asked for exactly when the count meets the threshold and is a multiple of ten |
| AiChat.FloatingAIChat.HandleAiError | src/ui/floating_ai_chat.py:899-909 | the placeholder gives way to the error text and processing moves to error_state |
| AiChat.FloatingAIChat.AllowClosing | src/ui/floating_ai_chat.py:970-972 | closing is allowed from then on and nothing else changes |
| AiChat.FloatingAIChat.CloseEvent | src/ui/floating_ai_chat.py:974-986 | a close is accepted exactly when closing has been allowed; otherwise the user is told why not |
| AppManager.NormalizeArgs | src/ui/floating_app_manager.py:608-613 | only a PowerShell entry changes: it ends up holding `-NoExit`, appended exactly once when absent; arguments already holding it are kept as they are |
| AppManager.NormalizeArgsIdempotent | src/ui/floating_app_manager.py:608-613 | normalising the arguments twice gives what normalising once gives |
| AppManager.AppRequestsSkipBrowsers | src/ui/floating_app_manager.py:598-619 | the application loop launches no entry whose lower-cased name holds chrome, edge, msedge or firefox, and launches every other entry |
| AppManager.BrowserApps | src/ui/floating_app_manager.py:604-605 | the skipped browser entries and the launched entries together make up the whole list |
| AppManager.BrowserCommandShape | src/ui/floating_app_manager.py:506-531 | the arguments passed for Chrome are the user-data dir, `--new-window`, `--no-first-run`, `--no-default-browser-check`, `--disable-default-apps` and the URLs; Edge's are the same without `--disable-default-apps` |
| AppManager.TriedCount | src/ui/floating_app_manager.py:497-547 | the candidates are tried in order up to and including the first that launches: every earlier one failed |
| AppManager.Tried | src/ui/floating_app_manager.py:533-539 | the i-th attempt launches the i-th candidate executable with the rest of its command as arguments, under the name `"<browser> (LockIn)"` |
| AppManager.BrowserPhaseBounded | src/ui/floating_app_manager.py:621-628 | no more browsers start than have non-empty URL lists |
| AppManager.SuccessAtMostTotal | src/ui/floating_app_manager.py:593-633 | the success count never exceeds `total_count`; since skipped browser entries are still counted in the total, a preset listing one always reports partial success |
| AppManager.FloatingAppManager.constructor | src/ui/floating_app_manager.py:57-65 | the window starts with no launches, no notices and closing not allowed |
| AppManager.FloatingAppManager.TryBrowser | src/ui/floating_app_manager.py:476-558 | with no URLs it succeeds without launching; otherwise it makes the attempts `BrowserAttempts` lists and succeeds exactly when some candidate launches |
| AppManager.FloatingAppManager.LaunchIsolatedBrowser | src/ui/floating_app_manager.py:476-558 | the launches asked of the process manager are exactly those attempts, and the result is whether the browser started |
| AppManager.FloatingAppManager.LaunchApps | src/ui/floating_app_manager.py:598-619 | the loop asks for exactly the launches `AppRequests` lists, in preset order, and counts those that succeed |
| AppManager.FloatingAppManager.LaunchBrowsers | src/ui/floating_app_manager.py:621-628 | the loop launches each browser with a non-empty URL list and counts those that start |
| AppManager.FloatingAppManager.LoadSelectedPreset | src/ui/floating_app_manager.py:560-652 | no selection gives only a notice; a declined confirmation does nothing; otherwise the apps then the browsers are launched, the preset is saved with its PowerShell lists as the loop left them, and the report is full success exactly when the count equals `total_count` (apps plus browsers with URLs) |
| AppManager.FloatingAppManager.AllowClosing | src/ui/floating_app_manager.py:436-438 | closing is allowed from then on and nothing else changes |
| AppManager.FloatingAppManager.CloseEvent | src/ui/floating_app_manager.py:440-452 | a close is accepted exactly when closing has been allowed; otherwise the user is told why not |

## Left out

- Input and output are not modelled: Qt widgets, dialogs, rendering, `print`, and reading and writing JSON, cache and key files. A save, write or file removal that may raise appears as a boolean saying whether it succeeded, and a load appears as the value read (or its absence).
- The background discovery thread and the registry's `_cleanup_lock` are not modelled. The registry is modelled sequentially.
- `time.sleep`, `process.wait` and timeouts are not modelled as time. Each becomes one step between two snapshots that the caller supplies. The clock is a `real` parameter.
- `win32gui`, `win32process`, `psutil` and the `VirtualDesktopAccessor` binding are not modelled. Their answers are parameters, and their effects are recorded entries in a log.
- The shell hiding and restoring in `src/core/virtual_desktop.py:188-358` is not modelled beyond one log entry for hiding and one for restoring. That code covers taskbars, desktop icons, start button and wallpaper.
- `VirtualDesktop.VirtualDesktopManager.CreateVirtualDesktop`: a binding call that raises during creation is not modelled, and neither is a kiosk fallback that itself fails (`False`). Each binding answer is an integer, so the model's creation always ends in a session.
- `VirtualDesktop.VirtualDesktopManager.Cleanup`: the window enumeration may raise. A raise from any other binding call during teardown is not modelled.
- `get_desktop_info` (`src/core/virtual_desktop.py:492-512`) is not modelled. It only reports the manager's fields as a dictionary.
- Window handles are positive integers. A zero handle, which Python would treat as false, never occurs.
- `get_application_info` does not model CPU and memory figures. They are floats read from the process, so the model keeps only the pid, name and status.
- Lower-casing is ASCII-only: Python's Unicode case mapping beyond `A`-`Z` is not modelled. Stripping uses the full set of characters `str.isspace` accepts, and string comparison is by code point, as in Python.
- `ConfigManager` does not model the getters (`get_applications`, `get_categories`, `get_presets`, `get_preset`, `get_*_settings`). Each is a single dictionary lookup, like `GetSetting`.
- `ConfigManager` does not model `reset_to_defaults` or the default presets, because they carry the time of the call.
- `launch_browser_with_tabs` and `detect_browser_in_running_apps` in `src/utils/config.py` are not modelled. The preset loader in `src/ui/floating_app_manager.py` launches browsers through `AppManager.FloatingAppManager.LaunchIsolatedBrowser` instead.
- `Config.Json` models only null, booleans, integers and strings. Floats, lists and nested objects as setting values are not modelled.
- `AiSecurity`: DPAPI, Fernet and PBKDF2 are not modelled, nor is the machine key. They are foreign cryptography, so the model keeps only the marker framing, the key map, and ciphers given as functions.
- `AiSecurity`: a failed write is modelled as leaving the key file as loading left it. The source opens the file for writing before `write` runs, so a `write` that raises after that leaves a truncated file. The salt file that `clear_all_keys` also removes is not modelled beyond whether its removal raised.
- `AiSecurity.AISecurityManager.ListStoredServices` returns the set of services, so the order of the stored dictionary is not modelled.
- `get_openai_api_key` and `has_openai_api_key` are not modelled separately. They are `GetApiKey` and `HasApiKey` applied to `openai`.
- `AppSearch` does not model the results popup, focus handling, `eventFilter` key routing or loading applications on a thread. The scanner's result is a field of the widget.
- `AiChat` does not model the database, embeddings and OpenAI client that the worker thread and the summariser call. Starting the worker and asking for a summary are recorded effects, and the message count comes from a parameter.
- `AiChat` does not model `initialize_ai_state` or the conversation-history dialogs.
- `AiChat.FloatingAIChat.AddMessage`: the timestamp is a parameter. Qt's rewriting of the HTML between `insertHtml` and `toHtml` is not modelled.
- `AppManager.FloatingAppManager.LoadSelectedPreset`: a selected but empty preset dictionary is treated as a selection, whereas Python would treat it as none. The user's confirmation is a parameter.
- `AppManager`: the temporary user-data directory names contain a random `uuid`, so they are a parameter.
- `AppScanner`: registry, program-directory and PATH scanning are not modelled. Each scan arrives as the list it produces.
- `AppScanner`: refreshing the cache and the save after a scan are not modelled.
