/**
 * The isolated desktop of a focus session. On Windows 10/11 the manager asks the
 * VirtualDesktopAccessor binding for a real virtual desktop and switches to it; when the
 * binding is missing or any step of creation goes wrong it degrades to "kiosk mode", where
 * the shell (taskbar, desktop icons, start button, wallpaper) is merely hidden.
 *
 * Every binding function answers with an integer, negative meaning failure. The answers are
 * parameters here; the calls that change the desktop are appended to `log`.
 */
module VirtualDesktop {
  import opened Wrappers
  import opened Os

  /** What loading the binding and running its self-test gave. */
  datatype DllProbe =
    | DllMissing                          // the file is not next to the application
    | LoadFailed                          // loading it or one of its calls raised
    | Loaded(current: int, count: int)    // GetCurrentDesktopNumber, GetDesktopCount

  /** The effects the manager has on the desktop, in the order it causes them. */
  datatype DesktopCall =
    | CreateDesktop
    | GoToDesktop(number: int)
    | RemoveDesktop(remove: int, fallback: int)
    | MoveWindow(window: Hwnd, target: int)
    | PostCloseLeftover(leftover: Hwnd)    // WM_CLOSE to a window left on the isolated desktop
    | TerminateOwner(ownerOf: Hwnd)        // terminate the process owning it
    | DestroyLeftover(destroyed: Hwnd)     // DestroyWindow as the last resort
    | HideShell                            // taskbars, desktop icons, start button, wallpaper
    | RestoreShell                         // taskbars and desktop icons

  /** The integers the binding answers during `create_virtual_desktop`, in call order. */
  datatype CreateReplies = CreateReplies(
    current0: int,   // GetCurrentDesktopNumber before creation
    count0: int,     // GetDesktopCount before creation
    created: int,    // CreateDesktop
    switched: int,   // GoToDesktopNumber(created)
    current1: int,   // GetCurrentDesktopNumber after the switch
    count1: int)     // GetDesktopCount after the switch

  /** How a window found on the isolated desktop reacts to being force-closed. */
  datatype LeftoverReply = LeftoverReply(
    isWindow: bool,          // it still exists (and its title can be read)
    closesInTime: bool,      // it is gone half a second after WM_CLOSE
    ownerTerminable: bool)   // looking up and terminating its process does not raise

  /** What the desktop answers during `cleanup`. */
  datatype TeardownEnv = TeardownEnv(
    current: int,                          // GetCurrentDesktopNumber at the start
    windows: Option<seq<WindowInfo>>,      // the EnumWindows pass; None when it raised
    leftover: Hwnd -> LeftoverReply)

  /** The binding counts as loaded only when its self-test gives a sane desktop number and count. */
  predicate DllWorks(p: DllProbe) {
    p.Loaded? && p.current >= 0 && p.count > 0
  }

  /** Creation ends on a real virtual desktop: created, switched to, and verified. */
  predicate ReachesReal(r: CreateReplies) {
    r.created >= 0 && r.switched >= 0 && r.current1 == r.created && r.count1 > r.count0
  }

  /** The binding calls `create_virtual_desktop` makes before the shell is hidden. */
  function CreateCalls(dllLoaded: bool, r: CreateReplies): (c: seq<DesktopCall>)
    ensures !dllLoaded ==> c == []
    ensures RemoveDesktop(r.created, r.current0) in c <==> dllLoaded && r.created >= 0 && r.switched < 0
    ensures forall i :: 0 <= i < |c| ==> c[i].CreateDesktop? || c[i].GoToDesktop? || c[i].RemoveDesktop?
  {
    if !dllLoaded then []
    else if r.created < 0 then [CreateDesktop]
    else if r.switched < 0 then [CreateDesktop, GoToDesktop(r.created), RemoveDesktop(r.created, r.current0)]
    else [CreateDesktop, GoToDesktop(r.created)]
  }

  /** Shell windows that the sweep never touches. */
  const ShellClasses: seq<string> :=
    ["Shell_TrayWnd", "Shell_SecondaryTrayWnd", "Progman", "WorkerW", "DV2ControlHost", "ForegroundStaging"]

  /** A window the sweep collects: a visible, titled, non-shell window on the isolated desktop. */
  predicate IsLeftover(w: WindowInfo, virtualNumber: int) {
    w.readable && w.isWindow && w.visible && w.desktop == virtualNumber
    && w.className !in ShellClasses && w.title != []
  }

  /** The handles the window-collection callback appends, in enumeration order. */
  function Leftovers(ws: seq<WindowInfo>, virtualNumber: int): (r: seq<Hwnd>)
    ensures |r| <= |ws|
    ensures forall w :: w in ws && IsLeftover(w, virtualNumber) ==> w.hwnd in r
    ensures forall h :: h in r ==> exists w :: w in ws && IsLeftover(w, virtualNumber) && w.hwnd == h
  {
    if ws == [] then []
    else
      var init := ws[..|ws| - 1];
      var w := ws[|ws| - 1];
      assert forall x :: x in ws ==> x in init || x == w;
      Leftovers(init, virtualNumber) + (if IsLeftover(w, virtualNumber) then [w.hwnd] else [])
  }

  /** Force-closing one leftover: WM_CLOSE, then terminating its process, then destroying it. */
  function ForceCloseCalls(h: Hwnd, reply: LeftoverReply): (c: seq<DesktopCall>)
    ensures c != [] <==> reply.isWindow
    ensures c != [] ==> c[0] == PostCloseLeftover(h)
  {
    if !reply.isWindow then []
    else if reply.closesInTime then [PostCloseLeftover(h)]
    else if reply.ownerTerminable then [PostCloseLeftover(h), TerminateOwner(h)]
    else [PostCloseLeftover(h), DestroyLeftover(h)]
  }

  /** A call that the sweep may make, aimed at window `h`. */
  predicate SweepCallOn(a: DesktopCall, h: Hwnd) {
    a == PostCloseLeftover(h) || a == TerminateOwner(h) || a == DestroyLeftover(h)
  }

  /** `_force_close_remaining_windows`: each window in turn. */
  function Sweep(hs: seq<Hwnd>, fate: Hwnd -> LeftoverReply): seq<DesktopCall> {
    if hs == [] then []
    else Sweep(hs[..|hs| - 1], fate) + ForceCloseCalls(hs[|hs| - 1], fate(hs[|hs| - 1]))
  }

  /** The sweep only acts on the windows it was given, and never on a desktop. */
  lemma {:induction false} SweepTouchesOnlyLeftovers(hs: seq<Hwnd>, fate: Hwnd -> LeftoverReply)
    ensures forall a :: a in Sweep(hs, fate) ==> exists h :: h in hs && SweepCallOn(a, h)
    decreases |hs|
  {
    if hs != [] {
      var init, last := hs[..|hs| - 1], hs[|hs| - 1];
      SweepTouchesOnlyLeftovers(init, fate);
      forall a | a in Sweep(hs, fate) ensures exists h :: h in hs && SweepCallOn(a, h) {
        if a in Sweep(init, fate) {
          var h :| h in init && SweepCallOn(a, h);
          assert h in hs;
        } else {
          assert a in ForceCloseCalls(last, fate(last));
          assert SweepCallOn(a, last);
        }
      }
    }
  }

  /** Every leftover that still exists receives a close request. */
  lemma {:induction false} SweepPostsToEveryWindow(hs: seq<Hwnd>, fate: Hwnd -> LeftoverReply)
    ensures forall h :: h in hs && fate(h).isWindow ==> PostCloseLeftover(h) in Sweep(hs, fate)
    decreases |hs|
  {
    if hs != [] {
      var init, last := hs[..|hs| - 1], hs[|hs| - 1];
      SweepPostsToEveryWindow(init, fate);
      forall h | h in hs && fate(h).isWindow ensures PostCloseLeftover(h) in Sweep(hs, fate) {
        if h in init {
          assert PostCloseLeftover(h) in Sweep(init, fate);
        } else {
          assert h == last;
          assert ForceCloseCalls(last, fate(last))[0] == PostCloseLeftover(h);
        }
      }
    }
  }

  /** Before the sweep: make sure the isolated desktop is the current one. */
  function SwitchToVirtual(virtualNumber: Option<int>, current: int): (c: seq<DesktopCall>)
    ensures c != [] <==> virtualNumber.Some? && current != virtualNumber.value
    ensures c != [] ==> c == [GoToDesktop(virtualNumber.value)]
  {
    if virtualNumber.Some? && current != virtualNumber.value then [GoToDesktop(virtualNumber.value)] else []
  }

  /** After the sweep: back to the original desktop, then remove the isolated one. */
  function SwitchBackAndRemove(virtualNumber: Option<int>, originalNumber: Option<int>): (c: seq<DesktopCall>)
    ensures forall a :: a in c ==> a.GoToDesktop? || a.RemoveDesktop?
    ensures (exists a :: a in c && a.RemoveDesktop?) <==> virtualNumber.Some? && originalNumber.Some?
  {
    var back := if originalNumber.Some? then [GoToDesktop(originalNumber.value)] else [];
    var remove := if virtualNumber.Some? && originalNumber.Some?
                  then [RemoveDesktop(virtualNumber.value, originalNumber.value)] else [];
    assert remove != [] ==> remove[0] in back + remove;
    back + remove
  }

  class VirtualDesktopManager {
    var originalDesktop: Option<int>
    var virtualDesktop: Option<int>
    var desktopCreated: bool
    var realVirtualDesktop: bool
    var dllLoaded: bool
    var log: seq<DesktopCall>

    /** Real mode is only ever entered with the binding loaded and both desktop numbers known. */
    ghost predicate Valid()
      reads this
    {
      realVirtualDesktop ==> dllLoaded && originalDesktop.Some? && virtualDesktop.Some?
    }

    /** `__init__`: nothing created yet; the binding is loaded iff its self-test passes. */
    constructor (probe: DllProbe)
      ensures Valid()
      ensures dllLoaded == DllWorks(probe)
      ensures originalDesktop == None && virtualDesktop == None
      ensures !desktopCreated && !realVirtualDesktop
      ensures log == []
    {
      originalDesktop, virtualDesktop := None, None;
      desktopCreated, realVirtualDesktop := false, false;
      dllLoaded := DllWorks(probe);
      log := [];
    }

    /** `_fallback_to_kiosk_mode`: hide the shell and call the session created, not real. */
    method FallbackToKiosk() returns (ok: bool)
      modifies this`log, this`realVirtualDesktop, this`desktopCreated
      ensures ok && desktopCreated && !realVirtualDesktop
      ensures log == old(log) + [HideShell]
    {
      log := log + [HideShell];
      realVirtualDesktop := false;
      desktopCreated := true;
      ok := true;
    }

    /** `create_virtual_desktop`: a real virtual desktop when every step checks out, kiosk mode otherwise. */
    method CreateVirtualDesktop(r: CreateReplies) returns (ok: bool)
      requires Valid()
      modifies this
      ensures Valid()
      ensures ok && desktopCreated
      ensures realVirtualDesktop <==> dllLoaded && ReachesReal(r)
      ensures dllLoaded == old(dllLoaded)
      ensures originalDesktop == (if dllLoaded then Some(r.current0) else old(originalDesktop))
      ensures virtualDesktop == (if dllLoaded && r.created >= 0 then Some(r.created) else old(virtualDesktop))
      ensures log == old(log) + CreateCalls(dllLoaded, r) + [HideShell]
    {
      if !dllLoaded {
        ok := FallbackToKiosk();
        return;
      }
      originalDesktop := Some(r.current0);
      log := log + [CreateDesktop];
      if r.created < 0 {
        ok := FallbackToKiosk();
        return;
      }
      virtualDesktop := Some(r.created);
      log := log + [GoToDesktop(r.created)];
      if r.switched < 0 {
        log := log + [RemoveDesktop(r.created, r.current0)];
        ok := FallbackToKiosk();
        return;
      }
      if r.current1 == r.created && r.count1 > r.count0 {
        realVirtualDesktop := true;
        desktopCreated := true;
        log := log + [HideShell];
        ok := true;
      } else {
        ok := FallbackToKiosk();
      }
    }

    /** Window migration is possible only on a real desktop through a loaded binding. */
    predicate CanMigrate()
      reads this
    {
      dllLoaded && realVirtualDesktop && virtualDesktop.Some?
    }

    /**
     * `move_window_to_virtual_desktop`: `reply` is what MoveWindowToDesktopNumber answers,
     * `None` when the call raised.
     */
    method MoveWindowToVirtualDesktop(h: Hwnd, reply: Option<int>) returns (ok: bool)
      modifies this`log
      ensures !CanMigrate() ==> !ok && log == old(log)
      ensures CanMigrate() ==> log == old(log) + [MoveWindow(h, virtualDesktop.value)]
      ensures ok <==> CanMigrate() && reply.Some? && reply.value >= 0
    {
      if !CanMigrate() {
        return false;
      }
      log := log + [MoveWindow(h, virtualDesktop.value)];
      ok := reply.Some? && reply.value >= 0;
    }

    /** `is_window_on_virtual_desktop`: `reply` is what IsWindowOnDesktopNumber answers, `None` when it raised. */
    function IsWindowOnVirtualDesktop(reply: Option<int>): (r: bool)
      reads this
      ensures r <==> CanMigrate() && reply.Some? && reply.value > 0
    {
      if !CanMigrate() then false
      else match reply
        case None => false
        case Some(n) => n > 0
    }

    /**
     * `is_virtual_desktop_active`: `current` is what GetCurrentDesktopNumber answers, `None`
     * when it raised.
     */
    function IsVirtualDesktopActive(current: Option<int>): (r: bool)
      reads this
      ensures !(dllLoaded && realVirtualDesktop) || current.None? ==> (r <==> desktopCreated)
      ensures dllLoaded && realVirtualDesktop && current.Some? ==> (r <==> virtualDesktop == Some(current.value))
    {
      if !dllLoaded || !realVirtualDesktop then desktopCreated
      else match current
        case None => desktopCreated
        case Some(n) => virtualDesktop == Some(n)
    }

    /** `_get_windows_on_virtual_desktop`: None when the enumeration itself raised. */
    method WindowsOnVirtualDesktop(windows: Option<seq<WindowInfo>>) returns (r: Option<seq<Hwnd>>)
      ensures !dllLoaded || virtualDesktop.None? ==> r == Some([])
      ensures dllLoaded && virtualDesktop.Some? && windows.None? ==> r.None?
      ensures dllLoaded && virtualDesktop.Some? && windows.Some? ==>
                r == Some(Leftovers(windows.value, virtualDesktop.value))
    {
      if !dllLoaded || virtualDesktop.None? {
        return Some([]);
      }
      if windows.None? {
        return None;
      }
      var found := CollectLeftovers(windows.value, virtualDesktop.value);
      r := Some(found);
    }

    /** `_force_close_remaining_windows`. */
    method ForceCloseRemaining(hs: seq<Hwnd>, fate: Hwnd -> LeftoverReply)
      modifies this`log
      ensures log == old(log) + Sweep(hs, fate)
    {
      for i := 0 to |hs|
        invariant log == old(log) + Sweep(hs[..i], fate)
      {
        assert hs[..i + 1][..i] == hs[..i];
        log := log + ForceCloseCalls(hs[i], fate(hs[i]));
      }
      assert hs[..|hs|] == hs;
    }

    /**
     * `cleanup`. Nothing happens unless a session was created. A real session is torn down by
     * switching to the isolated desktop, sweeping what is left on it, switching back and
     * removing it; both modes then restore the shell and clear `desktopCreated`. When the
     * window enumeration raises, the method stops where it is and the flag stays set.
     */
    method Cleanup(env: TeardownEnv)
      requires Valid()
      modifies this`log, this`desktopCreated
      ensures Valid()
      ensures !old(desktopCreated) ==> log == old(log) && !desktopCreated
      ensures old(desktopCreated) && !realVirtualDesktop ==> log == old(log) + [RestoreShell] && !desktopCreated
      ensures old(desktopCreated) && realVirtualDesktop && env.windows.None? ==>
                log == old(log) + SwitchToVirtual(virtualDesktop, env.current) && desktopCreated
      ensures old(desktopCreated) && realVirtualDesktop && env.windows.Some? ==>
                !desktopCreated &&
                log == old(log) + SwitchToVirtual(virtualDesktop, env.current)
                       + Sweep(Leftovers(env.windows.value, virtualDesktop.value), env.leftover)
                       + SwitchBackAndRemove(virtualDesktop, originalDesktop) + [RestoreShell]
    {
      if !desktopCreated {
        return;
      }
      if realVirtualDesktop {
        log := log + SwitchToVirtual(virtualDesktop, env.current);
        var remaining := WindowsOnVirtualDesktop(env.windows);
        if remaining.None? {
          return;
        }
        ForceCloseRemaining(remaining.value, env.leftover);
        log := log + SwitchBackAndRemove(virtualDesktop, originalDesktop);
      }
      log := log + [RestoreShell];
      desktopCreated := false;
    }
  }

  /** The window-collection callback of `_get_windows_on_virtual_desktop`, appending as it goes. */
  method CollectLeftovers(ws: seq<WindowInfo>, virtualNumber: int) returns (found: seq<Hwnd>)
    ensures found == Leftovers(ws, virtualNumber)
  {
    found := [];
    for i := 0 to |ws|
      invariant found == Leftovers(ws[..i], virtualNumber)
    {
      assert ws[..i + 1][..i] == ws[..i];
      if IsLeftover(ws[i], virtualNumber) {
        found := found + [ws[i].hwnd];
      }
    }
    assert ws[..|ws|] == ws;
  }

  /**
   * A completed teardown of a real session closes every leftover that still exists before the
   * desktop is removed, ends with the removal of the isolated desktop (back to the original
   * one), and restores the shell last.
   */
  lemma TeardownOrder(virtualNumber: int, originalNumber: int, env: TeardownEnv)
    requires env.windows.Some?
    ensures var sweep := Sweep(Leftovers(env.windows.value, virtualNumber), env.leftover);
            var tail := SwitchBackAndRemove(Some(virtualNumber), Some(originalNumber));
            var c := SwitchToVirtual(Some(virtualNumber), env.current) + sweep + tail + [RestoreShell];
            && (forall w :: w in env.windows.value && IsLeftover(w, virtualNumber) && env.leftover(w.hwnd).isWindow
                  ==> PostCloseLeftover(w.hwnd) in c[..|c| - 3])
            && c[|c| - 3] == GoToDesktop(originalNumber)
            && c[|c| - 2] == RemoveDesktop(virtualNumber, originalNumber)
            && c[|c| - 1] == RestoreShell
  {
    var hs := Leftovers(env.windows.value, virtualNumber);
    var sweep := Sweep(hs, env.leftover);
    var head := SwitchToVirtual(Some(virtualNumber), env.current) + sweep;
    var tail := SwitchBackAndRemove(Some(virtualNumber), Some(originalNumber));
    assert tail == [GoToDesktop(originalNumber), RemoveDesktop(virtualNumber, originalNumber)];
    var c := head + tail + [RestoreShell];
    assert c == head + [GoToDesktop(originalNumber), RemoveDesktop(virtualNumber, originalNumber), RestoreShell];
    assert c[..|c| - 3] == head;
    SweepPostsToEveryWindow(hs, env.leftover);
    forall w | w in env.windows.value && IsLeftover(w, virtualNumber) && env.leftover(w.hwnd).isWindow
      ensures PostCloseLeftover(w.hwnd) in head
    {
      assert w.hwnd in hs;
      assert PostCloseLeftover(w.hwnd) in sweep;
    }
  }
}
