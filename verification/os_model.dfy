/**
 * What the application observes of the Windows desktop. Every operating-system query is
 * an oracle the caller supplies; the records here are the answers it gives about one
 * top-level window during one `EnumWindows` pass.
 */
module Os {

  /** A window handle. The desktop never hands out handle 0, so a handle is always truthy. */
  type Hwnd = h: int | h > 0 witness 1

  type Pid = nat

  /**
   * One window as an enumeration pass sees it. `readable` is false when querying the
   * window raised (the callbacks then skip that window); `desktop` is the number the
   * virtual-desktop binding reports for it.
   */
  datatype WindowInfo = WindowInfo(
    hwnd: Hwnd,
    readable: bool,
    isWindow: bool,
    visible: bool,
    ownerPid: Pid,
    title: string,
    className: string,
    desktop: int)

  /** The answer of `psutil.Process.is_running()`; `Inaccessible` stands for the exceptions it can raise. */
  datatype ProcStatus = Running | NotRunning | Inaccessible
}
