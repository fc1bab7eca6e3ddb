/** The `glfw::Window` class of the earlier vgw/ revision: a create/destroy
    guard on the window id. Its error callback prints and carries on, so a
    reported error does not stop the caller; in particular `AssertCreation`
    returns nothing, and the `Create` overloads go on to `Create_` whether or
    not the monitor or the shared window passed their check. */
module VgwWindow {
  import opened Wrappers
  import GW = GlfwWindow

  const MinWindowWidth: int := 1
  const MinWindowHeight: int := 1

  const ErrorWindowAlreadyCreated: int := 0x00020001
  const ErrorInvalidDimensions: int := 0x00020002
  const ErrorParentWindowNotCreated: int := 0x00020003
  const ErrorMonitorIdNotInitialized: int := 0x00030001

  /** `Monitor::AssertInitialization`: reports a null monitor id and returns nothing. */
  method AssertMonitorInitialization(monitor: Option<nat>, log: GW.ErrorLog)
    modifies log
    ensures log.codes == old(log.codes) + (if monitor.None? then [ErrorMonitorIdNotInitialized] else [])
  {
    if monitor.None? {
      log.Report(ErrorMonitorIdNotInitialized);
    }
  }

  /** The error codes `Create_` reports for a window whose id is `id`. */
  function CreateErrors(id: Option<nat>, width: int, height: int): (codes: seq<int>)
    ensures id.Some? ==> codes == [ErrorWindowAlreadyCreated]
    ensures id.None? && (width < MinWindowWidth || height < MinWindowHeight) ==> codes == [ErrorInvalidDimensions]
    ensures codes == [] <==> id.None? && width >= MinWindowWidth && height >= MinWindowHeight
  {
    if id.Some? then [ErrorWindowAlreadyCreated]
    else if width < MinWindowWidth || height < MinWindowHeight then [ErrorInvalidDimensions]
    else []
  }

  class Window {
    /** `windowId_`; `None` is WINDOW_ID_DEFAULT. */
    var windowId: Option<nat>

    constructor ()
      ensures windowId.None?
    {
      windowId := None;
    }

    /** `Create_`: a created window or bad dimensions are reported and nothing
        changes; otherwise the id is what `glfwCreateWindow` answers. */
    method Create_(width: int, height: int, monitor: Option<nat>, share: Option<nat>,
                   createdId: Option<nat>, log: GW.ErrorLog)
      modifies this, log
      ensures log.codes == old(log.codes) + CreateErrors(old(windowId), width, height)
      ensures windowId == if CreateErrors(old(windowId), width, height) == [] then createdId else old(windowId)
    {
      if windowId.Some? {
        log.Report(ErrorWindowAlreadyCreated);
        return;
      }
      if width < MinWindowWidth || height < MinWindowHeight {
        log.Report(ErrorInvalidDimensions);
        return;
      }
      windowId := createdId;
    }

    /** `Destroy`: only a created window is destroyed, so a second call does nothing. */
    method Destroy()
      modifies this
      ensures windowId.None?
    {
      if windowId.Some? {
        windowId := None;
      }
    }

    /** `AssertCreation`: reports an uncreated window; returns nothing. */
    method AssertCreation(log: GW.ErrorLog)
      modifies log
      ensures log.codes == old(log.codes) + (if windowId.None? then [ErrorParentWindowNotCreated] else [])
    {
      if windowId.None? {
        log.Report(ErrorParentWindowNotCreated);
      }
    }

    /** `Create` on a monitor: the monitor check reports but does not stop `Create_`. */
    method CreateOnMonitor(width: int, height: int, monitor: Option<nat>, createdId: Option<nat>, log: GW.ErrorLog)
      modifies this, log
      ensures log.codes == old(log.codes) + (if monitor.None? then [ErrorMonitorIdNotInitialized] else [])
                                          + CreateErrors(old(windowId), width, height)
      ensures windowId == if CreateErrors(old(windowId), width, height) == [] then createdId else old(windowId)
    {
      AssertMonitorInitialization(monitor, log);
      Create_(width, height, monitor, None, createdId, log);
    }

    /** `Create` sharing `share`'s context: an uncreated `share` is reported, and
        the window is still created, with a null share. */
    method CreateShared(width: int, height: int, share: Window, createdId: Option<nat>, log: GW.ErrorLog)
      modifies this, log
      ensures log.codes == old(log.codes) + (if old(share.windowId).None? then [ErrorParentWindowNotCreated] else [])
                                          + CreateErrors(old(windowId), width, height)
      ensures windowId == if CreateErrors(old(windowId), width, height) == [] then createdId else old(windowId)
    {
      share.AssertCreation(log);
      Create_(width, height, None, share.windowId, createdId, log);
    }

    /** `Create` with both: both checks report, neither stops `Create_`. */
    method CreateOnMonitorShared(width: int, height: int, monitor: Option<nat>, share: Window,
                                 createdId: Option<nat>, log: GW.ErrorLog)
      modifies this, log
      ensures log.codes == old(log.codes) + (if monitor.None? then [ErrorMonitorIdNotInitialized] else [])
                                          + (if old(share.windowId).None? then [ErrorParentWindowNotCreated] else [])
                                          + CreateErrors(old(windowId), width, height)
      ensures windowId == if CreateErrors(old(windowId), width, height) == [] then createdId else old(windowId)
    {
      AssertMonitorInitialization(monitor, log);
      share.AssertCreation(log);
      Create_(width, height, monitor, share.windowId, createdId, log);
    }
  }
}
