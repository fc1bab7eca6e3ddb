/** The `glfw::window` class of the gvw/glfw/ revision: a display-mode state
    machine over {NOT_CREATED, WINDOWED, ICONIFIED, MAXIMIZED, FULL_SCREEN}
    whose operations are guarded by `AssertCreation`, and which saves its
    placement on entering full screen and restores it on leaving.
    Errors go to the GLFW-level error callback, which only reports: each
    reported code is appended to an `ErrorLog` and execution continues as the
    source does. */
module GlfwWindow {
  import opened Wrappers
  import opened WindowPlacement

  const GlfwDontCare: int := -1

  const ModeNotCreated: int := 0
  const ModeWindowed: int := 1
  const ModeIconified: int := 2
  const ModeMaximized: int := 3
  const ModeFullScreen: int := 4

  const MinWindowWidth: int := 1
  const MinWindowHeight: int := 1

  const ErrorWindowAlreadyCreated: int := 0x00012001
  const ErrorInvalidDimensions: int := 0x00012002
  const ErrorWindowNotCreatedBeforeOperation: int := 0x00012003
  const ErrorParentWindowNotCreated: int := 0x00012004
  const ErrorMonitorIdNotInitialized: int := 0x00013001

  /** ASSERT_SUCCESS and ASSERT_FAILURE. */
  const AssertSuccess: bool := false
  const AssertFailure: bool := true

  /** The sentinel the getters return for an uncreated window. */
  const NoCoordinate: Coordinate := Coordinate(-1, -1)
  const NoArea: Area := Area(-1, -1)

  /** Every code reported through the error callback, in order. */
  class ErrorLog {
    var codes: seq<int>

    constructor ()
      ensures codes == []
    {
      codes := [];
    }

    method Report(code: int)
      modifies this
      ensures codes == old(codes) + [code]
    {
      codes := codes + [code];
    }
  }

  /** The state of a `glfw::window` as values: its GLFW id, display mode,
      default placement, GLFW's close flag for it, and the last
      `glfwSetWindowMonitor` call. */
  datatype WindowState = WindowState(
    windowId: Option<nat>,
    displayMode: int,
    defaultPlacement: Placement,
    shouldClose: bool,
    lastMonitorRequest: Option<MonitorRequest>)

  /** `Create_` on a window in state `s`: the new state and the codes reported.
      `createdId` is what `glfwCreateWindow` answers (`None` is a failed
      creation) and `created` what GLFW then reports for the window's position
      and size. */
  function Creation(s: WindowState, width: int, height: int, monitor: Option<nat>,
                    createdId: Option<nat>, created: Placement): (r: (WindowState, seq<int>))
    ensures s.windowId.Some? ==> r == (s, [ErrorWindowAlreadyCreated])
    ensures s.windowId.None? && (width < MinWindowWidth || height < MinWindowHeight) ==> r == (s, [ErrorInvalidDimensions])
    ensures s.windowId.None? && width >= MinWindowWidth && height >= MinWindowHeight ==>
              && r.0.windowId == createdId
              && r.0.displayMode == (if monitor.None? then ModeWindowed else ModeFullScreen)
              && !r.0.shouldClose
              && r.0.lastMonitorRequest == s.lastMonitorRequest
              && (createdId.Some? ==> r.0.defaultPlacement == created && r.1 == [])
              && (createdId.None? ==> r.0.defaultPlacement == Placement(NoCoordinate, NoArea)
                                      && r.1 == [ErrorWindowNotCreatedBeforeOperation, ErrorWindowNotCreatedBeforeOperation])
  {
    if s.windowId.Some? then (s, [ErrorWindowAlreadyCreated])
    else if width < MinWindowWidth || height < MinWindowHeight then (s, [ErrorInvalidDimensions])
    else
      var mode := if monitor.None? then ModeWindowed else ModeFullScreen;
      if createdId.Some? then (WindowState(createdId, mode, created, false, s.lastMonitorRequest), [])
      else (WindowState(None, mode, Placement(NoCoordinate, NoArea), false, s.lastMonitorRequest),
            [ErrorWindowNotCreatedBeforeOperation, ErrorWindowNotCreatedBeforeOperation])
  }

  /** Closing a window, destroying it and creating it again: the new GLFW window
      starts with its close flag clear, whatever the old one had. The state
      changes are those `SetShouldClose` and `Destroy` ensure. */
  lemma RecreatedWindowStartsOpen(s: WindowState, width: int, height: int, monitor: Option<nat>,
                                  createdId: nat, created: Placement)
    requires s.windowId.Some? && width >= MinWindowWidth && height >= MinWindowHeight
    ensures var closed := s.(shouldClose := true);
            var destroyed := closed.(windowId := None, displayMode := ModeNotCreated);
            var after := Creation(destroyed, width, height, monitor, Some(createdId), created).0;
            after.windowId == Some(createdId) && !after.shouldClose
  {
  }

  /** `monitor::AssertInitialization`: a monitor with a null id is reported. */
  method AssertMonitorInitialization(monitor: Option<nat>, log: ErrorLog) returns (failed: bool)
    modifies log
    ensures failed <==> monitor.None?
    ensures log.codes == old(log.codes) + (if failed then [ErrorMonitorIdNotInitialized] else [])
  {
    if monitor.None? {
      log.Report(ErrorMonitorIdNotInitialized);
      return AssertFailure;
    }
    return AssertSuccess;
  }

  class Window {
    /** `windowId_`; `None` is WINDOW_ID_NULL. */
    var windowId: Option<nat>
    var displayMode: int
    var defaultPlacement: Placement
    /** GLFW's close flag for the window. */
    var shouldClose: bool
    /** The last `glfwSetWindowMonitor` call, if any. */
    var lastMonitorRequest: Option<MonitorRequest>

    ghost function State(): WindowState
      reads this
    {
      WindowState(windowId, displayMode, defaultPlacement, shouldClose, lastMonitorRequest)
    }

    /** The display mode is one of the five, an uncreated-by-GLFW window is
        never iconified or maximized, and a created one always has a mode. */
    ghost predicate Valid()
      reads this
    {
      && ModeNotCreated <= displayMode <= ModeFullScreen
      && (windowId.None? ==> displayMode != ModeIconified && displayMode != ModeMaximized)
      && (windowId.Some? ==> displayMode != ModeNotCreated)
    }

    constructor ()
      ensures Valid()
      ensures windowId.None? && displayMode == ModeNotCreated && lastMonitorRequest.None? && !shouldClose
    {
      windowId, displayMode, lastMonitorRequest, shouldClose := None, ModeNotCreated, None, false;
    }

    /** `AssertCreation`: reports `code` and answers ASSERT_FAILURE exactly when the id is null. */
    method AssertCreation(code: int, log: ErrorLog) returns (failed: bool)
      modifies log
      ensures failed <==> windowId.None?
      ensures log.codes == old(log.codes) + (if failed then [code] else [])
    {
      if windowId.None? {
        log.Report(code);
        return AssertFailure;
      }
      return AssertSuccess;
    }

    /** `GetPositionInScreenCoordinates`: what `glfwGetWindowPos` answers now
        (`reported`), or (-1, -1) when uncreated. */
    method GetPositionInScreenCoordinates(reported: Coordinate, log: ErrorLog) returns (p: Coordinate)
      modifies log
      ensures windowId.None? ==> p == NoCoordinate && log.codes == old(log.codes) + [ErrorWindowNotCreatedBeforeOperation]
      ensures windowId.Some? ==> p == reported && log.codes == old(log.codes)
    {
      p := NoCoordinate;
      var failed := AssertCreation(ErrorWindowNotCreatedBeforeOperation, log);
      if failed == AssertSuccess {
        p := reported;
      }
    }

    /** `GetSizeInScreenCoordinates`: what `glfwGetWindowSize` answers now
        (`reported`), or (-1, -1) when uncreated. */
    method GetSizeInScreenCoordinates(reported: Area, log: ErrorLog) returns (s: Area)
      modifies log
      ensures windowId.None? ==> s == NoArea && log.codes == old(log.codes) + [ErrorWindowNotCreatedBeforeOperation]
      ensures windowId.Some? ==> s == reported && log.codes == old(log.codes)
    {
      s := NoArea;
      var failed := AssertCreation(ErrorWindowNotCreatedBeforeOperation, log);
      if failed == AssertSuccess {
        s := reported;
      }
    }

    /** `Id`: null when uncreated. */
    method Id(log: ErrorLog) returns (id: Option<nat>)
      modifies log
      ensures id == windowId
      ensures log.codes == old(log.codes) + (if windowId.None? then [ErrorWindowNotCreatedBeforeOperation] else [])
    {
      var failed := AssertCreation(ErrorWindowNotCreatedBeforeOperation, log);
      if failed == AssertFailure {
        return None;
      }
      id := windowId;
    }

    /** `GetWindowAttribute_`: GLFW_DONT_CARE when uncreated, else what GLFW answers. */
    method GetWindowAttribute(glfwAnswer: int, log: ErrorLog) returns (value: int)
      modifies log
      ensures windowId.None? ==> value == GlfwDontCare
      ensures windowId.Some? ==> value == glfwAnswer
      ensures log.codes == old(log.codes) + (if windowId.None? then [ErrorWindowNotCreatedBeforeOperation] else [])
    {
      var failed := AssertCreation(ErrorWindowNotCreatedBeforeOperation, log);
      if failed == AssertFailure {
        return GlfwDontCare;
      }
      value := glfwAnswer;
    }

    /** `ShouldClose`: GLFW's close flag, which the program sets with `Close`
        and `CancelClose` and GLFW sets on a user's close request
        (`CloseRequested`); false when uncreated. */
    method ShouldClose(log: ErrorLog) returns (b: bool)
      modifies log
      ensures b == (windowId.Some? && shouldClose)
      ensures log.codes == old(log.codes) + (if windowId.None? then [ErrorWindowNotCreatedBeforeOperation] else [])
    {
      var failed := AssertCreation(ErrorWindowNotCreatedBeforeOperation, log);
      if failed == AssertFailure {
        return false;
      }
      b := shouldClose;
    }

    /** GLFW sets the close flag itself when the user asks to close a created
        window (the title bar's close button, Alt+F4); `ShouldClose` then
        answers true until the program cancels the request. This is GLFW's
        doing, not a call the program makes. */
    method CloseRequested()
      modifies this
      ensures State() == old(State()).(shouldClose := old(windowId).Some? || old(shouldClose))
    {
      if windowId.Some? {
        shouldClose := true;
      }
    }

    /** `Close` and `CancelClose`: set the close flag, only on a created window. */
    method SetShouldClose(value: bool, log: ErrorLog)
      modifies this, log
      ensures State() == old(State()).(shouldClose := if old(windowId).Some? then value else old(shouldClose))
      ensures log.codes == old(log.codes) + (if windowId.None? then [ErrorWindowNotCreatedBeforeOperation] else [])
    {
      var failed := AssertCreation(ErrorWindowNotCreatedBeforeOperation, log);
      if failed == AssertFailure {
        return;
      }
      shouldClose := value;
    }

    /** `Create_`: see `Creation`. */
    method Create_(width: int, height: int, monitor: Option<nat>, share: Option<nat>,
                   createdId: Option<nat>, created: Placement, log: ErrorLog)
      requires Valid()
      modifies this, log
      ensures Valid()
      ensures State() == Creation(old(State()), width, height, monitor, createdId, created).0
      ensures log.codes == old(log.codes) + Creation(old(State()), width, height, monitor, createdId, created).1
    {
      if windowId.Some? {
        log.Report(ErrorWindowAlreadyCreated);
        return;
      }
      if width < MinWindowWidth || height < MinWindowHeight {
        log.Report(ErrorInvalidDimensions);
        return;
      }
      displayMode := if monitor.None? then ModeWindowed else ModeFullScreen;
      windowId := createdId;
      shouldClose := false;
      var p := GetPositionInScreenCoordinates(created.position, log);
      var s := GetSizeInScreenCoordinates(created.size, log);
      defaultPlacement := Placement(p, s);
    }

    /** `Create` on a full-screen monitor: an uninitialised monitor stops it before `Create_`. */
    method CreateOnMonitor(width: int, height: int, monitor: Option<nat>,
                           createdId: Option<nat>, created: Placement, log: ErrorLog)
      requires Valid()
      modifies this, log
      ensures Valid()
      ensures monitor.None? ==> State() == old(State()) && log.codes == old(log.codes) + [ErrorMonitorIdNotInitialized]
      ensures monitor.Some? ==>
                && State() == Creation(old(State()), width, height, monitor, createdId, created).0
                && log.codes == old(log.codes) + Creation(old(State()), width, height, monitor, createdId, created).1
    {
      var failed := AssertMonitorInitialization(monitor, log);
      if failed == AssertFailure {
        return;
      }
      Create_(width, height, monitor, None, createdId, created, log);
    }

    /** `Create` sharing a context with `share`: an uncreated `share` is reported
        as ERROR_PARENT_WINDOW_NOT_CREATED and stops it before `Create_`. */
    method CreateShared(width: int, height: int, share: Window,
                        createdId: Option<nat>, created: Placement, log: ErrorLog)
      requires Valid()
      modifies this, log
      ensures Valid()
      ensures old(share.windowId).None? ==>
                State() == old(State()) && log.codes == old(log.codes) + [ErrorParentWindowNotCreated]
      ensures old(share.windowId).Some? ==>
                && State() == Creation(old(State()), width, height, None, createdId, created).0
                && log.codes == old(log.codes) + Creation(old(State()), width, height, None, createdId, created).1
    {
      var failed := share.AssertCreation(ErrorParentWindowNotCreated, log);
      if failed == AssertFailure {
        return;
      }
      Create_(width, height, None, share.windowId, createdId, created, log);
    }

    /** `Create` with both: the monitor is checked first, and only then the shared window. */
    method CreateOnMonitorShared(width: int, height: int, monitor: Option<nat>, share: Window,
                                 createdId: Option<nat>, created: Placement, log: ErrorLog)
      requires Valid()
      modifies this, log
      ensures Valid()
      ensures monitor.None? ==> State() == old(State()) && log.codes == old(log.codes) + [ErrorMonitorIdNotInitialized]
      ensures monitor.Some? && old(share.windowId).None? ==>
                State() == old(State()) && log.codes == old(log.codes) + [ErrorParentWindowNotCreated]
      ensures monitor.Some? && old(share.windowId).Some? ==>
                && State() == Creation(old(State()), width, height, monitor, createdId, created).0
                && log.codes == old(log.codes) + Creation(old(State()), width, height, monitor, createdId, created).1
    {
      var failed := AssertMonitorInitialization(monitor, log);
      if failed == AssertFailure {
        return;
      }
      failed := share.AssertCreation(ErrorParentWindowNotCreated, log);
      if failed == AssertFailure {
        return;
      }
      Create_(width, height, monitor, share.windowId, createdId, created, log);
    }

    /** `Destroy`: only a created window is destroyed, so a second call does nothing. */
    method Destroy()
      requires Valid()
      modifies this
      ensures Valid()
      ensures old(windowId).Some? ==> State() == old(State()).(windowId := None, displayMode := ModeNotCreated)
      ensures old(windowId).None? ==> State() == old(State())
    {
      if windowId.Some? {
        windowId := None;
        displayMode := ModeNotCreated;
      }
    }

    /** `FullScreen`: nothing happens on an uncreated window, with an uninitialised
        monitor, or when already full screen; otherwise the placement GLFW
        reports now (`current`) is saved and the window goes to `monitor` at its
        video mode. */
    method FullScreen(current: Placement, monitor: Option<nat>, videoMode: VideoMode, log: ErrorLog)
      requires Valid()
      modifies this, log
      ensures Valid()
      ensures windowId == old(windowId) && shouldClose == old(shouldClose)
      ensures old(windowId).None? ==> log.codes == old(log.codes) + [ErrorWindowNotCreatedBeforeOperation]
      ensures old(windowId).Some? && monitor.None? ==> log.codes == old(log.codes) + [ErrorMonitorIdNotInitialized]
      ensures (old(windowId).None? || monitor.None? || old(displayMode) == ModeFullScreen) ==> State() == old(State())
      ensures old(windowId).Some? && monitor.Some? && old(displayMode) == ModeFullScreen ==> log.codes == old(log.codes)
      ensures (old(windowId).Some? && monitor.Some? && old(displayMode) != ModeFullScreen) ==>
                && displayMode == ModeFullScreen && defaultPlacement == current
                && lastMonitorRequest == Some(MonitorRequest(monitor, GlfwFalse, GlfwFalse, videoMode.width, videoMode.height, videoMode.refreshRate))
                && log.codes == old(log.codes)
    {
      var failed := AssertCreation(ErrorWindowNotCreatedBeforeOperation, log);
      if failed == AssertFailure {
        return;
      }
      failed := AssertMonitorInitialization(monitor, log);
      if failed == AssertFailure || displayMode == ModeFullScreen {
        return;
      }
      var p := GetPositionInScreenCoordinates(current.position, log);
      var s := GetSizeInScreenCoordinates(current.size, log);
      defaultPlacement := Placement(p, s);
      displayMode := ModeFullScreen;
      lastMonitorRequest := Some(MonitorRequest(monitor, GlfwFalse, GlfwFalse, videoMode.width, videoMode.height, videoMode.refreshRate));
    }

    /** `ExitFullScreen()`: only a full-screen window leaves it, back to windowed
        mode at the saved placement. */
    method ExitFullScreen(log: ErrorLog)
      requires Valid()
      modifies this, log
      ensures Valid()
      ensures windowId == old(windowId) && defaultPlacement == old(defaultPlacement) && shouldClose == old(shouldClose)
      ensures log.codes == old(log.codes) + (if windowId.None? then [ErrorWindowNotCreatedBeforeOperation] else [])
      ensures old(windowId).Some? && old(displayMode) == ModeFullScreen ==>
                displayMode == ModeWindowed
                && lastMonitorRequest == Some(MonitorRequest(None, defaultPlacement.position.x, defaultPlacement.position.y,
                                                             defaultPlacement.size.width, defaultPlacement.size.height, GlfwDontCare))
      ensures !(old(windowId).Some? && old(displayMode) == ModeFullScreen) ==> State() == old(State())
    {
      var failed := AssertCreation(ErrorWindowNotCreatedBeforeOperation, log);
      if failed == AssertFailure || displayMode != ModeFullScreen {
        return;
      }
      displayMode := ModeWindowed;
      lastMonitorRequest := Some(MonitorRequest(None, defaultPlacement.position.x, defaultPlacement.position.y,
                                                defaultPlacement.size.width, defaultPlacement.size.height, GlfwDontCare));
    }

    /** `ExitFullScreen(x, y, width, height)`: as above, at the given placement,
        which is in pixels and goes through `PixelToScreenCoordinate` first (given
        here as `pixelToScreen`, a pair in and a pair out). */
    method ExitFullScreenAt(target: Placement, pixelToScreen: (int, int) -> (int, int), log: ErrorLog)
      requires Valid()
      modifies this, log
      ensures Valid()
      ensures windowId == old(windowId) && defaultPlacement == old(defaultPlacement) && shouldClose == old(shouldClose)
      ensures log.codes == old(log.codes) + (if windowId.None? then [ErrorWindowNotCreatedBeforeOperation] else [])
      ensures old(windowId).Some? && old(displayMode) == ModeFullScreen ==>
                var position := pixelToScreen(target.position.x, target.position.y);
                var size := pixelToScreen(target.size.width, target.size.height);
                && displayMode == ModeWindowed
                && lastMonitorRequest == Some(MonitorRequest(None, position.0, position.1, size.0, size.1, GlfwDontCare))
      ensures !(old(windowId).Some? && old(displayMode) == ModeFullScreen) ==> State() == old(State())
    {
      var failed := AssertCreation(ErrorWindowNotCreatedBeforeOperation, log);
      if failed == AssertFailure || displayMode != ModeFullScreen {
        return;
      }
      var (x, y) := pixelToScreen(target.position.x, target.position.y);
      var (width, height) := pixelToScreen(target.size.width, target.size.height);
      displayMode := ModeWindowed;
      lastMonitorRequest := Some(MonitorRequest(None, x, y, width, height, GlfwDontCare));
    }

    /** `Minimize` and `Maximize`: on a created window the mode becomes `mode`
        whatever it was (a full-screen window is not taken out of full screen first). */
    method Iconify(maximize: bool, log: ErrorLog)
      requires Valid()
      modifies this, log
      ensures Valid()
      ensures old(windowId).None? ==> State() == old(State())
      ensures old(windowId).Some? ==> State() == old(State()).(displayMode := if maximize then ModeMaximized else ModeIconified)
      ensures log.codes == old(log.codes) + (if windowId.None? then [ErrorWindowNotCreatedBeforeOperation] else [])
    {
      var failed := AssertCreation(ErrorWindowNotCreatedBeforeOperation, log);
      if failed == AssertFailure {
        return;
      }
      displayMode := if maximize then ModeMaximized else ModeIconified;
    }

    /** `Restore`: a full-screen window first leaves full screen; a created window ends windowed. */
    method Restore(log: ErrorLog)
      requires Valid()
      modifies this, log
      ensures Valid()
      ensures windowId == old(windowId) && defaultPlacement == old(defaultPlacement) && shouldClose == old(shouldClose)
      ensures old(windowId).None? ==> State() == old(State()) && log.codes == old(log.codes) + [ErrorWindowNotCreatedBeforeOperation]
      ensures old(windowId).Some? ==> displayMode == ModeWindowed && log.codes == old(log.codes)
      ensures old(windowId).Some? && old(displayMode) == ModeFullScreen ==>
                lastMonitorRequest == Some(MonitorRequest(None, defaultPlacement.position.x, defaultPlacement.position.y,
                                                          defaultPlacement.size.width, defaultPlacement.size.height, GlfwDontCare))
      ensures old(windowId).Some? && old(displayMode) != ModeFullScreen ==> lastMonitorRequest == old(lastMonitorRequest)
    {
      var failed := AssertCreation(ErrorWindowNotCreatedBeforeOperation, log);
      if failed == AssertFailure {
        return;
      }
      if displayMode == ModeFullScreen {
        ExitFullScreen(log);
      }
      displayMode := ModeWindowed;
    }
  }
}
