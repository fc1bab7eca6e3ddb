/** Window placement shared by the `window` (src/) and `window_t` (gvw/) classes:
    entering full screen remembers where the window was, and leaving it puts the
    window back there unless the caller names another place. The only effect on
    GLFW is one `glfwSetWindowMonitor` call, recorded here as a `MonitorRequest`. */
module WindowPlacement {
  import opened Wrappers

  const GlfwFalse: int := 0

  datatype Coordinate = Coordinate(x: int, y: int)
  datatype Area = Area(width: int, height: int)

  /** Where a window is and how large it is. */
  datatype Placement = Placement(position: Coordinate, size: Area)

  /** The fields of a `GLFWvidmode` that full screen uses. */
  datatype VideoMode = VideoMode(width: int, height: int, refreshRate: int)

  /** The arguments of a `glfwSetWindowMonitor` call; `monitor == None` means windowed. */
  datatype MonitorRequest = MonitorRequest(monitor: Option<nat>, x: int, y: int, width: int, height: int, refreshRate: int)

  /** The video mode used for full screen: the one passed in, or else the monitor's current one. */
  function ChosenVideoMode(requested: Option<VideoMode>, monitorMode: VideoMode): (vm: VideoMode)
    ensures requested.Some? ==> vm == requested.value
    ensures requested.None? ==> vm == monitorMode
  {
    requested.GetOr(monitorMode)
  }

  /** `EnterFullScreen`: the new reset placement and the request issued. */
  function EnterFullScreen(current: Placement, monitor: nat, requested: Option<VideoMode>, monitorMode: VideoMode)
    : (result: (Placement, MonitorRequest))
    ensures result.0 == current
    ensures result.1.monitor == Some(monitor)
    ensures result.1.x == GlfwFalse && result.1.y == GlfwFalse
    ensures var vm := ChosenVideoMode(requested, monitorMode);
            result.1.width == vm.width && result.1.height == vm.height && result.1.refreshRate == vm.refreshRate
  {
    var vm := ChosenVideoMode(requested, monitorMode);
    (current, MonitorRequest(Some(monitor), GlfwFalse, GlfwFalse, vm.width, vm.height, vm.refreshRate))
  }

  /** `ExitFullScreen`: each of position and size is the given one, or else the reset one. */
  function ExitFullScreen(reset: Placement, position: Option<Coordinate>, size: Option<Area>): (request: MonitorRequest)
    ensures request.monitor.None? && request.refreshRate == GlfwFalse
    ensures position.Some? ==> request.x == position.value.x && request.y == position.value.y
    ensures position.None? ==> request.x == reset.position.x && request.y == reset.position.y
    ensures size.Some? ==> request.width == size.value.width && request.height == size.value.height
    ensures size.None? ==> request.width == reset.size.width && request.height == reset.size.height
  {
    var p := position.GetOr(reset.position);
    var s := size.GetOr(reset.size);
    MonitorRequest(None, p.x, p.y, s.width, s.height, GlfwFalse)
  }

  /** The windowed request that puts a window exactly at `p`. */
  function WindowedAt(p: Placement): MonitorRequest {
    MonitorRequest(None, p.position.x, p.position.y, p.size.width, p.size.height, GlfwFalse)
  }

  /** Leaving full screen without arguments puts the window back where it was
      when full screen was entered, whatever monitor and video mode were used. */
  lemma EnterThenExitRestores(current: Placement, monitor: nat, requested: Option<VideoMode>, monitorMode: VideoMode)
    ensures ExitFullScreen(EnterFullScreen(current, monitor, requested, monitorMode).0, None, None) == WindowedAt(current)
  {
  }

  /** Arguments given to `ExitFullScreen` win over the reset placement. */
  lemma ExplicitExitIgnoresReset(reset1: Placement, reset2: Placement, p: Coordinate, s: Area)
    ensures ExitFullScreen(reset1, Some(p), Some(s)) == ExitFullScreen(reset2, Some(p), Some(s))
    ensures ExitFullScreen(reset1, Some(p), Some(s)) == WindowedAt(Placement(p, s))
  {
  }
}
