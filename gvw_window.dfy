/** The `window_t` class of the gvw/ revision: the global `INSTANCE_COUNT` that
    initialises GLFW for the first window and terminates it after the last one,
    the static callbacks that fill the event queues, the grouped Clear calls and
    full-screen placement. */
module GvwWindow {
  import opened Wrappers
  import opened WindowEvents
  import opened WindowPlacement

  /** The global library state: `INSTANCE_COUNT` and how often `Init` and
      `glfwTerminate` have been called. */
  datatype Library = Library(instanceCount: nat, initCalls: nat, terminateCalls: nat)

  const Unloaded: Library := Library(0, 0, 0)

  /** GLFW is initialised exactly while some window exists. */
  predicate Initialized(l: Library) {
    l.initCalls == l.terminateCalls + 1
  }

  /** Every window alive is counted, and GLFW is up exactly while one is. */
  predicate Balanced(l: Library) {
    && l.terminateCalls <= l.initCalls <= l.terminateCalls + 1
    && (Initialized(l) <==> l.instanceCount > 0)
  }

  /** The `window_t` constructor's effect on the library: `Init` when the count is 0, then `++`. */
  function Opened(l: Library): (r: Library)
    ensures r.instanceCount == l.instanceCount + 1 && r.terminateCalls == l.terminateCalls
    ensures r.initCalls == l.initCalls + (if l.instanceCount == 0 then 1 else 0)
  {
    Library(l.instanceCount + 1, l.initCalls + (if l.instanceCount == 0 then 1 else 0), l.terminateCalls)
  }

  /** The destructor's effect: `--`, then `glfwTerminate` when the count reaches 0. */
  function Closed(l: Library): (r: Library)
    requires l.instanceCount > 0
    ensures r.instanceCount == l.instanceCount - 1 && r.initCalls == l.initCalls
    ensures r.terminateCalls == l.terminateCalls + (if l.instanceCount == 1 then 1 else 0)
  {
    Library(l.instanceCount - 1, l.initCalls, l.terminateCalls + (if l.instanceCount == 1 then 1 else 0))
  }

  /** Why a `window_t` constructor stops: `Init`'s two checks report through
      the GVW error callback, and a failed `glfwCreateWindow` through the GLFW
      error callback `Init` installed; by default both throw. */
  datatype OpenError = GlfwInitFailed | VulkanNotSupported | WindowCreationFailed

  /** The effect of `Init` and the count in the `window_t` constructor on the library, given what
      `glfwInit` and `glfwVulkanSupported` answer: `Init` runs only for the first
      window, and when it throws the window is never counted. */
  function Opening(l: Library, glfwInitOk: bool, vulkanSupported: bool): (r: (Library, Option<OpenError>))
    ensures r.1.None? <==> l.instanceCount > 0 || (glfwInitOk && vulkanSupported)
    ensures r.1.None? ==> r.0 == Opened(l)
    ensures r.1 == Some(GlfwInitFailed) <==> l.instanceCount == 0 && !glfwInitOk
    ensures r.1 == Some(GlfwInitFailed) ==> r.0 == l
    ensures r.1 == Some(VulkanNotSupported) ==>
              r.0.instanceCount == l.instanceCount && r.0.initCalls == l.initCalls + 1 && r.0.terminateCalls == l.terminateCalls
  {
    if l.instanceCount > 0 then (Opened(l), None)
    else if !glfwInitOk then (l, Some(GlfwInitFailed))
    else if !vulkanSupported then (l.(initCalls := l.initCalls + 1), Some(VulkanNotSupported))
    else (Opened(l), None)
  }

  /** A failed `glfwInit` leaves the library as it was, balance included. */
  lemma GlfwInitFailureChangesNothing(l: Library, vulkanSupported: bool)
    requires Balanced(l) && l.instanceCount == 0
    ensures Opening(l, false, vulkanSupported) == (l, Some(GlfwInitFailed))
    ensures Balanced(Opening(l, false, vulkanSupported).0)
  {
  }

  /** When only the Vulkan check fails, `glfwInit` has already succeeded and the
      throw skips `INSTANCE_COUNT++`: GLFW stays initialised while no window is
      counted, and no destructor will terminate it. */
  lemma VulkanFailureLeavesGlfwInitialized(l: Library)
    requires Balanced(l) && l.instanceCount == 0
    ensures var after := Opening(l, true, false).0;
            Initialized(after) && after.instanceCount == 0 && !Balanced(after)
  {
  }

  /** The whole `window_t` constructor's effect on the library: `Opening`, then
      `glfwCreateWindow`, whose failure (`windowCreated` false) throws after the
      window has been counted. */
  function Construction(l: Library, glfwInitOk: bool, vulkanSupported: bool, windowCreated: bool)
    : (r: (Library, Option<OpenError>))
    ensures Opening(l, glfwInitOk, vulkanSupported).1.Some? ==> r == Opening(l, glfwInitOk, vulkanSupported)
    ensures Opening(l, glfwInitOk, vulkanSupported).1.None? ==>
              && r.0 == Opened(l)
              && (r.1.None? <==> windowCreated)
              && (r.1.Some? ==> r.1.value == WindowCreationFailed)
  {
    var o := Opening(l, glfwInitOk, vulkanSupported);
    if o.1.Some? || windowCreated then o else (o.0, Some(WindowCreationFailed))
  }

  /** A run of successful window constructions (`true`) and destructions (`false`); `None`
      when a destruction would happen with no window alive. */
  function Run(l: Library, ops: seq<bool>): Option<Library>
    decreases |ops|
  {
    if |ops| == 0 then Some(l)
    else if ops[0] then Run(Opened(l), ops[1..])
    else if l.instanceCount == 0 then None
    else Run(Closed(l), ops[1..])
  }

  /** Opening and closing keep the library balanced. */
  lemma StepKeepsBalance(l: Library, open: bool)
    requires Balanced(l)
    requires open || l.instanceCount > 0
    ensures Balanced(if open then Opened(l) else Closed(l))
  {
  }

  /** Over any run of successful constructions and destructions from a balanced state,
      GLFW is initialised exactly while at least one window exists, and `Init`
      and `glfwTerminate` alternate. */
  lemma {:induction false} RunKeepsBalance(l: Library, ops: seq<bool>)
    requires Balanced(l)
    ensures Run(l, ops).Some? ==> Balanced(Run(l, ops).value)
    decreases |ops|
  {
    if |ops| > 0 {
      if ops[0] {
        StepKeepsBalance(l, true);
        RunKeepsBalance(Opened(l), ops[1..]);
      } else if l.instanceCount > 0 {
        StepKeepsBalance(l, false);
        RunKeepsBalance(Closed(l), ops[1..]);
      }
    }
  }

  /** After as many destructions as constructions, GLFW has been terminated as
      often as it was initialised. */
  lemma {:induction false} ClosingEveryWindowTerminates(l: Library, ops: seq<bool>)
    requires Balanced(l)
    requires Run(l, ops).Some? && Run(l, ops).value.instanceCount == 0
    ensures Run(l, ops).value.initCalls == Run(l, ops).value.terminateCalls
  {
    RunKeepsBalance(l, ops);
  }

  /** Closing `n` windows while more than `n` are counted only lowers the count. */
  lemma {:induction false} CloseWhileOthersRemain(l: Library, n: nat)
    requires l.instanceCount > n
    ensures Run(l, seq(n, _ => false)) == Some(l.(instanceCount := l.instanceCount - n))
    decreases n
  {
    if n > 0 {
      var ops := seq(n, _ => false);
      assert ops[1..] == seq(n - 1, _ => false);
      CloseWhileOthersRemain(Closed(l), n - 1);
    }
  }

  /** A failed `glfwCreateWindow` leaves the count raised for a window that
      does not exist, so no destructor will ever lower it: once every window
      that does exist is destroyed, one window is still counted and GLFW has
      not been terminated. */
  lemma WindowCreationFailureLeaksCount(l: Library)
    requires Balanced(l)
    ensures Construction(l, true, true, false) == (Opened(l), Some(WindowCreationFailed))
    ensures var after := Run(Opened(l), seq(l.instanceCount, _ => false));
            && after.Some? && after.value.instanceCount == 1 && Initialized(after.value)
  {
    CloseWhileOthersRemain(Opened(l), l.instanceCount);
  }

  /** `INSTANCE_COUNT` and the GLFW lifetime it governs. */
  class GlfwLibrary {
    var instanceCount: nat
    var initCalls: nat
    var terminateCalls: nat

    ghost function State(): Library
      reads this
    {
      Library(instanceCount, initCalls, terminateCalls)
    }

    constructor ()
      ensures State() == Unloaded
    {
      instanceCount, initCalls, terminateCalls := 0, 0, 0;
    }

    /** The library part of the `window_t` constructor: `Init` for the first
        window, which throws when `glfwInit` or `glfwVulkanSupported` fails, then
        `INSTANCE_COUNT++`. */
    method OpenWindow(glfwInitOk: bool, vulkanSupported: bool) returns (error: Option<OpenError>)
      modifies this
      ensures (State(), error) == Opening(old(State()), glfwInitOk, vulkanSupported)
    {
      if instanceCount == 0 {
        if !glfwInitOk {
          return Some(GlfwInitFailed);
        }
        initCalls := initCalls + 1;
        if !vulkanSupported {
          return Some(VulkanNotSupported);
        }
      }
      instanceCount := instanceCount + 1;
      error := None;
    }

    /** The library part of the `window_t` destructor; only a constructed window is destroyed. */
    method CloseWindow()
      requires instanceCount > 0
      modifies this
      ensures State() == Closed(old(State()))
    {
      instanceCount := instanceCount - 1;
      if instanceCount == 0 {
        terminateCalls := terminateCalls + 1;
      }
    }
  }

  class WindowT {
    const events: EventQueues
    var resetPlacement: Placement
    var lastMonitorRequest: Option<MonitorRequest>

    /** The part of `window_t(info)` after the window is counted: the reset
        placement is what GLFW reports for the created window (`created`). */
    constructor (created: Placement)
      ensures resetPlacement == created && lastMonitorRequest == None
      ensures fresh(events) && events.Snapshot() == NoEvents
    {
      events := new EventQueues();
      resetPlacement, lastMonitorRequest := created, None;
    }

    /** `~window_t()`. */
    method Destroy(library: GlfwLibrary)
      requires library.instanceCount > 0
      modifies library
      ensures library.State() == Closed(old(library.State()))
    {
      library.CloseWindow();
    }

    /** The static callback for `e`'s kind on this window. */
    method Callback(e: Event)
      modifies events
      ensures events.Snapshot() == Record(old(events.Snapshot()), e)
    {
      events.Append(e);
    }

    /** `Clear<Kind>Events` for one of the fourteen vectors. */
    method ClearQueue(q: Queue)
      modifies events
      ensures events.Snapshot() == old(events.Snapshot()).With(q, [])
    {
      events.Clear(q);
    }

    method ClearCloseEvents()
      modifies events
      ensures events.Snapshot() == old(events.Snapshot()).(closeCount := 0)
    {
      events.ClearCloseEvents();
    }

    method ClearRefreshEvents()
      modifies events
      ensures events.Snapshot() == old(events.Snapshot()).(refreshCount := 0)
    {
      events.ClearRefreshEvents();
    }

    method ClearInputEvents()
      modifies events
      ensures events.Snapshot() == ClearInput(old(events.Snapshot()))
    {
      events.ClearInputEvents();
    }

    method ClearWindowEvents()
      modifies events
      ensures events.Snapshot() == ClearWindow(old(events.Snapshot()))
    {
      events.ClearWindowEvents();
    }

    /** `ClearEvents` is `ClearInputEvents` then `ClearWindowEvents`, which empties everything. */
    method ClearEvents()
      modifies events
      ensures events.Snapshot() == ClearWindow(ClearInput(old(events.Snapshot())))
      ensures events.Snapshot() == NoEvents
    {
      events.ClearInputEvents();
      events.ClearWindowEvents();
      ClearBothEmptiesAll(old(events.Snapshot()));
    }

    /** `EnterFullScreen`: remember where the window is now (`current`, what
        GLFW reports for its position and size), then go full screen. */
    method EnterFullScreen(current: Placement, monitor: nat, requested: Option<VideoMode>, monitorMode: VideoMode)
      modifies this
      ensures resetPlacement == current
      ensures lastMonitorRequest == Some(WindowPlacement.EnterFullScreen(current, monitor, requested, monitorMode).1)
    {
      var (reset, request) := WindowPlacement.EnterFullScreen(current, monitor, requested, monitorMode);
      resetPlacement := reset;
      lastMonitorRequest := Some(request);
    }

    method ExitFullScreen(position: Option<Coordinate>, size: Option<Area>)
      modifies this
      ensures resetPlacement == old(resetPlacement)
      ensures lastMonitorRequest == Some(WindowPlacement.ExitFullScreen(old(resetPlacement), position, size))
    {
      lastMonitorRequest := Some(WindowPlacement.ExitFullScreen(resetPlacement, position, size));
    }
  }

  /** `window_t(info)`: `Init` for the first window and the count, then
      `glfwCreateWindow` (`windowCreated` is whether it returned a window).
      When `Init` throws, the count is unchanged; when creation fails, the
      count has already been raised. Only a full success yields a window. */
  method NewWindow(library: GlfwLibrary, glfwInitOk: bool, vulkanSupported: bool, windowCreated: bool,
                   created: Placement)
    returns (r: Result<WindowT, OpenError>)
    modifies library
    ensures (library.State(), if r.Success? then None else Some(r.error))
              == Construction(old(library.State()), glfwInitOk, vulkanSupported, windowCreated)
    ensures r.Success? ==> && fresh(r.value) && fresh(r.value.events) && r.value.events.Snapshot() == NoEvents
                           && r.value.resetPlacement == created && r.value.lastMonitorRequest == None
  {
    var error := library.OpenWindow(glfwInitOk, vulkanSupported);
    if error.Some? {
      return Failure(error.value);
    }
    if !windowCreated {
      return Failure(WindowCreationFailed);
    }
    var w := new WindowT(created);
    r := Success(w);
  }
}
