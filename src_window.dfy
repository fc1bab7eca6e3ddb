/** The `window` class of the src/ revision: choosing the logical device, finding
    the graphics and presentation queue indices, checking that a supplied render
    pass and pipeline belong to that device, the frames-in-flight bookkeeping of
    `DrawFrame`, the per-window event queues and full-screen placement.
    Vulkan and GLFW calls are replaced by their results, given as parameters. */
module SrcWindow {
  import opened Wrappers
  import opened WindowEvents
  import opened WindowPlacement
  import DS = DeviceSelection

  /** MAX_FRAMES_IN_FLIGHT. */
  const MaxFramesInFlight: nat := 1

  /** Each reported problem aborts the constructor or the draw (the error callback throws). */
  datatype WindowError =
    | SurfaceCreationFailed
    | NoDeviceSelected
    | NoGraphicsQueue
    | NoPresentationQueue
    | ForeignRenderPass
    | ForeignPipeline
    | NoViableMemoryType
    | FenceWaitFailed
    | AcquireFailed
    | PresentFailed

  datatype VkResult = VkSuccess | SuboptimalKhr | ErrorOutOfDateKhr | OtherError(code: int)

  /** The logical device a new window uses: the one given in its info, else its
      parent's, else the first one device selection returns (`.at(0)`, which
      throws on an empty list). */
  function ChooseLogicalDevice(given: Option<nat>, parent: Option<nat>, selected: seq<nat>): (r: Result<nat, WindowError>)
    ensures given.Some? ==> r == Success(given.value)
    ensures given.None? && parent.Some? ==> r == Success(parent.value)
    ensures given.None? && parent.None? && |selected| > 0 ==> r == Success(selected[0])
    ensures r.Failure? <==> given.None? && parent.None? && |selected| == 0
  {
    if given.Some? then Success(given.value)
    else if parent.Some? then Success(parent.value)
    else if |selected| > 0 then Success(selected[0])
    else Failure(NoDeviceSelected)
  }

  function GraphicsFlags(infos: seq<DS.QueueFamilyInfo>): seq<bool> {
    seq(|infos|, i requires 0 <= i < |infos| => infos[i].properties.graphics)
  }

  /** Presentation capability is the surface-support query on each entry's family index. */
  function PresentFlags(infos: seq<DS.QueueFamilyInfo>, surfaceSupport: set<nat>): seq<bool> {
    seq(|infos|, i requires 0 <= i < |infos| => infos[i].familyIndex in surfaceSupport)
  }

  /** The constructor's queue search over the device's queue infos: the graphics
      index is the family of the first entry with the graphics flag, the present
      index the family of the first entry whose family supports the surface;
      a missing graphics queue is reported before a missing presentation queue. */
  method FindQueueIndices(infos: seq<DS.QueueFamilyInfo>, surfaceSupport: set<nat>)
    returns (r: Result<(nat, nat), WindowError>)
    ensures var g, p := DS.FirstIndex(GraphicsFlags(infos)), DS.FirstIndex(PresentFlags(infos, surfaceSupport));
            && (r == Failure(NoGraphicsQueue) <==> g.None?)
            && (r == Failure(NoPresentationQueue) <==> g.Some? && p.None?)
            && (r.Success? <==> g.Some? && p.Some?)
            && (r.Success? ==> r.value == (infos[g.value].familyIndex, infos[p.value].familyIndex))
  {
    ghost var gFlags, pFlags := GraphicsFlags(infos), PresentFlags(infos, surfaceSupport);
    var graphics: Option<nat> := None;
    var present: Option<nat> := None;
    ghost var gAt: nat, pAt: nat := 0, 0;
    var i := 0;
    while i < |infos|
      invariant 0 <= i <= |infos|
      invariant graphics.None? ==> forall j :: 0 <= j < i ==> !gFlags[j]
      invariant graphics.Some? ==> DS.IsFirst(gFlags, gAt) && gAt < i && graphics.value == infos[gAt].familyIndex
      invariant present.None? ==> forall j :: 0 <= j < i ==> !pFlags[j]
      invariant present.Some? ==> DS.IsFirst(pFlags, pAt) && pAt < i && present.value == infos[pAt].familyIndex
    {
      if graphics.None? && infos[i].properties.graphics {
        graphics, gAt := Some(infos[i].familyIndex), i;
      }
      if present.None? && infos[i].familyIndex in surfaceSupport {
        present, pAt := Some(infos[i].familyIndex), i;
      }
      if graphics.Some? && present.Some? && graphics.value == present.value {
        break;
      }
      i := i + 1;
    }
    if graphics.Some? {
      DS.FirstIndexCharacterised(gFlags, gAt);
    }
    if present.Some? {
      DS.FirstIndexCharacterised(pFlags, pAt);
    }
    if graphics.None? {
      return Failure(NoGraphicsQueue);
    }
    if present.None? {
      return Failure(NoPresentationQueue);
    }
    r := Success((graphics.value, present.value));
  }

  /** A supplied render pass or pipeline must have been created by the window's logical device. */
  function CheckOwner(owner: Option<nat>, device: nat, error: WindowError): (r: Result<(), WindowError>)
    ensures r.Failure? <==> owner.Some? && owner.value != device
    ensures r.Failure? ==> r.error == error
  {
    if owner.Some? && owner.value != device then Failure(error) else Success(())
  }

  /** The next value of `currentFrameIndex` after a presented frame. */
  function NextFrameIndex(current: nat): (next: nat)
    ensures next < MaxFramesInFlight
    ensures current + 1 < MaxFramesInFlight ==> next == current + 1
  {
    (current + 1) % MaxFramesInFlight
  }

  /** With one frame in flight, the frame index never leaves 0. */
  lemma FrameIndexStaysZero(current: nat)
    ensures NextFrameIndex(current) == 0
  {
  }

  /** What the constructor takes from its `window_info`. */
  datatype WindowInfo = WindowInfo(
    device: Option<nat>,
    renderPassOwner: Option<nat>,
    pipelineOwner: Option<nat>)

  class Window {
    const logicalDevice: nat
    const graphicsQueueIndex: nat
    const presentQueueIndex: nat
    const events: EventQueues
    var resetPlacement: Placement
    var currentFrameIndex: nat
    /** How many times the swapchain has been rebuilt since construction. */
    var swapchainRebuilds: nat
    var nextImageAvailableSemaphores: seq<nat>
    var finishedRenderingSemaphores: seq<nat>
    var inFlightFences: seq<nat>
    /** The last `glfwSetWindowMonitor` call, if any. */
    var lastMonitorRequest: Option<MonitorRequest>

    ghost predicate Valid()
      reads this
    {
      && currentFrameIndex < MaxFramesInFlight
      && |nextImageAvailableSemaphores| == MaxFramesInFlight
      && |finishedRenderingSemaphores| == MaxFramesInFlight
      && |inFlightFences| == MaxFramesInFlight
    }

    /** The part of the constructor that runs once the device and queues are
        known: the reset placement is what GLFW reports for the created window,
        and the semaphores and fences for every frame in flight are made. */
    constructor (device: nat, graphics: nat, present: nat, created: Placement)
      ensures Valid()
      ensures logicalDevice == device && graphicsQueueIndex == graphics && presentQueueIndex == present
      ensures resetPlacement == created
      ensures currentFrameIndex == 0 && swapchainRebuilds == 0 && lastMonitorRequest == None
      ensures fresh(events) && events.Snapshot() == NoEvents
    {
      logicalDevice, graphicsQueueIndex, presentQueueIndex := device, graphics, present;
      events := new EventQueues();
      resetPlacement := created;
      currentFrameIndex, swapchainRebuilds, lastMonitorRequest := 0, 0, None;
      var semaphores: seq<nat>, finished: seq<nat>, fences: seq<nat> := [], [], [];
      for i := 0 to MaxFramesInFlight
        invariant |semaphores| == |finished| == |fences| == i
      {
        semaphores, finished, fences := semaphores + [2 * i], finished + [2 * i + 1], fences + [i];
      }
      nextImageAvailableSemaphores, finishedRenderingSemaphores, inFlightFences := semaphores, finished, fences;
    }

    /** One call of `DrawFrame`, given the results of the fence wait, the image
        acquisition and the presentation. An out-of-date acquisition rebuilds the
        swapchain and leaves the frame index alone; a presented frame advances it. */
    method DrawFrame(fenceWait: VkResult, acquire: VkResult, present: VkResult) returns (r: Result<(), WindowError>)
      requires Valid()
      modifies this
      ensures Valid()
      ensures resetPlacement == old(resetPlacement)
      ensures lastMonitorRequest == old(lastMonitorRequest)
      ensures fenceWait != VkSuccess ==> r == Failure(FenceWaitFailed) && currentFrameIndex == old(currentFrameIndex)
      ensures fenceWait == VkSuccess && acquire == ErrorOutOfDateKhr ==>
                r.Success? && currentFrameIndex == old(currentFrameIndex) && swapchainRebuilds == old(swapchainRebuilds) + 1
      ensures fenceWait == VkSuccess && acquire !in {VkSuccess, SuboptimalKhr, ErrorOutOfDateKhr} ==>
                r == Failure(AcquireFailed) && currentFrameIndex == old(currentFrameIndex)
      ensures fenceWait == VkSuccess && acquire in {VkSuccess, SuboptimalKhr} ==>
                && (present in {ErrorOutOfDateKhr, SuboptimalKhr} ==> r.Success? && swapchainRebuilds == old(swapchainRebuilds) + 1)
                && (present == VkSuccess ==> r.Success? && swapchainRebuilds == old(swapchainRebuilds))
                && (present !in {VkSuccess, ErrorOutOfDateKhr, SuboptimalKhr} ==> r == Failure(PresentFailed))
                && (r.Success? ==> currentFrameIndex == NextFrameIndex(old(currentFrameIndex)))
      ensures r.Failure? ==> swapchainRebuilds == old(swapchainRebuilds) && currentFrameIndex == old(currentFrameIndex)
      ensures && nextImageAvailableSemaphores == old(nextImageAvailableSemaphores)
              && finishedRenderingSemaphores == old(finishedRenderingSemaphores)
              && inFlightFences == old(inFlightFences)
    {
      if fenceWait != VkSuccess {
        return Failure(FenceWaitFailed);
      }
      if acquire == ErrorOutOfDateKhr {
        swapchainRebuilds := swapchainRebuilds + 1;
        return Success(());
      } else if acquire != VkSuccess && acquire != SuboptimalKhr {
        return Failure(AcquireFailed);
      }
      if present == ErrorOutOfDateKhr || present == SuboptimalKhr {
        swapchainRebuilds := swapchainRebuilds + 1;
      } else if present != VkSuccess {
        return Failure(PresentFailed);
      }
      currentFrameIndex := NextFrameIndex(currentFrameIndex);
      r := Success(());
    }

    /** The event getters: a copy of one queue; nothing changes. */
    method Events(q: Queue) returns (r: seq<Event>)
      ensures r == events.Snapshot().Get(q)
    {
      r := events.Contents(q);
    }

    method CloseEvents() returns (n: nat)
      ensures n == events.Snapshot().closeCount
    {
      n := events.closeEvents;
    }

    method RefreshEvents() returns (n: nat)
      ensures n == events.Snapshot().refreshCount
    {
      n := events.refreshEvents;
    }

    /** `Clear<Kind>Events` for one of the fourteen vectors: only that vector is emptied. */
    method ClearQueue(q: Queue)
      modifies events
      ensures events.Snapshot() == old(events.Snapshot()).With(q, [])
    {
      events.Clear(q);
    }

    /** `ClearEvents`: the sixteen individual clears in declaration order, that is,
        the seven input clears followed by the nine window clears. */
    method ClearEvents()
      modifies events
      ensures events.Snapshot() == NoEvents
    {
      events.ClearInputEvents();
      events.ClearWindowEvents();
      ClearBothEmptiesAll(old(events.Snapshot()));
    }

    /** `EnterFullScreen`: remember where the window is now (`current`, what
        GLFW reports for its position and size), then put it on `monitor` at the
        chosen video mode. */
    method EnterFullScreen(current: Placement, monitor: nat, requested: Option<VideoMode>, monitorMode: VideoMode)
      modifies this
      ensures resetPlacement == current
      ensures lastMonitorRequest == Some(WindowPlacement.EnterFullScreen(current, monitor, requested, monitorMode).1)
      ensures currentFrameIndex == old(currentFrameIndex)
      ensures swapchainRebuilds == old(swapchainRebuilds)
      ensures nextImageAvailableSemaphores == old(nextImageAvailableSemaphores)
      ensures finishedRenderingSemaphores == old(finishedRenderingSemaphores) && inFlightFences == old(inFlightFences)
    {
      var (reset, request) := WindowPlacement.EnterFullScreen(current, monitor, requested, monitorMode);
      resetPlacement := reset;
      lastMonitorRequest := Some(request);
    }

    /** `ExitFullScreen`: back to windowed mode at the given placement, or the reset one. */
    method ExitFullScreen(position: Option<Coordinate>, size: Option<Area>)
      modifies this
      ensures lastMonitorRequest == Some(WindowPlacement.ExitFullScreen(old(resetPlacement), position, size))
      ensures resetPlacement == old(resetPlacement)
      ensures currentFrameIndex == old(currentFrameIndex) && swapchainRebuilds == old(swapchainRebuilds)
      ensures nextImageAvailableSemaphores == old(nextImageAvailableSemaphores)
      ensures finishedRenderingSemaphores == old(finishedRenderingSemaphores) && inFlightFences == old(inFlightFences)
    {
      lastMonitorRequest := Some(WindowPlacement.ExitFullScreen(resetPlacement, position, size));
    }
  }

  /** The constructor's checks in source order: window-surface creation, device
      choice, queue search, render-pass owner, pipeline owner, then the memory
      types of the staging and the vertex buffer. `surface` is what
      `glfwCreateWindowSurface` answers, `surfaceSupport` the answer of the
      surface-support query for the chosen device, `queueInfos` its queue infos,
      `stagingMemory` and `vertexMemory` the memory type each `CreateBuffer`
      search finds (`None` when none qualifies), and `created` what GLFW
      reports for the new window's position and size. */
  method Open(info: WindowInfo, parentDevice: Option<nat>, selected: seq<nat>, surface: VkResult,
              queueInfos: seq<DS.QueueFamilyInfo>, surfaceSupport: set<nat>,
              stagingMemory: Option<nat>, vertexMemory: Option<nat>, created: Placement)
    returns (r: Result<Window, WindowError>)
    ensures surface != VkSuccess ==> r == Failure(SurfaceCreationFailed)
    ensures surface == VkSuccess && ChooseLogicalDevice(info.device, parentDevice, selected).Failure? ==>
              r == Failure(NoDeviceSelected)
    ensures surface == VkSuccess && ChooseLogicalDevice(info.device, parentDevice, selected).Success? ==>
              var device := ChooseLogicalDevice(info.device, parentDevice, selected).value;
              var g, p := DS.FirstIndex(GraphicsFlags(queueInfos)), DS.FirstIndex(PresentFlags(queueInfos, surfaceSupport));
              var renderPass := CheckOwner(info.renderPassOwner, device, ForeignRenderPass);
              var pipeline := CheckOwner(info.pipelineOwner, device, ForeignPipeline);
              && (g.None? ==> r == Failure(NoGraphicsQueue))
              && (g.Some? && p.None? ==> r == Failure(NoPresentationQueue))
              && (g.Some? && p.Some? && renderPass.Failure? ==> r == Failure(ForeignRenderPass))
              && (g.Some? && p.Some? && renderPass.Success? && pipeline.Failure? ==> r == Failure(ForeignPipeline))
              && (g.Some? && p.Some? && renderPass.Success? && pipeline.Success? ==>
                    && (stagingMemory.None? || vertexMemory.None? ==> r == Failure(NoViableMemoryType))
                    && (stagingMemory.Some? && vertexMemory.Some? ==>
                          && r.Success? && r.value.logicalDevice == device
                          && r.value.graphicsQueueIndex == queueInfos[g.value].familyIndex
                          && r.value.presentQueueIndex == queueInfos[p.value].familyIndex))
    ensures r.Success? ==>
              && fresh(r.value) && fresh(r.value.events) && r.value.Valid()
              && r.value.resetPlacement == created && r.value.events.Snapshot() == NoEvents
              && r.value.currentFrameIndex == 0 && r.value.swapchainRebuilds == 0
              && r.value.lastMonitorRequest == None
  {
    if surface != VkSuccess {
      return Failure(SurfaceCreationFailed);
    }
    var device := ChooseLogicalDevice(info.device, parentDevice, selected);
    if device.Failure? {
      return Failure(device.error);
    }
    var queues := FindQueueIndices(queueInfos, surfaceSupport);
    if queues.Failure? {
      return Failure(queues.error);
    }
    var renderPass := CheckOwner(info.renderPassOwner, device.value, ForeignRenderPass);
    if renderPass.Failure? {
      return Failure(renderPass.error);
    }
    var pipeline := CheckOwner(info.pipelineOwner, device.value, ForeignPipeline);
    if pipeline.Failure? {
      return Failure(pipeline.error);
    }
    if stagingMemory.None? {
      return Failure(NoViableMemoryType);
    }
    if vertexMemory.None? {
      return Failure(NoViableMemoryType);
    }
    var w := new Window(device.value, queues.value.0, queues.value.1, created);
    r := Success(w);
  }
}
