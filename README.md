# gvw, modelled in Dafny

gvw is a C++ wrapper around GLFW and Vulkan. It opens windows and collects their
events in per-window queues. It picks a physical device for presentation, builds a
logical device with its buffers and swapchain, and routes Vulkan debug messages. The
repository has several revisions of this core side by side:

- `src/`: the `gvw` instance with its `window` class and the `MINIMUM_FOR_PRESENTATION` selector;
- `gvw/`: the `gvw` object with its `window_t` class and the device selector in `device.cpp`;
- `gvw/glfw/`: the `glfw::window` display-mode state machine and its input buffers;
- `vgw/`: the earliest `glfw::Window`.

The Conan recipe and the breakout example are modelled as well.

The model has one Dafny module per concern:

| module | what it covers |
|---|---|
| `Wrappers` | `Option` and `Result` |
| `DeviceSelection` | the built-in physical-device selector: type and present-mode scores, queue-family search, and the best compatible device |
| `DeviceOps` | the logical device: memory-type choice, swapchain extent clamping, sharing mode, image views, framebuffers |
| `PhysicalDeviceFilter` | the filter that keeps devices supporting the requested extensions, formats and present modes, then calls the selector |
| `VulkanArrays` | the found and missing lists used to compare requested names with what Vulkan offers |
| `InstanceSetup` | instance creation order, joystick events, monitors, and the shared instance with its destroy check |
| `DebugMessages` | the debug-message callbacks and the console line they print |
| `ConfigConstants` | the callback tables of `src/constants.cpp` and the present-mode and size-limit constants |
| `CreationHints` | creation hints: GLFW booleans, bounded integers, the hint list, the shader stages |
| `WindowEvents` | the fourteen event vectors and the close and refresh counters of a window |
| `WindowPlacement` | entering and leaving full screen |
| `SrcWindow` | the `src/` window: device choice, queue search, owner checks, frame drawing, event getters and clears |
| `GvwWindow` | `window_t` and the `INSTANCE_COUNT` that ties GLFW's lifetime to the number of live windows |
| `GlfwWindow` | `glfw::window` of `gvw/glfw/`, with its error log |
| `VgwWindow` | `glfw::Window` of `vgw/` |
| `InputBuffers` | the growable input buffers of `gvw/glfw/input.cpp` and the joystick buffer |
| `ConanRecipe` | the Conan recipe |
| `Breakout` | the collision pass of the breakout example |

GLFW and Vulkan are not called. What a call would answer is passed in as a parameter:
- the device list and each device's queries;
- the id `glfwCreateWindow` returns;
- the `VkResult` of a fence wait, an image acquisition or a presentation;
- the monitor's video mode.

Errors follow the revision:
- In `src/` and `gvw/`, the model assumes a throwing error callback (the `*_THROW` configurations; `gvw/` installs `ThrowOnGvwError` by default at gvw/gvw.cpp:77). A reported error ends the operation, and the model returns a `Failure`. The one exception is DebugMessages.PrintDebugMessagesToConsole: it records that the error callback was called and answers VK_FALSE, since the callback's effect belongs to the caller.
- In `gvw/glfw/` and `vgw/`, the error callback only reports. The model appends the code to an `ErrorLog` and goes on exactly as the code does.

## Model

| member | source | states |
|---|---|---|
| DeviceSelection.DeviceTypeScore | gvw/device.cpp:27-46 | device-type scores lie in 0..4; the top score belongs to discrete GPUs only and the bottom score to CPUs only |
| DeviceSelection.PresentModeScore | gvw/device.cpp:54-99 | present-mode scores lie in 0..5 |
| DeviceSelection.BestPresentMode | src/constants.cpp:561-606 | the chosen mode is one the device lists and no listed mode ranks above it; the default mode (Immediate) when the list is empty |
| DeviceSelection.RankPresentModes | gvw/device.cpp:54-99 | the selector's present-mode loop ends with the best-ranked mode of the list |
| DeviceSelection.FirstIndex | gvw/device.cpp:107-136 | the least index whose flag holds, or none when no flag holds |
| DeviceSelection.FirstIndexCharacterised | gvw/device.cpp:107-136 | an index has the "first" property exactly when the search returns it |
| DeviceSelection.FindQueueFamilies | gvw/device.cpp:107-136 | the queue loop finds the first graphics family and the first family that can present; none can present without a surface |
| DeviceSelection.UpdateQueueInfos | gvw/device.cpp:144-172 | the in-place resize and overwrite of the queue request list yields one request per distinct family: graphics, then presentation when it differs |
| DeviceSelection.BestIndexUnique | gvw/device.cpp:138-143 | at most one device is the earliest best-scoring compatible device |
| DeviceSelection.BestIndexExists | gvw/device.cpp:138-143 | when some device is compatible, a best one exists |
| DeviceSelection.InspectDevice | gvw/device.cpp:22-136 | the per-device part of the selector fails exactly when the device's surface-format list is present but empty; otherwise it yields the device's type score, its first surface format, its best-ranked present mode and its first graphics and presenting families |
| DeviceSelection.MinimumForPresentation | gvw/device.cpp:10-180 | the selector fails exactly when some device lists no surface format, and names the first such device; otherwise it returns one entry: the default entry when no device is compatible, else the earliest best-scoring compatible device's queues, format and mode |
| DeviceSelection.NoSurfaceNoCompatibleDevice | gvw/device.cpp:117-136 | without a surface no device is compatible, so the default entry is returned |
| DeviceSelection.CandidateQueueInfos | src/constants.cpp:645-680 | the chosen device gets one queue request when graphics and presentation share a family, two otherwise, each for one queue |
| DeviceSelection.CandidatePresentMode | src/constants.cpp:561-606 | the chosen present mode is listed by the device and ranks at least as high as each listed mode |
| DeviceSelection.MailboxPreferred | gvw/device.cpp:54-99 | a chosen device that offers Mailbox presents with Mailbox, whatever else it lists |
| DeviceSelection.RankedChoice | gvw/device.cpp:27-46 | when some compatible device is a discrete GPU, the choice is the first compatible discrete GPU; a compatible integrated GPU is never beaten by anything but a discrete or integrated one; a CPU is chosen only when every compatible device is a CPU |
| DeviceOps.ChooseMemoryType | gvw/device.cpp:256-263 | the memory-type loop ends at the last type allowed by the type bits and covering the requested flags, or with none exactly when no type qualifies |
| DeviceOps.ToU32 | gvw/device.cpp:342 | the cast of an `int` to `uint32_t` keeps non-negative values and wraps negative ones modulo 2^32 |
| DeviceOps.Clamp | gvw/device.cpp:341-348 | `std::clamp` returns a value within the bounds, equal to the input when it already lies within them |
| DeviceOps.SwapchainExtent | gvw/device.cpp:340-349 | each side of the swapchain extent lies within the surface's extent range and keeps the framebuffer size when that fits |
| DeviceOps.NegativeWidthClampsToMaximum | gvw/device.cpp:341-348 | a negative framebuffer width wraps to a huge unsigned value and ends at the maximum width |
| DeviceOps.Sharing | gvw/device.cpp:376-385 | exclusive sharing with no index list exactly when graphics and presentation use one family; otherwise concurrent over both families |
| DeviceOps.SharingIsValid | gvw/device.cpp:376-385 | concurrent sharing always names two distinct families, as Vulkan requires |
| DeviceOps.CreateImageViews | gvw/device.cpp:413-434 | one view per swapchain image, in image order, with the swapchain's format |
| DeviceOps.CreateFramebuffers | gvw/device.cpp:436-456 | one framebuffer per view, in order, each with that view as its only attachment and the swapchain's extent |
| DeviceOps.Swapchain.constructor | gvw/device.cpp:351-356 | a new swapchain has no images, views or framebuffers |
| DeviceOps.ProjectQueueCreateInfos | src/device.cpp:21-29 | one queue create info per queue-family info, in order, with the same family and queue count |
| DeviceOps.LogicalDevice.constructor | src/device.cpp:10-43 | the device records the selector result it was made from and one queue create info per queue-family info |
| DeviceOps.LogicalDevice.GetPhysicalDevice | src/device.cpp:50-53 | returns the physical device of the selector result the device was made from |
| DeviceOps.LogicalDevice.GetSurfaceFormat | src/device.cpp:55-58 | returns the surface format of that selector result |
| DeviceOps.LogicalDevice.GetPresentMode | src/device.cpp:60-63 | returns the present mode of that selector result |
| DeviceOps.LogicalDevice.GetQueueFamilyInfos | src/device.cpp:65-69 | returns the queue-family infos of that selector result |
| DeviceOps.LogicalDevice.CreateBuffer | gvw/device.cpp:235-281 | fails exactly when no memory type qualifies; otherwise the buffer has the requested size and usage, the allocation has the size Vulkan asked for, and the memory type is the last qualifying one |
| DeviceOps.LogicalDevice.CreateSwapchain | gvw/device.cpp:335-459 | reuses the old swapchain object when one is given; the extent is clamped into the surface's range; the viewport and scissor cover that extent; the sharing mode follows the queue families; one view and one framebuffer per image |
| PhysicalDeviceFilter.CandidateList | gvw/gvw.cpp:548-557 | the requested list when given; otherwise gvw/ falls back to the device's own list, and src/ throws `bad_optional_access` (src/instance.cpp:236-239) |
| PhysicalDeviceFilter.Filter | gvw/gvw.cpp:538-589 | without a surface every device passes with the requested lists; with one, a device passes exactly when it offers one of the requested (or, in gvw/, its own) formats and one of the requested modes, and it then carries exactly the found lists in request order; the gvw/ revision never fails, and src/ fails exactly when no format list is requested, or formats match and no mode list is requested (src/instance.cpp:222-239) |
| PhysicalDeviceFilter.Compatible | gvw/gvw.cpp:533-593 | the compatible list, or the first failure |
| PhysicalDeviceFilter.CompatibleWithoutSurface | gvw/gvw.cpp:538-540 | without a surface every device is kept, in order |
| PhysicalDeviceFilter.GvwFilteringSucceeds | gvw/gvw.cpp:548-557 | the gvw/ revision's filter never fails |
| PhysicalDeviceFilter.CompatibleAreSupported | gvw/gvw.cpp:560-588 | every kept device came from the input and passed the filter |
| PhysicalDeviceFilter.FilterDevices | gvw/gvw.cpp:533-593 | the loop over the devices yields exactly the compatible list, or the first device's error |
| PhysicalDeviceFilter.SelectPhysicalDevices | gvw/gvw.cpp:521-651 | errors for no devices, for no compatible device and for an empty selection, in that order; otherwise the selector's choice over the compatible devices |
| PhysicalDeviceFilter.FailureIsFinal | src/instance.cpp:222-239 | once the filter fails on a prefix of the device list, the remaining devices do not change the outcome |
| PhysicalDeviceFilter.CompatibleConcat | gvw/gvw.cpp:533-593 | filtering two runs of devices succeeds exactly when both do, and keeps the two compatible lists joined in enumeration order |
| PhysicalDeviceFilter.PassingDeviceIsKept | gvw/gvw.cpp:560-588 | every enumerated device that passes the filter is in the compatible list, so the loop loses no device |
| VulkanArrays.FoundIn | src/internal.hpp:29-43 | keeps exactly the requested items that Vulkan offers, never more than were requested (order: FoundInConcat) |
| VulkanArrays.MissingIn | src/internal.hpp:29-43 | keeps exactly the requested items that Vulkan does not offer (order: MissingInConcat) |
| VulkanArrays.FoundAndMissingPartition | src/internal.hpp:29-43 | found and missing names split the request; nothing is missing exactly when everything is found |
| VulkanArrays.FoundInIdempotent | src/internal.hpp:29-43 | filtering a found list again changes nothing |
| VulkanArrays.FoundSomethingIffOffered | gvw/gvw.cpp:560-588 | the found list is empty exactly when no requested item is offered, which is when the device is skipped |
| VulkanArrays.FoundInConcat | src/internal.hpp:29-43 | the found items of a request in two parts are those of each part in turn, so they keep the order the user listed them in |
| VulkanArrays.MissingInConcat | src/internal.hpp:29-43 | the same for the missing items |
| VulkanArrays.FirstFoundIsFirstOffered | src/instance.cpp:236-239 | the first found item is the first requested item Vulkan offers |
| InstanceSetup.CreateInstanceLists | src/instance.cpp:10-96 | fails when GLFW does not initialise, then when Vulkan is unsupported, then when a requested extension or layer is unavailable, naming the missing ones; otherwise the extensions are the caller's followed by those GLFW requires, and all are available |
| InstanceSetup.JoystickEvents.Append | gvw/gvw.cpp:133-137 | appends one joystick event at the end |
| InstanceSetup.JoystickEvents.Clear | src/instance.cpp:156-160 | empties the joystick events |
| InstanceSetup.JoystickEvents.Get | gvw/gvw.cpp:470-474 | returns the stored joystick events unchanged |
| InstanceSetup.AllMonitors | src/instance.cpp:318-332 | one monitor per GLFW handle, in order |
| InstanceSetup.Context.Get | gvw/gvw.cpp:457-461 | the context is created on the first call and the same one is returned afterwards |
| InstanceSetup.NatToString | src/gvw.cpp:136-152 | the decimal rendering of a count is non-empty and made of digits |
| InstanceSetup.DestroyOutcomeAsWritten | src/gvw.cpp:136-152 | the destroy check as written succeeds only at use count 1 and otherwise reports use count minus one |
| InstanceSetup.DestroyWithoutInstanceReportsMinusOne | src/gvw.cpp:136-152 | with no instance the check as written reports "-1 object is still using GVW." |
| InstanceSetup.DestroyOutcome | src/gvw.cpp:136-152 | the corrected check succeeds when nothing else holds the instance, and otherwise reports a positive number of holders |
| InstanceSetup.DestroyOutcomeAgreesWithInstance | src/gvw.cpp:136-152 | the corrected check agrees with the code exactly when an instance exists |
| InstanceSetup.StillUsingMessageCounts | src/gvw.cpp:136-152 | the message starts with the holder count in decimal |
| InstanceSetup.InstanceGlobal.CreateInstance | src/gvw.cpp:121-129 | creates the instance only once; every call adds one holder and returns that one instance |
| InstanceSetup.InstanceGlobal.GetInstance | src/gvw.cpp:131-134 | returns the instance and adds a holder when there is one; does not create |
| InstanceSetup.InstanceGlobal.DestroyInstance | src/gvw.cpp:136-152 | resets the instance exactly when the corrected check passes; otherwise nothing changes |
| DebugMessages.ForwardToWarningAndErrorCallbacks | src/constants.cpp:27-46 | warnings go to the warning callback, errors to the error callback, every other severity to standard output |
| DebugMessages.QuietSeveritiesArePrinted | src/constants.cpp:33-45 | verbose, info and unknown severities are printed, not forwarded |
| DebugMessages.SeverityLabel | gvw/gvw.cpp:284-301 | the label names errors and warnings, and unknown severities get the Unknown label |
| DebugMessages.SeverityStyle | gvw/gvw.cpp:284-301 | verbose messages have no style, and errors are bold red |
| DebugMessages.TypeLabel | gvw/gvw.cpp:303-316 | unknown message types get the Unknown label |
| DebugMessages.PrintDebugMessagesToConsole | gvw/gvw.cpp:276-336 | the callback answers VK_FALSE, calls the error callback exactly for errors, and prints the message with its severity and type labels, plus a note when user data is passed |
| DebugMessages.Render | gvw/gvw.cpp:318-325 | a printed line is never empty and ends with a newline |
| DebugMessages.RenderedLineLayout | gvw/gvw.cpp:284-325 | the printed line is the severity label, then the type label, then the message |
| DebugMessages.RevisionsAgreeOnErrors | gvw/gvw.cpp:331-333 | the gvw/ printer calls the error callback for exactly the messages the src/ callback forwards to its error callback (src/constants.cpp:27-46) |
| ConfigConstants.SlotOf | src/constants.cpp:390-424 | every event kind has one callback slot; close and refresh have their own counter slots |
| ConfigConstants.AppendToEventBuffersIsComplete | src/constants.cpp:390-424 | the APPEND_TO_EVENT_BUFFERS table wires every slot to the handler of its own kind |
| ConfigConstants.Apply | src/constants.cpp:165-387 | a handler changes one thing: an append handler adds the event at the end of its own vector and leaves every other vector and both counters; the close and refresh handlers add one to their own counter only |
| ConfigConstants.AppendToEventBuffersRecords | src/constants.cpp:165-424 | dispatching through APPEND_TO_EVENT_BUFFERS records the event exactly as a window callback does |
| ConfigConstants.NoCallbacksDropEverything | src/constants.cpp:389 | with the NONE table no event changes the window |
| ConfigConstants.InvokeCallback | src/constants.cpp:165-387 | a GLFW callback changes the window's queues as the wired handler says |
| ConfigConstants.MailboxOrFifoPrefersMailbox | src/constants.cpp:489-493 | the mailbox-or-FIFO list ranks mailbox first, and filtering it against a device yields mailbox, else FIFO, else nothing |
| ConfigConstants.LimitsAdmitEverySize | src/constants.cpp:436-441 | a minimum admits every size exactly when each component is GLFW_DONT_CARE or at most 0; a maximum admits every size exactly when it is NO_MAXIMUM |
| CreationHints.BoolToInt | src/gvw.cpp:17-20 | true becomes GLFW_TRUE and false becomes GLFW_FALSE |
| CreationHints.HintBool.constructor | src/gvw.cpp:6-9 | the hint holds the given boolean |
| CreationHints.HintBool.Assign | src/gvw.cpp:11-15 | the hint holds the assigned boolean |
| CreationHints.HintBool.ToInt | src/gvw.cpp:17-20 | the hint's GLFW value is GLFW_TRUE or GLFW_FALSE according to its boolean |
| CreationHints.WithinBounds | src/gvw.cpp:38-47 | a value is kept exactly when it is non-negative or GLFW_DONT_CARE; any other value becomes GLFW_DONT_CARE |
| CreationHints.HintInt.constructor | src/gvw.cpp:27-30 | the stored value is the bounded one, with one warning exactly when it had to change |
| CreationHints.HintInt.Assign | src/gvw.cpp:32-36 | assignment goes through the same bound and warning |
| CreationHints.HintInt.AssertWithinBounds | src/gvw.cpp:38-47 | an out-of-range value is replaced by GLFW_DONT_CARE and one warning is logged |
| CreationHints.WindowCreationHints | src/gvw.cpp:154-209 | 35 integer hints in the constructor's order, each with its field's GLFW value, then the three string hints |
| CreationHints.HintValuesInRange | src/gvw.cpp:154-209 | each boolean hint reaches GLFW as GLFW_TRUE or GLFW_FALSE; each integer hint is non-negative or GLFW_DONT_CARE |
| CreationHints.StageCreationInfos | src/gvw.cpp:232-241 | the vertex stage, then the fragment stage, with their modules and entry points |
| WindowEvents.QueueOf | src/constants.cpp:165-387 | every event kind has its own vector, except close and refresh, which only bump a counter (277, 386) |
| WindowEvents.Events.With | gvw/window.cpp:285-318 | replacing one vector leaves the others and both counters unchanged |
| WindowEvents.RecordAppendsOnlyToOwnQueue | gvw/gvw.cpp:144-274 | a callback appends the event at the end of its own vector and nowhere else, or adds one to its counter |
| WindowEvents.RecordKeepsQueuesSorted | gvw/window.cpp:27-124 | every vector only ever holds events of its own kind |
| WindowEvents.RecordCommutesAcrossQueues | gvw/window.cpp:27-124 | events of different kinds may arrive in either order with the same result |
| WindowEvents.SameQueuesSameEvents | gvw/window.cpp:27-124 | a window's event state is its fourteen vectors and two counters |
| WindowEvents.ClearInputSpec | gvw/window.cpp:320-329 | clearing input events empties the seven input vectors and keeps the rest |
| WindowEvents.ClearWindowSpec | gvw/window.cpp:423-434 | clearing window events empties the seven window vectors and zeroes both counters, keeping input |
| WindowEvents.ClearBothEmptiesAll | gvw/window.cpp:436-440 | input then window clears, in either order, leave no event |
| WindowEvents.ClearThenRecord | gvw/window.cpp:285-318 | after a vector is cleared, the next event of its kind is the only one in it |
| WindowEvents.EventQueues.constructor | gvw/window.cpp:27-124 | a new window has no events |
| WindowEvents.EventQueues.Append | gvw/gvw.cpp:144-274 | a callback updates the vectors as recording the event says |
| WindowEvents.EventQueues.Clear | gvw/window.cpp:285-318 | one clear empties one vector only |
| WindowEvents.EventQueues.Replace | src/window.cpp:694-789 | assigning one vector changes that vector only |
| WindowEvents.EventQueues.ClearCloseEvents | gvw/window.cpp:378-422 | zeroes the close counter only |
| WindowEvents.EventQueues.ClearRefreshEvents | gvw/window.cpp:378-422 | zeroes the refresh counter only |
| WindowEvents.EventQueues.ClearInputEvents | gvw/window.cpp:320-329 | the seven input clears together clear exactly the input vectors |
| WindowEvents.EventQueues.ClearWindowEvents | gvw/window.cpp:423-434 | the nine window clears together clear exactly the window vectors and counters |
| WindowEvents.EventQueues.Contents | src/window.cpp:587-692 | a getter returns a copy of one vector and changes nothing |
| WindowPlacement.ChosenVideoMode | src/window.cpp:1033-1050 | the given video mode when one is passed, else the monitor's current one |
| WindowPlacement.EnterFullScreen | src/window.cpp:1033-1050 | the current placement becomes the reset placement; the window goes to the monitor at the origin with the chosen mode's size and refresh rate |
| WindowPlacement.ExitFullScreen | src/window.cpp:1052-1067 | back to windowed mode, each of position and size taken from the arguments when given, else from the reset placement |
| WindowPlacement.EnterThenExitRestores | gvw/window.cpp:642-674 | leaving full screen without arguments puts the window back exactly where it was before entering |
| WindowPlacement.ExplicitExitIgnoresReset | gvw/window.cpp:658-674 | explicit position and size win over the reset placement |
| SrcWindow.ChooseLogicalDevice | src/window.cpp:122-133 | the device in the window info, else the parent's device, else the first selected device; fails exactly when all three are missing |
| SrcWindow.FindQueueIndices | src/window.cpp:136-174 | the queue search returns the first graphics family and the first presenting family, and fails for the first of them that is missing |
| SrcWindow.CheckOwner | src/window.cpp:185-206 | a supplied render pass or pipeline is rejected exactly when another logical device created it |
| SrcWindow.NextFrameIndex | src/window.cpp:477 | the frame index stays below MAX_FRAMES_IN_FLIGHT and otherwise advances by one |
| SrcWindow.FrameIndexStaysZero | src/window.cpp:477 | with one frame in flight the frame index is always 0 |
| SrcWindow.Window.constructor | src/window.cpp:104-107 | a new window records its device and queues, takes the created placement as its reset placement, and starts with no events and frame index 0 |
| SrcWindow.Window.DrawFrame | src/window.cpp:354-479 | a failed fence wait aborts; an out-of-date image rebuilds the swapchain; other acquisition errors abort; otherwise the frame is presented, and an out-of-date or suboptimal presentation rebuilds the swapchain; a failed call changes neither the rebuild count nor the frame index, and no call replaces the semaphores or fences |
| SrcWindow.Window.Events | src/window.cpp:587-692 | returns one event vector and changes nothing |
| SrcWindow.Window.CloseEvents | src/window.cpp:587-692 | returns the close count and changes nothing |
| SrcWindow.Window.RefreshEvents | src/window.cpp:587-692 | returns the refresh count and changes nothing |
| SrcWindow.Window.ClearQueue | src/window.cpp:694-789 | empties one event vector only |
| SrcWindow.Window.ClearEvents | src/window.cpp:790-808 | leaves no event, whatever the window held |
| SrcWindow.Window.EnterFullScreen | src/window.cpp:1033-1050 | remembers the placement GLFW reports at that moment and issues the full-screen request |
| SrcWindow.Window.ExitFullScreen | src/window.cpp:1052-1067 | issues the windowed request at the given or the remembered placement |
| SrcWindow.Open | src/window.cpp:65-315 | the constructor's checks in source order, each failing exactly when its own test fails and every earlier one passed: surface creation (113-118), device choice, queue search, render-pass owner, pipeline owner, staging and vertex buffer memory (245-256); a window is opened exactly when all pass, with the chosen device and queues, frame index 0 and no swapchain rebuilds |
| GvwWindow.Opened | gvw/window.cpp:139-145 | opening a window adds one to the instance count and initialises GLFW only when the count was 0 |
| GvwWindow.Closed | gvw/window.cpp:190-202 | closing a window subtracts one and terminates GLFW only when the last window goes |
| GvwWindow.Opening | gvw/init.cpp:79-86 | with no window yet, a failing `glfwInit` stops the constructor before the count changes, and a missing Vulkan stops it after GLFW was initialised; otherwise the window is counted as Opened says |
| GvwWindow.GlfwInitFailureChangesNothing | gvw/init.cpp:79-81 | a failed `glfwInit` leaves the instance count and both call counts as they were |
| GvwWindow.VulkanFailureLeavesGlfwInitialized | gvw/init.cpp:83-86 | a missing Vulkan leaves GLFW initialised with no window counted, so the balance is broken |
| GvwWindow.StepKeepsBalance | gvw/window.cpp:139-202 | each successful construction and each destruction keeps GLFW initialised exactly while some window exists |
| GvwWindow.RunKeepsBalance | gvw/window.cpp:139-202 | that balance holds over any sequence of successful constructions and destructions |
| GvwWindow.ClosingEveryWindowTerminates | gvw/window.cpp:139-202 | once every window is destroyed, GLFW has been terminated as often as it was initialised |
| GvwWindow.GlfwLibrary.constructor | gvw/window.cpp:139-145 | no window, no initialisation and no termination yet |
| GvwWindow.GlfwLibrary.OpenWindow | gvw/window.cpp:139-145 | the library part of the window constructor, as Opening says |
| GvwWindow.GlfwLibrary.CloseWindow | gvw/window.cpp:190-202 | the library part of the window destructor |
| GvwWindow.WindowT.constructor | gvw/window.cpp:147-184 | the part of the constructor after counting: the reset placement is the created window's, and there are no events |
| GvwWindow.Construction | gvw/window.cpp:136-165 | the whole constructor's effect on the library: Opening's failures first; after the count is raised, a failed `glfwCreateWindow` throws with the window counted |
| GvwWindow.WindowCreationFailureLeaksCount | gvw/window.cpp:144-165 | after a failed `glfwCreateWindow` the count includes a window that does not exist, so destroying every real window leaves one counted and GLFW never terminated |
| GvwWindow.NewWindow | gvw/window.cpp:136-188 | the whole constructor: the library changes as Construction says, and a window exists exactly when that reports no error |
| GvwWindow.WindowT.Destroy | gvw/window.cpp:190-202 | uncounts the window, terminating GLFW with the last one |
| GvwWindow.WindowT.Callback | gvw/window.cpp:27-124 | the static callback records the event on its window |
| GvwWindow.WindowT.ClearQueue | gvw/window.cpp:285-318 | empties one vector only |
| GvwWindow.WindowT.ClearCloseEvents | gvw/window.cpp:378-422 | zeroes the close counter only |
| GvwWindow.WindowT.ClearRefreshEvents | gvw/window.cpp:378-422 | zeroes the refresh counter only |
| GvwWindow.WindowT.ClearInputEvents | gvw/window.cpp:320-329 | clears exactly the input vectors |
| GvwWindow.WindowT.ClearWindowEvents | gvw/window.cpp:423-434 | clears exactly the window vectors and counters |
| GvwWindow.WindowT.ClearEvents | gvw/window.cpp:436-440 | leaves no event |
| GvwWindow.WindowT.EnterFullScreen | gvw/window.cpp:642-656 | remembers the placement GLFW reports at that moment and issues the full-screen request |
| GvwWindow.WindowT.ExitFullScreen | gvw/window.cpp:658-674 | issues the windowed request at the given or the remembered placement |
| GlfwWindow.AssertMonitorInitialization | gvw/glfw/monitor.cpp:14-23 | a null monitor id is reported and answers failure; nothing is reported otherwise |
| GlfwWindow.Creation | gvw/glfw/window.cpp:20-113 | an already created window or a size below the minimum is reported and changes nothing; otherwise the window has GLFW's id, is full screen exactly when a monitor is given, has its close flag cleared, and takes the created placement as default, or reports two errors when GLFW gave no window |
| GlfwWindow.RecreatedWindowStartsOpen | gvw/glfw/window.cpp:20-139 | a window closed, destroyed and created again has no pending close |
| GlfwWindow.Window.constructor | gvw/glfw/window.cpp:130 | a new window has no id, is not created and has no pending close |
| GlfwWindow.Window.AssertCreation | gvw/glfw/window.cpp:146-154 | an uncreated window is reported with the given code and answers failure |
| GlfwWindow.Window.GetPositionInScreenCoordinates | gvw/glfw/window.cpp:286-293 | what GLFW reports at the time of the call, or (-1, -1) with an error when the window is not created |
| GlfwWindow.Window.GetSizeInScreenCoordinates | gvw/glfw/window.cpp:248-256 | what GLFW reports at the time of the call, or (-1, -1) with an error when the window is not created |
| GlfwWindow.Window.Id | gvw/glfw/window.cpp:216-222 | the window's id, reporting an error when it is null |
| GlfwWindow.Window.GetWindowAttribute | gvw/glfw/window.cpp:115-121 | GLFW's answer for a created window, else GLFW_DONT_CARE with an error |
| GlfwWindow.Window.ShouldClose | gvw/glfw/window.cpp:224-230 | the close flag of a created window, else false with an error |
| GlfwWindow.Window.CloseRequested | gvw/glfw/window.cpp:224-230 | a user's close request sets GLFW's close flag of a created window and changes nothing else, so ShouldClose then answers true |
| GlfwWindow.Window.SetShouldClose | gvw/glfw/window.cpp:232-246 | sets the close flag of a created window only; nothing else changes |
| GlfwWindow.Window.Create_ | gvw/glfw/window.cpp:20-113 | the new state and the reported errors are those of Creation |
| GlfwWindow.Window.CreateOnMonitor | gvw/glfw/window.cpp:156-172 | an uninitialised monitor is reported and changes nothing; otherwise the state and errors of Creation with that monitor |
| GlfwWindow.Window.CreateShared | gvw/glfw/window.cpp:174-192 | an uncreated shared window is reported and changes nothing; otherwise the state and errors of Creation, windowed |
| GlfwWindow.Window.CreateOnMonitorShared | gvw/glfw/window.cpp:194-214 | the monitor is checked first, then the shared window, each stopping with no change; otherwise the state and errors of Creation with that monitor |
| GlfwWindow.Window.Destroy | gvw/glfw/window.cpp:132-139 | destroys a created window only, so a second call does nothing |
| GlfwWindow.Window.FullScreen | gvw/glfw/window.cpp:360-381 | only a created, not yet full-screen window with an initialised monitor saves the placement GLFW reports at that moment and goes full screen |
| GlfwWindow.Window.ExitFullScreen | gvw/glfw/window.cpp:383-398 | only a full-screen window leaves it, back at its default placement |
| GlfwWindow.Window.ExitFullScreenAt | gvw/glfw/window.cpp:400-412 | only a full-screen window leaves it, at the given position and size converted from pixels to screen coordinates |
| GlfwWindow.Window.Iconify | gvw/glfw/window.cpp:463-479 | a created window becomes minimised or maximised |
| GlfwWindow.Window.Restore | gvw/glfw/window.cpp:481-491 | a created window ends windowed, leaving full screen first when it was in it |
| VgwWindow.AssertMonitorInitialization | vgw/glfw/monitor.cpp:14-21 | a null monitor id is reported |
| VgwWindow.CreateErrors | vgw/glfw/window.cpp:12-91 | a created window is reported as already created; otherwise a size below the minimum is reported; nothing is reported exactly when creation goes ahead |
| VgwWindow.Window.constructor | vgw/glfw/window.cpp:91 | a new window has no id |
| VgwWindow.Window.Create_ | vgw/glfw/window.cpp:12-91 | reports those errors and takes GLFW's id only when there are none |
| VgwWindow.Window.Destroy | vgw/glfw/window.cpp:93-99 | leaves the window without an id |
| VgwWindow.Window.AssertCreation | vgw/glfw/window.cpp:106-113 | reports an uncreated window |
| VgwWindow.Window.CreateOnMonitor | vgw/glfw/window.cpp:115-129 | the monitor check reports but does not stop creation |
| VgwWindow.Window.CreateShared | vgw/glfw/window.cpp:131-145 | the shared-window check reports but does not stop creation |
| VgwWindow.Window.CreateOnMonitorShared | vgw/glfw/window.cpp:147-163 | both checks report, neither stops creation |
| InputBuffers.Place | gvw/glfw/input.cpp:44-49 | a full vector grows by INPUT_BUFFER_INCREMENT_SIZE; the event goes at the index given by the count |
| InputBuffers.PlaceThenCountAppends | gvw/glfw/input.cpp:44-49 | when the count is within the size, placing then counting appends the event to the stored events |
| InputBuffers.InitialBuffersWellFormed | gvw/glfw/window.hpp:52-94 | a newly registered window's input buffers are empty and consistent |
| InputBuffers.StoreAsWritten | gvw/glfw/input.cpp:31-51 | a callback as written places the event in its own vector but advances the cursor-enter count |
| InputBuffers.Store | gvw/glfw/input.cpp:31-51 | a callback as intended appends the event to its own vector's stored events and keeps every other vector |
| InputBuffers.StoreAllAsWritten | gvw/glfw/input.cpp:31-51 | a run of callbacks as written keeps the same set of vectors |
| InputBuffers.KeyEventsOverwriteEachOther | gvw/glfw/input.cpp:50 | as written, a second key event overwrites the first |
| InputBuffers.KeyEventsAreKept | gvw/glfw/input.cpp:31-51 | as intended, two key events are both kept, in order |
| InputBuffers.KeyEventsAdvanceCursorEnterCount | gvw/glfw/input.cpp:50 | as written, key events leave the key count at 0 and raise the cursor-enter count by one each |
| InputBuffers.CursorEnterOverrun | gvw/glfw/input.cpp:50-70 | as written, 51 key events and then a cursor-enter event end in `std::out_of_range` |
| InputBuffers.StoreAllPrefix | gvw/glfw/input.cpp:31-51 | a run of callbacks is its prefix followed by the last callback |
| InputBuffers.Matches | gvw/glfw/input.cpp:19-29 | a window matches exactly when its id is the callback's window |
| InputBuffers.FindWindowInputIndex | gvw/glfw/input.cpp:19-29 | finds the first registered window with the callback's id, or reports none found |
| InputBuffers.InputWindow.constructor | gvw/glfw/window.hpp:52-94 | a window starts with its seven input buffers empty and every stored count 0 |
| InputBuffers.InputRegistry.Ids | gvw/glfw/input.cpp:19-29 | the ids of the registered windows, in order |
| InputBuffers.InputRegistry.Target | gvw/glfw/input.cpp:19-29 | the first registered window with the given id, or none when no window has it |
| InputBuffers.InputRegistry.CallbackAsWritten | gvw/glfw/input.cpp:31-51 | an event for an unregistered window is dropped (38-42); otherwise its window's buffers change as written |
| InputBuffers.InputRegistry.Callback | gvw/glfw/input.cpp:31-51 | as intended: the event is appended to its window's own vector |
| InputBuffers.JoystickBuffer.constructor | gvw/glfw/input.cpp:219-223 | an empty joystick buffer |
| InputBuffers.JoystickBuffer.Setup | gvw/glfw/input.cpp:219-223 | the buffer is resized to INPUT_BUFFER_INITIAL_SIZE |
| InputBuffers.JoystickBuffer.Callback | gvw/glfw/input.cpp:164-167 | the joystick callback stores nothing |
| InputBuffers.JoystickBuffer.Clear | gvw/glfw/input.cpp:225-229 | resized to the initial size with a zero count |
| InputBuffers.JoystickBuffer.Get | gvw/glfw/input.cpp:231-237 | the first "count" stored events |
| ConanRecipe.DefaultsMatchDeclaration | conanfile.py:19-30 | every option is declared over True and False, and every option has a default, which is True |
| ConanRecipe.OptionKeysAreDistinct | conanfile.py:19-24 | no two options share a name |
| ConanRecipe.Validate | conanfile.py:35-36 | accepts C++17 and later, rejects every earlier standard |
| ConanRecipe.VariableFor | conanfile.py:52-60 | every build option except fPIC has a CMake variable, and none of them is GVW_CONAN |
| ConanRecipe.VariableForIsOneToOne | conanfile.py:52-60 | distinct options go to distinct variables, and every variable except GVW_CONAN carries an option |
| ConanRecipe.ToolchainVariables | conanfile.py:52-60 | GVW_CONAN is set to True and each build option's value is passed in its own variable |
| ConanRecipe.ToolchainTable | conanfile.py:55-56 | only the toolchain's table attributes exist |
| ConanRecipe.GenerateAsWritten | conanfile.py:52-60 | as written, `generate` writes the intended variables only if `tc.variable` exists |
| ConanRecipe.GenerateAsWrittenFails | conanfile.py:56 | as written, `generate` always stops at the missing `variable` attribute |
| ConanRecipe.Recipe.constructor | conanfile.py:25-30 | the default options overridden by the consumer's values |
| ConanRecipe.Recipe.ConfigOptions | conanfile.py:38-40 | fPIC is removed on Windows and kept elsewhere |
| ConanRecipe.Recipe.Requirements | conanfile.py:42-44 | glfw 3.3.8, then the Vulkan headers 1.3.243.0 |
| ConanRecipe.Recipe.BuildRequirements | conanfile.py:46-47 | CMake 3.22.6, as a tool requirement only |
| ConanRecipe.Recipe.Generate | conanfile.py:52-60 | as intended: the toolchain variables are written |
| ConanRecipe.Recipe.PackageInfo | conanfile.py:71-72 | consumers link the library `gvw` |
| Breakout.SwappingEndpointsFlipsSide | examples/breakout/main.cpp:18-23 | swapping A and B negates the orientation, so C is never left of both AB and BA |
| Breakout.CollinearPointIsNotLeft | examples/breakout/main.cpp:18-23 | a point on line AB is not left of it |
| Breakout.RotatingPointsKeepsSide | examples/breakout/main.cpp:18-23 | the orientation is unchanged under rotating A, B and C |
| Breakout.SideMask | examples/breakout/main.cpp:220-246 | the mask only uses the four side bits, and is empty exactly when the ball rests |
| Breakout.PossibleCollisionSides | examples/breakout/main.cpp:224-246 | the in-place narrowing of the side mask by the velocity's signs yields that mask |
| Breakout.DefaultIsUnreachable | examples/breakout/main.cpp:247-303 | every mask the velocity can produce has a case, so the default branch's throw is unreachable |
| Breakout.Bounce | examples/breakout/main.cpp:247-303 | fails exactly on masks with no case; no side keeps the velocity; a side hit flips the matching component; a corner hit flips one of the two |
| Breakout.BounceTurnsBallAround | examples/breakout/main.cpp:220-303 | bouncing with the sides the velocity can hit never fails; a ball at rest keeps its velocity, and a moving ball has one component reversed, one along which it was moving |
| Breakout.OverlapMeansSharedPixel | examples/breakout/main.cpp:205-208 | for non-empty rectangles the overlap test holds exactly when some pixel lies in both |
| Breakout.CollideAllNeverFails | examples/breakout/main.cpp:196-317 | a pass over the blocks never throws |
| Breakout.NoHitKeepsVelocity | examples/breakout/main.cpp:196-317 | when no block is hit, the velocity is unchanged |
| Breakout.Game.constructor | examples/breakout/main.cpp:196-202 | the game starts with the given blocks and velocity |
| Breakout.Game.BounceOff | examples/breakout/main.cpp:247-303 | the velocity changes as the bounce says, and stays when the mask is rejected |
| Breakout.Game.HitBlocks | examples/breakout/main.cpp:196-324 | every overlapped block is reset and the others stay; the velocity is the result of bouncing off the hit blocks in order; the game goes on exactly when some block was still there |

## Left out

- GLFW and Vulkan calls are not modelled: their answers are parameters. This covers enumerating devices and queue families, surface support, swapchain images, `glfwCreateWindow` ids and video modes.
- The user-supplied physical-device selector is left out; the built-in one is modelled.
- Mutexes, threads and `std::call_once` are left out. Each operation is modelled as running alone.
- Floating point is left out: the breakout ball's positions, velocity magnitudes, the velocity modifier, frame timing, and wall and platform bounces.
- Breakout.Game.BounceOff: velocities are modelled as integers, and only the sign of each component matters to the collision logic.
- File and console I/O are left out. The ANSI escapes of the debug printer are modelled as a style tag, and the printed line as a string.
- Templates whose bodies are not shown (the `.ipp` files) are left out, except where their documented behaviour is needed.
- The Conan `build` and `package` steps and `CMakeDeps` are left out: they only run CMake.
- `instance_creation_hints` is left out: it only forwards values to `glfwInitHint`.
- Errors reported by `Id()` during the input-buffer search are left out. The search reads the ids directly.
- ConanRecipe.OptionKeysAreDistinct covers the option names only. The same fact for the 38 creation-hint keys is left out because it is too expensive to prove.
- ConanRecipe.Validate takes the C++ standard as an enum, not the compiler settings that `check_min_cppstd` reads.
- DeviceSelection.MinimumForPresentation models both copies of the selector (gvw/device.cpp and `MINIMUM_FOR_PRESENTATION` in src/constants.cpp:514-687). The two copies run the same steps.
- DeviceOps.LogicalDevice.GetPhysicalDevice, GetSurfaceFormat, GetPresentMode and GetQueueFamilyInfos state their result through the selector result the device was made from. That result is kept as ghost state.
- InstanceSetup.CreateInstanceLists: assumes a throwing error callback. With one of src/'s printing callbacks (`NONE`, `COUT`, `CLOG`, `CERR`), src/instance.cpp goes on past each report; for example, a failed `glfwInit` still reaches `glfwVulkanSupported`. The model does not cover that continuation.
- PhysicalDeviceFilter.SelectPhysicalDevices: assumes a throwing error callback, as for CreateInstanceLists. With a printing callback, the selection in src/instance.cpp continues past each report, and the model does not cover that continuation.
- SrcWindow.Window.DrawFrame counts swapchain rebuilds instead of modelling them. It leaves out command-buffer recording and queue submission.
- SrcWindow.Window.constructor numbers the semaphores and fences instead of creating them (src/window.cpp:304-311).
- GlfwWindow.Window covers creation, destruction, the state getters and the display-mode changes. It leaves out `SetSize`, `SetPosition`, `SetTitle`, `SetIcon`, `Hide`, `Show`, `Focus` and `SetOpacity`, which only forward to GLFW.
- The header gvw/window.hpp:206-212 declares the reset position and size as plain values with defaults, while gvw/window.cpp calls `.value()` on them. The model follows the header: the constructor seeds both from the created window.
- GlfwWindow.Window.ExitFullScreenAt takes the pixel-to-screen conversion as a parameter. `PixelToScreenCoordinate` is not part of this model; its definition is not among the sources.
- The position and size that GLFW reports when a window enters full screen, or when it is asked for them, are parameters of the call. Nothing in the model keeps a copy of them between calls.
- GvwWindow.NewWindow leaves out the init hints and the error callbacks that `Init` installs (gvw/init.cpp:65-77), and the creation hints it applies. It keeps the two `Init` checks and the `glfwCreateWindow` failure, all of which throw through the default callbacks (gvw/init.cpp:26-39).
- VulkanArrays.FoundIn states membership in its own contract. The order of the found items is stated by FoundInConcat and FirstFoundIsFirstOffered.
- VulkanArrays.MissingIn states membership in its own contract. The order of the missing items is stated by MissingInConcat.
- SrcWindow.Window.ClearEvents clears the seven input vectors as one group and then the window vectors and both counters as another, where src/window.cpp:790-808 calls the sixteen single clears one by one. Every clear touches a different field, so the final state, which is what the contract states, is the same.

## Findings

| source | as written | input that shows it | evidently intended | confidence | as-written member | corrected member |
|---|---|---|---|---|---|---|
| gvw/glfw/input.cpp:50 | each input callback (lines 50, 70, 93, 138, 161, 189) advances `storedCursorEnterEvents`, not its own count | two key events on a new window: the second overwrites the first; 51 key events then a cursor-enter event: `.at(51)` on a vector of 50 throws | each callback advances the count of its own vector | not executed | InputBuffers.StoreAsWritten | InputBuffers.Store |
| src/gvw.cpp:136-152 | `DestroyInstance` compares the use count of the global pointer with 1 | calling it with no instance: use count 0, and it reports "-1 object is still using GVW." | with no instance there is nothing to destroy, and it succeeds | not executed | InstanceSetup.DestroyOutcomeAsWritten | InstanceSetup.DestroyOutcome |
| conanfile.py:56 | `tc.variable["GVW_CONAN"] = True` | any `conan install`: `CMakeToolchain` has no `variable` attribute | `tc.variables["GVW_CONAN"] = True` | not executed | ConanRecipe.GenerateAsWritten | ConanRecipe.ToolchainVariables |
