/** The configuration constants of the src/ revision that carry behaviour: the
    `APPEND_TO_*` window-event callbacks (also the gvw/ revision's
    `AppendTo*EventBuffer` functions), the `APPEND_TO_EVENT_BUFFERS` and `NONE`
    callback sets that wire them to the sixteen callback slots of a window, the
    `MAILBOX_OR_FIFO` present-mode preference and the `NO_MINIMUM` /
    `NO_MAXIMUM` size limits. */
module ConfigConstants {
  import opened Wrappers
  import opened WindowEvents
  import DS = DeviceSelection
  import opened VulkanArrays

  /** The sixteen callback slots of `window_event_callbacks`: one per event vector, plus close and refresh. */
  datatype Slot = EventSlot(queue: Queue) | CloseSlot | RefreshSlot

  /** The slot whose callback GLFW calls for `e`. */
  function SlotOf(e: Event): (s: Slot)
    ensures s.EventSlot? <==> QueueOf(e).Some?
    ensures s.EventSlot? ==> s.queue == QueueOf(e).value
    ensures s == CloseSlot <==> e.Close?
  {
    match QueueOf(e)
    case Some(q) => EventSlot(q)
    case None => if e.Close? then CloseSlot else RefreshSlot
  }

  /** The callbacks a slot can hold: append to a vector, or increment a counter. */
  datatype Handler = AppendTo(queue: Queue) | IncrementClose | IncrementRefresh

  /** A callback set; a slot without an entry holds `nullptr`. */
  type Wiring = map<Slot, Handler>

  const AllSlots: set<Slot> :=
    {EventSlot(KeyQueue), EventSlot(CharacterQueue), EventSlot(CursorPositionQueue),
     EventSlot(CursorEnterQueue), EventSlot(MouseButtonQueue), EventSlot(ScrollQueue),
     EventSlot(FileDropQueue), CloseSlot, EventSlot(SizeQueue), EventSlot(FramebufferSizeQueue),
     EventSlot(ContentScaleQueue), EventSlot(PositionQueue), EventSlot(IconifyQueue),
     EventSlot(MaximizeQueue), EventSlot(FocusQueue), RefreshSlot}

  /** The `APPEND_TO_*` callback belonging to a slot. */
  function Matching(s: Slot): Handler {
    match s
    case EventSlot(q) => AppendTo(q)
    case CloseSlot => IncrementClose
    case RefreshSlot => IncrementRefresh
  }

  /** `window_event_callbacks_config::NONE`. */
  const NoCallbacks: Wiring := map[]

  /** `window_event_callbacks_config::APPEND_TO_EVENT_BUFFERS`. */
  const AppendToEventBuffers: Wiring := map s | s in AllSlots :: Matching(s)

  /** Every slot is wired, and each to its own callback. */
  lemma AppendToEventBuffersIsComplete(s: Slot)
    ensures s in AppendToEventBuffers && AppendToEventBuffers[s] == Matching(s)
  {
    match s
    case EventSlot(q) =>
      match q {
        case KeyQueue =>
        case CharacterQueue =>
        case CursorPositionQueue =>
        case CursorEnterQueue =>
        case MouseButtonQueue =>
        case ScrollQueue =>
        case FileDropQueue =>
        case SizeQueue =>
        case FramebufferSizeQueue =>
        case ContentScaleQueue =>
        case PositionQueue =>
        case IconifyQueue =>
        case MaximizeQueue =>
        case FocusQueue =>
      }
    case CloseSlot =>
    case RefreshSlot =>
  }

  /** What one callback does to a window's event state: the handler's own
      vector gains `e` at its end, its own counter goes up by one, and every
      other vector and counter is left alone. */
  function Apply(h: Handler, s: Events, e: Event): (r: Events)
    ensures forall q :: r.Get(q) == if h.AppendTo? && q == h.queue then s.Get(q) + [e] else s.Get(q)
    ensures r.closeCount == s.closeCount + (if h == IncrementClose then 1 else 0)
    ensures r.refreshCount == s.refreshCount + (if h == IncrementRefresh then 1 else 0)
  {
    match h
    case AppendTo(q) => s.With(q, s.Get(q) + [e])
    case IncrementClose => s.(closeCount := s.closeCount + 1)
    case IncrementRefresh => s.(refreshCount := s.refreshCount + 1)
  }

  /** GLFW delivering `e` to a window whose callbacks are `w`. */
  function Dispatch(w: Wiring, s: Events, e: Event): Events {
    if SlotOf(e) in w then Apply(w[SlotOf(e)], s, e) else s
  }

  /** With `APPEND_TO_EVENT_BUFFERS`, each event lands at the end of its own
      vector, or bumps its own counter, and nothing else changes. */
  lemma AppendToEventBuffersRecords(s: Events, e: Event)
    ensures Dispatch(AppendToEventBuffers, s, e) == Record(s, e)
  {
    AppendToEventBuffersIsComplete(SlotOf(e));
  }

  /** With `NONE`, no event reaches a buffer. */
  lemma NoCallbacksDropEverything(s: Events, e: Event)
    ensures Dispatch(NoCallbacks, s, e) == s
  {
  }

  /** An `APPEND_TO_*` callback (or `AppendTo*EventBuffer`) running on a window's queues. */
  method InvokeCallback(w: Wiring, window: EventQueues, e: Event)
    modifies window
    ensures window.Snapshot() == Dispatch(w, old(window.Snapshot()), e)
  {
    ghost var before := window.Snapshot();
    if SlotOf(e) in w {
      var h := w[SlotOf(e)];
      assert Dispatch(w, before, e) == Apply(h, before, e);
      match h
      case AppendTo(q) =>
        var v := window.Contents(q);
        window.Replace(q, v + [e]);
      case IncrementClose =>
        window.closeEvents := window.closeEvents + 1;
        assert window.Snapshot() == before.(closeCount := before.closeCount + 1);
      case IncrementRefresh =>
        window.refreshEvents := window.refreshEvents + 1;
        assert window.Snapshot() == before.(refreshCount := before.refreshCount + 1);
    }
  }

  /* ----- Swapchain and size-limit presets ----- */

  /** `swapchain_present_modes_config::MAILBOX_OR_FIFO`. */
  const MailboxOrFifo: seq<DS.PresentMode> := [DS.Mailbox, DS.Fifo]

  /** Filtered against what a device supports, `MAILBOX_OR_FIFO` yields Mailbox
      first whenever the device has it, FIFO alone when it has only FIFO, and
      nothing when it has neither; ranked, Mailbox wins. */
  lemma MailboxOrFifoPrefersMailbox(deviceModes: seq<DS.PresentMode>)
    ensures DS.BestPresentMode(MailboxOrFifo) == DS.Mailbox
    ensures DS.Mailbox in deviceModes ==> FoundIn(MailboxOrFifo, deviceModes)[0] == DS.Mailbox
    ensures DS.Mailbox !in deviceModes && DS.Fifo in deviceModes ==> FoundIn(MailboxOrFifo, deviceModes) == [DS.Fifo]
    ensures DS.Mailbox !in deviceModes && DS.Fifo !in deviceModes ==> FoundIn(MailboxOrFifo, deviceModes) == []
  {
    assert MailboxOrFifo[1..] == [DS.Fifo];
    assert MailboxOrFifo[..1] == [DS.Mailbox];
    assert [DS.Fifo][1..] == [];
  }

  /** GLFW_DONT_CARE. */
  const DontCare: int := -1

  /** A window size limit; a DONT_CARE component imposes nothing (glfwSetWindowSizeLimits). */
  datatype SizeLimit = SizeLimit(width: int, height: int)

  const NoMinimum: SizeLimit := SizeLimit(DontCare, DontCare)
  const NoMaximum: SizeLimit := SizeLimit(DontCare, DontCare)

  predicate WithinLimits(width: nat, height: nat, minimum: SizeLimit, maximum: SizeLimit) {
    && (minimum.width == DontCare || width >= minimum.width)
    && (minimum.height == DontCare || height >= minimum.height)
    && (maximum.width == DontCare || width <= maximum.width)
    && (maximum.height == DontCare || height <= maximum.height)
  }

  /** A minimum admits every size exactly when each component is DONT_CARE or
      at most 0; a maximum admits every size only when it is `NO_MAXIMUM`. So
      `NO_MINIMUM` with `NO_MAXIMUM` admits every size, and no other maximum does. */
  lemma LimitsAdmitEverySize(minimum: SizeLimit, maximum: SizeLimit)
    ensures (forall w: nat, h: nat :: WithinLimits(w, h, minimum, NoMaximum)) <==>
              (minimum.width == DontCare || minimum.width <= 0) && (minimum.height == DontCare || minimum.height <= 0)
    ensures (forall w: nat, h: nat :: WithinLimits(w, h, NoMinimum, maximum)) <==> maximum == NoMaximum
  {
    if minimum.width != DontCare && minimum.width > 0 {
      assert !WithinLimits(0, 0, minimum, NoMaximum);
    }
    if minimum.height != DontCare && minimum.height > 0 {
      assert !WithinLimits(0, 0, minimum, NoMaximum);
    }
    if maximum.width != DontCare {
      var w: nat := if maximum.width < 0 then 0 else maximum.width + 1;
      assert !WithinLimits(w, 0, NoMinimum, maximum);
    }
    if maximum.height != DontCare {
      var h: nat := if maximum.height < 0 then 0 else maximum.height + 1;
      assert !WithinLimits(0, h, NoMinimum, maximum);
    }
  }
}
