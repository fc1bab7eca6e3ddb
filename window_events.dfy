/** The per-window event queues shared by every window revision of the library:
    fourteen event vectors that GLFW callbacks append to, and two counters (close
    requests and refresh requests) that callbacks increment. The seven input
    queues are key, character, cursor position, cursor enter, mouse button,
    scroll and file drop; the seven window queues are size, framebuffer size,
    content scale, position, iconify, maximize and focus. Floating-point payloads
    are carried as `real` and never computed on. */
module WindowEvents {
  import opened Wrappers

  datatype Event =
    | Key(key: int, scancode: int, action: int, mods: int)
    | Character(codePoint: nat)
    | CursorPosition(xPos: real, yPos: real)
    | CursorEnter(entered: int)
    | MouseButton(button: int, action: int, mods: int)
    | Scroll(xOffset: real, yOffset: real)
    | FileDrop(paths: seq<string>)
    | Close
    | Size(width: int, height: int)
    | FramebufferSize(width: int, height: int)
    | ContentScale(xScale: real, yScale: real)
    | Position(x: int, y: int)
    | Iconify(iconified: int)
    | Maximize(maximized: int)
    | Focus(focused: int)
    | Refresh

  /** The fourteen event vectors of a window. */
  datatype Queue =
    | KeyQueue | CharacterQueue | CursorPositionQueue | CursorEnterQueue
    | MouseButtonQueue | ScrollQueue | FileDropQueue
    | SizeQueue | FramebufferSizeQueue | ContentScaleQueue | PositionQueue
    | IconifyQueue | MaximizeQueue | FocusQueue

  predicate IsInputQueue(q: Queue) {
    q in {KeyQueue, CharacterQueue, CursorPositionQueue, CursorEnterQueue,
          MouseButtonQueue, ScrollQueue, FileDropQueue}
  }

  /** The vector an event is appended to; close and refresh events only bump a counter. */
  function QueueOf(e: Event): (q: Option<Queue>)
    ensures q.None? <==> e.Close? || e.Refresh?
  {
    match e
    case Key(_, _, _, _) => Some(KeyQueue)
    case Character(_) => Some(CharacterQueue)
    case CursorPosition(_, _) => Some(CursorPositionQueue)
    case CursorEnter(_) => Some(CursorEnterQueue)
    case MouseButton(_, _, _) => Some(MouseButtonQueue)
    case Scroll(_, _) => Some(ScrollQueue)
    case FileDrop(_) => Some(FileDropQueue)
    case Close => None
    case Size(_, _) => Some(SizeQueue)
    case FramebufferSize(_, _) => Some(FramebufferSizeQueue)
    case ContentScale(_, _) => Some(ContentScaleQueue)
    case Position(_, _) => Some(PositionQueue)
    case Iconify(_) => Some(IconifyQueue)
    case Maximize(_) => Some(MaximizeQueue)
    case Focus(_) => Some(FocusQueue)
    case Refresh => None
  }

  /** The event state of one window, as values. */
  datatype Events = Events(
    key: seq<Event>, character: seq<Event>, cursorPosition: seq<Event>, cursorEnter: seq<Event>,
    mouseButton: seq<Event>, scroll: seq<Event>, fileDrop: seq<Event>,
    closeCount: nat,
    size: seq<Event>, framebufferSize: seq<Event>, contentScale: seq<Event>, position: seq<Event>,
    iconify: seq<Event>, maximize: seq<Event>, focus: seq<Event>,
    refreshCount: nat)
  {
    /** The contents of queue `q`. */
    function Get(q: Queue): seq<Event> {
      match q
      case KeyQueue => key
      case CharacterQueue => character
      case CursorPositionQueue => cursorPosition
      case CursorEnterQueue => cursorEnter
      case MouseButtonQueue => mouseButton
      case ScrollQueue => scroll
      case FileDropQueue => fileDrop
      case SizeQueue => size
      case FramebufferSizeQueue => framebufferSize
      case ContentScaleQueue => contentScale
      case PositionQueue => position
      case IconifyQueue => iconify
      case MaximizeQueue => maximize
      case FocusQueue => focus
    }

    /** This state with queue `q` replaced by `v`. */
    function With(q: Queue, v: seq<Event>): (r: Events)
      ensures r.Get(q) == v
      ensures forall q' :: q' != q ==> r.Get(q') == Get(q')
      ensures r.closeCount == closeCount && r.refreshCount == refreshCount
    {
      match q
      case KeyQueue => this.(key := v)
      case CharacterQueue => this.(character := v)
      case CursorPositionQueue => this.(cursorPosition := v)
      case CursorEnterQueue => this.(cursorEnter := v)
      case MouseButtonQueue => this.(mouseButton := v)
      case ScrollQueue => this.(scroll := v)
      case FileDropQueue => this.(fileDrop := v)
      case SizeQueue => this.(size := v)
      case FramebufferSizeQueue => this.(framebufferSize := v)
      case ContentScaleQueue => this.(contentScale := v)
      case PositionQueue => this.(position := v)
      case IconifyQueue => this.(iconify := v)
      case MaximizeQueue => this.(maximize := v)
      case FocusQueue => this.(focus := v)
    }

    /** Every queue holds only events of its own kind. */
    predicate WellSorted() {
      forall q, i :: 0 <= i < |Get(q)| ==> QueueOf(Get(q)[i]) == Some(q)
    }
  }

  const NoEvents: Events := Events([], [], [], [], [], [], [], 0, [], [], [], [], [], [], [], 0)

  /** What a callback does with an event: append it to its own vector, or bump its counter. */
  function Record(s: Events, e: Event): Events {
    match QueueOf(e)
    case Some(q) => s.With(q, s.Get(q) + [e])
    case None => if e.Close? then s.(closeCount := s.closeCount + 1) else s.(refreshCount := s.refreshCount + 1)
  }

  /** Empty the seven input vectors. */
  function ClearInput(s: Events): Events {
    s.(key := [], character := [], cursorPosition := [], cursorEnter := [],
       mouseButton := [], scroll := [], fileDrop := [])
  }

  /** Empty the seven window vectors and zero both counters. */
  function ClearWindow(s: Events): Events {
    s.(closeCount := 0, size := [], framebufferSize := [], contentScale := [], position := [],
       iconify := [], maximize := [], focus := [], refreshCount := 0)
  }

  /* ----- Properties ----- */

  /** A callback appends exactly one event at the end of its own vector, or adds
      one to its own counter, and changes nothing else. */
  lemma RecordAppendsOnlyToOwnQueue(s: Events, e: Event)
    ensures forall q :: Record(s, e).Get(q) == if QueueOf(e) == Some(q) then s.Get(q) + [e] else s.Get(q)
    ensures Record(s, e).closeCount == s.closeCount + (if e.Close? then 1 else 0)
    ensures Record(s, e).refreshCount == s.refreshCount + (if e.Refresh? then 1 else 0)
  {
  }

  /** Recording keeps every queue holding only its own kind of event. */
  lemma RecordKeepsQueuesSorted(s: Events, e: Event)
    requires s.WellSorted()
    ensures Record(s, e).WellSorted()
  {
    var r := Record(s, e);
    forall q, i | 0 <= i < |r.Get(q)|
      ensures QueueOf(r.Get(q)[i]) == Some(q)
    {
      if QueueOf(e) == Some(q) && i == |s.Get(q)| {
        assert r.Get(q)[i] == e;
      } else {
        assert r.Get(q)[i] == s.Get(q)[i];
      }
    }
  }

  /** Events of different kinds are independent: recording them in either order gives the same state. */
  lemma RecordCommutesAcrossQueues(s: Events, e1: Event, e2: Event)
    requires QueueOf(e1) != QueueOf(e2) || (QueueOf(e1).None? && QueueOf(e2).None?)
    ensures Record(Record(s, e1), e2) == Record(Record(s, e2), e1)
  {
    var a, b := Record(Record(s, e1), e2), Record(Record(s, e2), e1);
    RecordAppendsOnlyToOwnQueue(s, e1);
    RecordAppendsOnlyToOwnQueue(s, e2);
    RecordAppendsOnlyToOwnQueue(Record(s, e1), e2);
    RecordAppendsOnlyToOwnQueue(Record(s, e2), e1);
    SameQueuesSameEvents(a, b);
  }

  /** Two event states with the same queues and counters are equal. */
  lemma SameQueuesSameEvents(a: Events, b: Events)
    requires forall q :: a.Get(q) == b.Get(q)
    requires a.closeCount == b.closeCount && a.refreshCount == b.refreshCount
    ensures a == b
  {
    assert a.Get(KeyQueue) == b.Get(KeyQueue) && a.Get(CharacterQueue) == b.Get(CharacterQueue);
    assert a.Get(CursorPositionQueue) == b.Get(CursorPositionQueue) && a.Get(CursorEnterQueue) == b.Get(CursorEnterQueue);
    assert a.Get(MouseButtonQueue) == b.Get(MouseButtonQueue) && a.Get(ScrollQueue) == b.Get(ScrollQueue);
    assert a.Get(FileDropQueue) == b.Get(FileDropQueue) && a.Get(SizeQueue) == b.Get(SizeQueue);
    assert a.Get(FramebufferSizeQueue) == b.Get(FramebufferSizeQueue) && a.Get(ContentScaleQueue) == b.Get(ContentScaleQueue);
    assert a.Get(PositionQueue) == b.Get(PositionQueue) && a.Get(IconifyQueue) == b.Get(IconifyQueue);
    assert a.Get(MaximizeQueue) == b.Get(MaximizeQueue) && a.Get(FocusQueue) == b.Get(FocusQueue);
  }

  /** Clearing the input queues empties exactly those seven and keeps the window queues and counters. */
  lemma ClearInputSpec(s: Events)
    ensures forall q :: ClearInput(s).Get(q) == if IsInputQueue(q) then [] else s.Get(q)
    ensures ClearInput(s).closeCount == s.closeCount && ClearInput(s).refreshCount == s.refreshCount
  {
  }

  /** Clearing the window events empties the seven window queues, zeroes both
      counters and keeps the input queues. */
  lemma ClearWindowSpec(s: Events)
    ensures forall q :: ClearWindow(s).Get(q) == if IsInputQueue(q) then s.Get(q) else []
    ensures ClearWindow(s).closeCount == 0 && ClearWindow(s).refreshCount == 0
  {
  }

  /** Clearing input then window events leaves no event at all, whatever the state was. */
  lemma ClearBothEmptiesAll(s: Events)
    ensures ClearWindow(ClearInput(s)) == NoEvents
    ensures ClearInput(ClearWindow(s)) == NoEvents
  {
  }

  /** After a queue is emptied, the next event of its kind is the only one in it. */
  lemma ClearThenRecord(s: Events, e: Event)
    requires QueueOf(e).Some?
    ensures Record(s.With(QueueOf(e).value, []), e).Get(QueueOf(e).value) == [e]
  {
  }

  /** The event queues of one window, updated in place by callbacks and Clear calls. */
  class EventQueues {
    var keyEvents: seq<Event>
    var characterEvents: seq<Event>
    var cursorPositionEvents: seq<Event>
    var cursorEnterEvents: seq<Event>
    var mouseButtonEvents: seq<Event>
    var scrollEvents: seq<Event>
    var fileDropEvents: seq<Event>
    var closeEvents: nat
    var sizeEvents: seq<Event>
    var framebufferSizeEvents: seq<Event>
    var contentScaleEvents: seq<Event>
    var positionEvents: seq<Event>
    var iconifyEvents: seq<Event>
    var maximizeEvents: seq<Event>
    var focusEvents: seq<Event>
    var refreshEvents: nat

    ghost function Snapshot(): Events
      reads this
    {
      Events(keyEvents, characterEvents, cursorPositionEvents, cursorEnterEvents,
             mouseButtonEvents, scrollEvents, fileDropEvents, closeEvents,
             sizeEvents, framebufferSizeEvents, contentScaleEvents, positionEvents,
             iconifyEvents, maximizeEvents, focusEvents, refreshEvents)
    }

    constructor ()
      ensures Snapshot() == NoEvents
    {
      keyEvents, characterEvents, cursorPositionEvents, cursorEnterEvents := [], [], [], [];
      mouseButtonEvents, scrollEvents, fileDropEvents, closeEvents := [], [], [], 0;
      sizeEvents, framebufferSizeEvents, contentScaleEvents, positionEvents := [], [], [], [];
      iconifyEvents, maximizeEvents, focusEvents, refreshEvents := [], [], [], 0;
    }

    /** The callback for `e`: emplace_back on its vector, or ++ on its counter. */
    method Append(e: Event)
      modifies this
      ensures Snapshot() == Record(old(Snapshot()), e)
    {
      match QueueOf(e)
      case Some(q) =>
        var current := Contents(q);
        Replace(q, current + [e]);
      case None =>
        if e.Close? {
          closeEvents := closeEvents + 1;
        } else {
          refreshEvents := refreshEvents + 1;
        }
    }

    /** The Clear<Kind>Events call for one vector. */
    method Clear(q: Queue)
      modifies this
      ensures Snapshot() == old(Snapshot()).With(q, [])
    {
      Replace(q, []);
    }

    /** Assign vector `q`. */
    method Replace(q: Queue, v: seq<Event>)
      modifies this
      ensures Snapshot() == old(Snapshot()).With(q, v)
    {
      if q.KeyQueue? || q.CharacterQueue? || q.CursorPositionQueue? || q.CursorEnterQueue?
         || q.MouseButtonQueue? || q.ScrollQueue? || q.FileDropQueue? {
        ReplaceInput(q, v);
      } else {
        ReplaceWindow(q, v);
      }
    }

    method ReplaceInput(q: Queue, v: seq<Event>)
      requires q.KeyQueue? || q.CharacterQueue? || q.CursorPositionQueue? || q.CursorEnterQueue?
               || q.MouseButtonQueue? || q.ScrollQueue? || q.FileDropQueue?
      modifies this
      ensures Snapshot() == old(Snapshot()).With(q, v)
    {
      ghost var before := Snapshot();
      match q
      case KeyQueue => keyEvents := v; assert Snapshot() == before.(key := v);
      case CharacterQueue => characterEvents := v; assert Snapshot() == before.(character := v);
      case CursorPositionQueue => cursorPositionEvents := v; assert Snapshot() == before.(cursorPosition := v);
      case CursorEnterQueue => cursorEnterEvents := v; assert Snapshot() == before.(cursorEnter := v);
      case MouseButtonQueue => mouseButtonEvents := v; assert Snapshot() == before.(mouseButton := v);
      case ScrollQueue => scrollEvents := v; assert Snapshot() == before.(scroll := v);
      case FileDropQueue => fileDropEvents := v; assert Snapshot() == before.(fileDrop := v);
    }

    method ReplaceWindow(q: Queue, v: seq<Event>)
      requires !(q.KeyQueue? || q.CharacterQueue? || q.CursorPositionQueue? || q.CursorEnterQueue?
                 || q.MouseButtonQueue? || q.ScrollQueue? || q.FileDropQueue?)
      modifies this
      ensures Snapshot() == old(Snapshot()).With(q, v)
    {
      ghost var before := Snapshot();
      match q
      case SizeQueue => sizeEvents := v; assert Snapshot() == before.(size := v);
      case FramebufferSizeQueue => framebufferSizeEvents := v; assert Snapshot() == before.(framebufferSize := v);
      case ContentScaleQueue => contentScaleEvents := v; assert Snapshot() == before.(contentScale := v);
      case PositionQueue => positionEvents := v; assert Snapshot() == before.(position := v);
      case IconifyQueue => iconifyEvents := v; assert Snapshot() == before.(iconify := v);
      case MaximizeQueue => maximizeEvents := v; assert Snapshot() == before.(maximize := v);
      case FocusQueue => focusEvents := v; assert Snapshot() == before.(focus := v);
    }

    method ClearCloseEvents()
      modifies this
      ensures Snapshot() == old(Snapshot()).(closeCount := 0)
    {
      closeEvents := 0;
    }

    method ClearRefreshEvents()
      modifies this
      ensures Snapshot() == old(Snapshot()).(refreshCount := 0)
    {
      refreshEvents := 0;
    }

    /** The seven input clears: key, character, cursor position, cursor enter,
        mouse button, scroll, file drop. */
    method ClearInputEvents()
      modifies this
      ensures Snapshot() == ClearInput(old(Snapshot()))
    {
      Clear(KeyQueue);
      Clear(CharacterQueue);
      Clear(CursorPositionQueue);
      Clear(CursorEnterQueue);
      Clear(MouseButtonQueue);
      Clear(ScrollQueue);
      Clear(FileDropQueue);
    }

    /** The nine window clears: close, size, framebuffer size, content scale,
        position, iconify, maximize, focus, refresh. */
    method ClearWindowEvents()
      modifies this
      ensures Snapshot() == ClearWindow(old(Snapshot()))
    {
      ghost var s := Snapshot();
      ClearCloseEvents();
      Clear(SizeQueue);
      Clear(FramebufferSizeQueue);
      Clear(ContentScaleQueue);
      assert Snapshot() == s.(closeCount := 0, size := [], framebufferSize := [], contentScale := []);
      Clear(PositionQueue);
      Clear(IconifyQueue);
      Clear(MaximizeQueue);
      Clear(FocusQueue);
      ClearRefreshEvents();
    }

    /** A copy of one vector; nothing changes. */
    method Contents(q: Queue) returns (r: seq<Event>)
      ensures r == Snapshot().Get(q)
    {
      match q
      case KeyQueue => r := keyEvents;
      case CharacterQueue => r := characterEvents;
      case CursorPositionQueue => r := cursorPositionEvents;
      case CursorEnterQueue => r := cursorEnterEvents;
      case MouseButtonQueue => r := mouseButtonEvents;
      case ScrollQueue => r := scrollEvents;
      case FileDropQueue => r := fileDropEvents;
      case SizeQueue => r := sizeEvents;
      case FramebufferSizeQueue => r := framebufferSizeEvents;
      case ContentScaleQueue => r := contentScaleEvents;
      case PositionQueue => r := positionEvents;
      case IconifyQueue => r := iconifyEvents;
      case MaximizeQueue => r := maximizeEvents;
      case FocusQueue => r := focusEvents;
    }
  }
}
