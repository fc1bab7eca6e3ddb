/** The input buffers of the gvw/glfw/ revision. Every window registered for
    input keeps, per input kind, a vector that only grows and a separate count
    of the events stored in it; a callback finds its window by a linear search
    of the registered windows, grows the vector by INPUT_BUFFER_INCREMENT_SIZE
    when the count has reached its size, and writes the event at index = count.
    Joystick events go to one global buffer with a global count.

    As written, six of the seven callbacks advance the cursor-enter count
    instead of their own (`StoreAsWritten`); `Store` is the evidently
    intended behaviour, in which each callback advances its own count. */
module InputBuffers {
  import opened Wrappers
  import opened WindowEvents
  import DS = DeviceSelection

  /** INPUT_BUFFER_INITIAL_SIZE and INPUT_BUFFER_INCREMENT_SIZE. */
  const InputBufferInitialSize: nat := 20
  const InputBufferIncrementSize: nat := 50

  /** A vector together with the count of events stored at its front. */
  datatype Growable = Growable(slots: seq<Event>, stored: nat) {
    predicate Valid() {
      stored <= |slots|
    }

    /** The events stored so far. */
    function Contents(): seq<Event>
      requires Valid()
    {
      slots[..stored]
    }
  }

  const EmptyBuffer: Growable := Growable([], 0)

  /** `std::out_of_range` from `vector::at`. */
  datatype InputError = OutOfRange

  predicate IsInputEvent(e: Event) {
    QueueOf(e).Some? && IsInputQueue(QueueOf(e).value)
  }

  /** The value-initialised event a resize pads a vector with. */
  function Blank(q: Queue): Event {
    match q
    case KeyQueue => Key(0, 0, 0, 0)
    case CharacterQueue => Character(0)
    case CursorPositionQueue => CursorPosition(0.0, 0.0)
    case CursorEnterQueue => CursorEnter(0)
    case MouseButtonQueue => MouseButton(0, 0, 0)
    case ScrollQueue => Scroll(0.0, 0.0)
    case FileDropQueue => FileDrop([])
    case SizeQueue => Size(0, 0)
    case FramebufferSizeQueue => FramebufferSize(0, 0)
    case ContentScaleQueue => ContentScale(0.0, 0.0)
    case PositionQueue => Position(0, 0)
    case IconifyQueue => Iconify(0)
    case MaximizeQueue => Maximize(0)
    case FocusQueue => Focus(0)
  }

  /** Grow when the count has reached the size, then write `e` at index = count;
      the count itself is not touched. `.at` fails if the index is still out of range. */
  function Place(b: Growable, fill: Event, e: Event): (r: Result<Growable, InputError>)
    ensures var size := if b.stored >= |b.slots| then |b.slots| + InputBufferIncrementSize else |b.slots|;
            && (r.Success? <==> b.stored < size)
            && (r.Success? ==> && r.value.stored == b.stored && |r.value.slots| == size
                               && r.value.slots[b.stored] == e
                               && forall i :: 0 <= i < |b.slots| && i != b.stored ==> r.value.slots[i] == b.slots[i])
  {
    var slots := if b.stored >= |b.slots| then DS.Resize(b.slots, |b.slots| + InputBufferIncrementSize, fill) else b.slots;
    if b.stored < |slots| then Success(Growable(slots[b.stored := e], b.stored)) else Failure(OutOfRange)
  }

  /** A stored count never beyond the size leaves room after growing, and placing then
      counting appends exactly one event to the stored ones. */
  lemma PlaceThenCountAppends(b: Growable, fill: Event, e: Event)
    requires b.Valid()
    ensures Place(b, fill, e).Success?
    ensures var p := Place(b, fill, e).value;
            var next := Growable(p.slots, p.stored + 1);
            next.Valid() && next.Contents() == b.Contents() + [e]
  {
    var p := Place(b, fill, e).value;
    var next := Growable(p.slots, p.stored + 1);
    assert next.Contents() == b.Contents() + [e] by {
      forall i | 0 <= i < b.stored + 1
        ensures next.Contents()[i] == (b.Contents() + [e])[i]
      {
        if i < b.stored {
          assert p.slots[i] == b.slots[i];
        }
      }
    }
  }

  /** The input buffers of one window. */
  type Buffers = map<Queue, Growable>

  predicate HasInputQueues(bs: Buffers) {
    forall q :: IsInputQueue(q) ==> q in bs
  }

  predicate WellFormed(bs: Buffers) {
    HasInputQueues(bs) && forall q :: IsInputQueue(q) ==> bs[q].Valid()
  }

  /** All seven vectors empty with a zero count: the state of a newly registered
      window (the header initialises every count to 0 and every vector empty). */
  const InitialBuffers: Buffers :=
    map q | q in {KeyQueue, CharacterQueue, CursorPositionQueue, CursorEnterQueue,
                  MouseButtonQueue, ScrollQueue, FileDropQueue} :: EmptyBuffer

  lemma InitialBuffersWellFormed()
    ensures WellFormed(InitialBuffers)
  {
  }

  /** One input callback as written: the event is placed in its own vector at
      its own count, and then the cursor-enter count is advanced. */
  function StoreAsWritten(bs: Buffers, e: Event): (r: Result<Buffers, InputError>)
    requires HasInputQueues(bs) && IsInputEvent(e)
    ensures r.Success? ==> HasInputQueues(r.value) && r.value.Keys == bs.Keys
  {
    var q := QueueOf(e).value;
    match Place(bs[q], Blank(q), e)
    case Failure(err) => Failure(err)
    case Success(placed) =>
      var bs' := bs[q := placed];
      Success(bs'[CursorEnterQueue := bs'[CursorEnterQueue].(stored := bs'[CursorEnterQueue].stored + 1)])
  }

  /** One input callback as evidently intended: the event is placed at its own
      count and that count is advanced. */
  function Store(bs: Buffers, e: Event): (r: Buffers)
    requires WellFormed(bs) && IsInputEvent(e)
    ensures WellFormed(r)
    ensures var q := QueueOf(e).value;
            && r[q].Contents() == bs[q].Contents() + [e]
            && forall q' :: q' in bs && q' != q ==> q' in r && r[q'] == bs[q']
  {
    var q := QueueOf(e).value;
    PlaceThenCountAppends(bs[q], Blank(q), e);
    var placed := Place(bs[q], Blank(q), e).value;
    bs[q := Growable(placed.slots, placed.stored + 1)]
  }

  /** Feeding events one after another to the as-written callbacks. */
  function StoreAllAsWritten(bs: Buffers, es: seq<Event>): (r: Result<Buffers, InputError>)
    requires HasInputQueues(bs)
    requires forall i :: 0 <= i < |es| ==> IsInputEvent(es[i])
    ensures r.Success? ==> HasInputQueues(r.value) && r.value.Keys == bs.Keys
    decreases |es|
  {
    if |es| == 0 then Success(bs)
    else match StoreAsWritten(bs, es[0])
      case Failure(err) => Failure(err)
      case Success(next) => StoreAllAsWritten(next, es[1..])
  }

  /** As written, every key event after the first overwrites slot 0 of the key
      vector, and the key count stays 0, so no key event is ever stored. */
  lemma KeyEventsOverwriteEachOther(e1: Event, e2: Event)
    requires e1.Key? && e2.Key?
    ensures StoreAsWritten(InitialBuffers, e1).Success?
    ensures var s1 := StoreAsWritten(InitialBuffers, e1).value;
            && StoreAsWritten(s1, e2).Success?
            && var s2 := StoreAsWritten(s1, e2).value;
               && s2[KeyQueue].stored == 0 && s2[KeyQueue].slots[0] == e2
               && s2[CursorEnterQueue].stored == 2
  {
  }

  /** The intended callbacks store both key events, in order. */
  lemma KeyEventsAreKept(e1: Event, e2: Event)
    requires e1.Key? && e2.Key?
    ensures WellFormed(InitialBuffers)
    ensures WellFormed(Store(InitialBuffers, e1))
    ensures Store(Store(InitialBuffers, e1), e2)[KeyQueue].Contents() == [e1, e2]
  {
    InitialBuffersWellFormed();
    var s1 := Store(InitialBuffers, e1);
    assert s1[KeyQueue].Contents() == [e1];
  }

  /** As written, n key events leave the key vector's count at 0 and move the
      cursor-enter count to n, while the cursor-enter vector stays empty. */
  lemma {:induction false} KeyEventsAdvanceCursorEnterCount(bs: Buffers, es: seq<Event>)
    requires HasInputQueues(bs) && KeyQueue in bs && CursorEnterQueue in bs
    requires forall i :: 0 <= i < |es| ==> es[i].Key?
    requires bs[KeyQueue].stored == 0 && |bs[KeyQueue].slots| > 0
    ensures forall i :: 0 <= i < |es| ==> IsInputEvent(es[i])
    ensures StoreAllAsWritten(bs, es).Success?
    ensures var r := StoreAllAsWritten(bs, es).value;
            && r[KeyQueue].stored == 0 && |r[KeyQueue].slots| == |bs[KeyQueue].slots|
            && r[CursorEnterQueue] == bs[CursorEnterQueue].(stored := bs[CursorEnterQueue].stored + |es|)
    decreases |es|
  {
    if |es| > 0 {
      var next := StoreAsWritten(bs, es[0]).value;
      assert next[KeyQueue].stored == 0;
      assert forall i :: 0 <= i < |es[1..]| ==> es[1..][i] == es[i + 1];
      KeyEventsAdvanceCursorEnterCount(next, es[1..]);
    }
  }

  /** As written, 51 key events followed by one cursor-enter event fail: the
      cursor-enter count is 51, the empty cursor-enter vector grows only to 50,
      and `.at(51)` throws. */
  lemma CursorEnterOverrun(keys: seq<Event>, enter: Event)
    requires |keys| == 51 && forall i :: 0 <= i < |keys| ==> keys[i].Key?
    requires enter.CursorEnter?
    ensures HasInputQueues(InitialBuffers)
    ensures forall i :: 0 <= i < |keys + [enter]| ==> IsInputEvent((keys + [enter])[i])
    ensures StoreAllAsWritten(InitialBuffers, keys + [enter]).Failure?
  {
    var first := StoreAsWritten(InitialBuffers, keys[0]).value;
    assert first[KeyQueue].stored == 0 && first[CursorEnterQueue] == Growable([], 1);
    var rest := keys[1..] + [enter];
    assert keys + [enter] == [keys[0]] + rest;
    assert forall i :: 0 <= i < |keys[1..]| ==> keys[1..][i] == keys[i + 1];
    KeyEventsAdvanceCursorEnterCount(first, keys[1..]);
    StoreAllPrefix(first, keys[1..], enter);
  }

  /** Running a prefix then one more event is running the whole sequence. */
  lemma {:induction false} StoreAllPrefix(bs: Buffers, es: seq<Event>, e: Event)
    requires HasInputQueues(bs)
    requires forall i :: 0 <= i < |es| ==> IsInputEvent(es[i])
    requires IsInputEvent(e)
    requires StoreAllAsWritten(bs, es).Success?
    ensures forall i :: 0 <= i < |es + [e]| ==> IsInputEvent((es + [e])[i])
    ensures StoreAllAsWritten(bs, es + [e]) == StoreAsWritten(StoreAllAsWritten(bs, es).value, e)
    decreases |es|
  {
    if |es| == 0 {
      assert es + [e] == [e];
    } else {
      assert (es + [e])[1..] == es[1..] + [e];
      StoreAllPrefix(StoreAsWritten(bs, es[0]).value, es[1..], e);
    }
  }

  /** Which registered windows answer to `associated`. */
  function Matches(ids: seq<Option<nat>>, associated: nat): (flags: seq<bool>)
    ensures |flags| == |ids| && forall i :: 0 <= i < |ids| ==> (flags[i] <==> ids[i] == Some(associated))
  {
    seq(|ids|, i requires 0 <= i < |ids| => ids[i] == Some(associated))
  }

  /** `FindWindowInputIndex` over the ids of the registered windows: GLFW_TRUE
      with `index` at the first window whose id is `associated`, or GLFW_FALSE
      with `index` equal to the number of windows. */
  method FindWindowInputIndex(associated: nat, ids: seq<Option<nat>>) returns (found: int, index: nat)
    ensures found == 1 || found == 0
    ensures found == 1 ==> DS.FirstIndex(Matches(ids, associated)) == Some(index)
    ensures found == 0 ==> DS.FirstIndex(Matches(ids, associated)) == None && index == |ids|
  {
    ghost var flags := Matches(ids, associated);
    index := 0;
    while index < |ids|
      invariant index <= |ids|
      invariant forall j :: 0 <= j < index ==> !flags[j]
    {
      if ids[index] == Some(associated) {
        DS.FirstIndexCharacterised(flags, index);
        return 1, index;
      }
      index := index + 1;
    }
    found := 0;
  }

  /** A window registered for input; its id does not change while registered. */
  class InputWindow {
    const id: Option<nat>
    var buffers: Buffers

    constructor (id: Option<nat>)
      ensures this.id == id && buffers == InitialBuffers
    {
      this.id := id;
      buffers := InitialBuffers;
    }
  }

  /** WINDOWS_RECIEVING_INPUT. */
  class InputRegistry {
    var windows: seq<InputWindow>

    function Ids(): (ids: seq<Option<nat>>)
      reads this
      ensures |ids| == |windows| && forall i :: 0 <= i < |windows| ==> ids[i] == windows[i].id
    {
      var ws := windows;
      seq(|ws|, i requires 0 <= i < |ws| => ws[i].id)
    }

    /** The index of the window a callback for `associated` acts on, if any. */
    function Target(associated: nat): (t: Option<nat>)
      reads this
      ensures t.Some? ==> t.value < |windows| && windows[t.value].id == Some(associated)
      ensures t.None? ==> forall w :: w in windows ==> w.id != Some(associated)
    {
      var r := DS.FirstIndex(Matches(Ids(), associated));
      assert r.None? ==> forall i :: 0 <= i < |windows| ==> windows[i].id != Some(associated) by {
        if r.None? {
          forall i | 0 <= i < |windows| ensures windows[i].id != Some(associated) {
            assert !Matches(Ids(), associated)[i];
          }
        }
      }
      r
    }

    /** An input callback as written; `.at` throwing leaves every buffer as it was. */
    method CallbackAsWritten(associated: nat, e: Event) returns (r: Result<(), InputError>)
      requires IsInputEvent(e)
      requires forall w :: w in windows ==> HasInputQueues(w.buffers)
      modifies set w | w in windows
      ensures Target(associated).None? ==> r.Success? && forall w :: w in windows ==> w.buffers == old(w.buffers)
      ensures Target(associated).Some? ==>
                var t := windows[Target(associated).value];
                var expected := StoreAsWritten(old(t.buffers), e);
                && (forall w :: w in windows && w != t ==> w.buffers == old(w.buffers))
                && (expected.Success? ==> r.Success? && t.buffers == expected.value)
                && (expected.Failure? ==> r == Failure(expected.error) && t.buffers == old(t.buffers))
    {
      var found, index := FindWindowInputIndex(associated, Ids());
      if found == 0 {
        return Success(());
      }
      var t := windows[index];
      var next := StoreAsWritten(t.buffers, e);
      if next.Failure? {
        return Failure(next.error);
      }
      t.buffers := next.value;
      r := Success(());
    }

    /** An input callback as evidently intended: the event is stored in its own
        buffer of the first window registered under `associated`; an unknown
        window drops it. */
    method Callback(associated: nat, e: Event)
      requires IsInputEvent(e)
      requires forall w :: w in windows ==> WellFormed(w.buffers)
      modifies set w | w in windows
      ensures Target(associated).None? ==> forall w :: w in windows ==> w.buffers == old(w.buffers)
      ensures Target(associated).Some? ==>
                var t := windows[Target(associated).value];
                && (forall w :: w in windows && w != t ==> w.buffers == old(w.buffers))
                && t.buffers == Store(old(t.buffers), e)
    {
      var found, index := FindWindowInputIndex(associated, Ids());
      if found == 0 {
        return;
      }
      var t := windows[index];
      t.buffers := Store(t.buffers, e);
    }
  }

  datatype JoystickEvent = JoystickEvent(jid: int, event: int)

  /** JOYSTICK_EVENTS and STORED_JOYSTICK_EVENTS. */
  class JoystickBuffer {
    var events: seq<JoystickEvent>
    var stored: nat

    constructor ()
      ensures events == [] && stored == 0
    {
      events, stored := [], 0;
    }

    /** `SetupJoystickInputBuffer`: size the buffer to INPUT_BUFFER_INITIAL_SIZE. */
    method Setup()
      modifies this
      ensures events == DS.Resize(old(events), InputBufferInitialSize, JoystickEvent(0, 0))
      ensures stored == old(stored)
    {
      events := DS.Resize(events, InputBufferInitialSize, JoystickEvent(0, 0));
    }

    /** `JoystickCallback`: does nothing. */
    method Callback(jid: int, event: int)
      ensures events == old(events) && stored == old(stored)
    {
    }

    /** `ClearJoystickInputBuffer`: back to INPUT_BUFFER_INITIAL_SIZE entries and a zero count. */
    method Clear()
      modifies this
      ensures |events| == InputBufferInitialSize && stored == 0
      ensures events == DS.Resize(old(events), InputBufferInitialSize, JoystickEvent(0, 0))
    {
      events := DS.Resize(events, InputBufferInitialSize, JoystickEvent(0, 0));
      stored := 0;
    }

    /** `GetJoystickEvents`: a copy truncated (or padded) to the stored count; the buffer is untouched. */
    method Get() returns (r: seq<JoystickEvent>)
      ensures |r| == stored
      ensures forall i :: 0 <= i < stored && i < |events| ==> r[i] == events[i]
      ensures r == DS.Resize(events, stored, JoystickEvent(0, 0))
    {
      r := DS.Resize(events, stored, JoystickEvent(0, 0));
    }
  }
}
