/** Library-wide state: assembling the Vulkan instance's extension and layer
    lists (`gvw::gvw` and `instance::instance`), the global joystick event
    buffer, the monitor list, the gvw/ revision's `gvw::Get` singleton and the
    src/ revision's `GVW_INSTANCE` global with `CreateInstance`, `GetInstance`
    and `DestroyInstance`. Every reported error stops the call. */
module InstanceSetup {
  import opened Wrappers
  import opened VulkanArrays

  /* ----- Extension and layer lists ----- */

  datatype InstanceError =
    | GlfwInitFailed
    | VulkanUnsupported
    | ExtensionsMissing(extensions: seq<string>)
    | LayersMissing(layers: seq<string>)

  /** The lists the Vulkan instance is created with. */
  datatype InstanceLists = InstanceLists(extensions: seq<string>, layers: seq<string>)

  /** The instance constructor up to `createInstanceUnique`: initialise GLFW,
      require Vulkan, append the extensions GLFW requires to the caller's, then
      reject the call if any extension or layer is unavailable. */
  method CreateInstanceLists(userExtensions: seq<string>, userLayers: seq<string>,
                             glfwInitialised: bool, vulkanSupported: bool, glfwRequired: seq<string>,
                             availableExtensions: seq<string>, availableLayers: seq<string>)
    returns (r: Result<InstanceLists, InstanceError>)
    ensures !glfwInitialised ==> r == Failure(GlfwInitFailed)
    ensures glfwInitialised && !vulkanSupported ==> r == Failure(VulkanUnsupported)
    ensures glfwInitialised && vulkanSupported ==>
              var extensions := userExtensions + glfwRequired;
              && (MissingIn(extensions, availableExtensions) != [] ==> r == Failure(ExtensionsMissing(MissingIn(extensions, availableExtensions))))
              && (MissingIn(extensions, availableExtensions) == [] && MissingIn(userLayers, availableLayers) != [] ==>
                    r == Failure(LayersMissing(MissingIn(userLayers, availableLayers))))
              && (MissingIn(extensions, availableExtensions) == [] && MissingIn(userLayers, availableLayers) == [] ==>
                    r == Success(InstanceLists(extensions, userLayers)))
    ensures r.Success? ==>
              && r.value.extensions[..|userExtensions|] == userExtensions
              && r.value.extensions[|userExtensions|..] == glfwRequired
              && (forall e :: e in r.value.extensions ==> e in availableExtensions)
              && (forall l :: l in r.value.layers ==> l in availableLayers)
  {
    if !glfwInitialised {
      return Failure(GlfwInitFailed);
    }
    if !vulkanSupported {
      return Failure(VulkanUnsupported);
    }
    var extensions := userExtensions;
    for i := 0 to |glfwRequired|
      invariant extensions == userExtensions + glfwRequired[..i]
    {
      extensions := extensions + [glfwRequired[i]];
      assert glfwRequired[..i + 1] == glfwRequired[..i] + [glfwRequired[i]];
    }
    assert glfwRequired[..|glfwRequired|] == glfwRequired;
    var extensionsNotFound := MissingIn(extensions, availableExtensions);
    if extensionsNotFound != [] {
      return Failure(ExtensionsMissing(extensionsNotFound));
    }
    var layersNotFound := MissingIn(userLayers, availableLayers);
    if layersNotFound != [] {
      return Failure(LayersMissing(layersNotFound));
    }
    r := Success(InstanceLists(extensions, userLayers));
  }

  /* ----- Joystick events ----- */

  datatype JoystickEvent = JoystickEvent(jid: int, event: int)

  /** The global joystick event vector. */
  class JoystickEvents {
    var events: seq<JoystickEvent>

    constructor ()
      ensures events == []
    {
      events := [];
    }

    /** `AppendToJoystickEventBuffer`. */
    method Append(jid: int, event: int)
      modifies this
      ensures events == old(events) + [JoystickEvent(jid, event)]
    {
      events := events + [JoystickEvent(jid, event)];
    }

    /** `ClearJoystickEvents`. */
    method Clear()
      modifies this
      ensures events == []
    {
      events := [];
    }

    /** `JoystickEvents` / `GetJoystickEvents`: the buffer as it is. */
    method Get() returns (r: seq<JoystickEvent>)
      ensures r == events
    {
      r := events;
    }
  }

  /* ----- Monitors ----- */

  /** A monitor object wrapping one GLFW monitor handle. */
  datatype Monitor = Monitor(handle: nat)

  /** `AllMonitors`: one monitor per handle GLFW lists, in its order. */
  method AllMonitors(handles: seq<nat>) returns (monitors: seq<Monitor>)
    ensures |monitors| == |handles|
    ensures forall i :: 0 <= i < |handles| ==> monitors[i].handle == handles[i]
  {
    monitors := [];
    for i := 0 to |handles|
      invariant |monitors| == i
      invariant forall j :: 0 <= j < i ==> monitors[j].handle == handles[j]
    {
      monitors := monitors + [Monitor(handles[i])];
    }
  }

  /* ----- gvw::Get ----- */

  /** The function-local static of `gvw::Get`: built on the first call from
      that call's info; later calls return it and ignore their argument. */
  class Context {
    var created: Option<nat>

    constructor ()
      ensures created.None?
    {
      created := None;
    }

    method Get(info: nat) returns (context: nat)
      modifies this
      ensures created == Some(if old(created).Some? then old(created).value else info)
      ensures context == created.value
    {
      if created.None? {
        created := Some(info);
      }
      context := created.value;
    }
  }

  /* ----- GVW_INSTANCE ----- */

  /** The decimal text of `std::to_string`. */
  function NatToString(n: nat): (s: string)
    ensures |s| > 0 && forall i :: 0 <= i < |s| ==> '0' <= s[i] <= '9'
    decreases n
  {
    var digit := ['0' + (n % 10) as char];
    if n < 10 then digit else NatToString(n / 10) + digit
  }

  function IntToString(n: int): string {
    if n < 0 then "-" + NatToString(-n) else NatToString(n)
  }

  /** The error text for `n` other owners; plural exactly when `n > 1`. */
  function StillUsingMessage(n: int): string {
    "Failed to destroy GVW. " + IntToString(n)
      + (if n > 1 then " objects are still using GVW." else " object is still using GVW.")
  }

  /** `use_count()` of the global: 0 when null, else the global itself and every other copy. */
  function UseCount(instance: Option<nat>, holders: nat): nat {
    if instance.None? then 0 else 1 + holders
  }

  /** `DestroyInstance` as written: reset when `unique()`, otherwise report
      `use_count() - 1` other owners, which is -1 for a null global. */
  function DestroyOutcomeAsWritten(useCount: nat): (r: Result<(), string>)
    ensures r.Success? <==> useCount == 1
    ensures r.Failure? ==> r.error == StillUsingMessage(useCount - 1)
  {
    if useCount == 1 then Success(()) else Failure(StillUsingMessage(useCount - 1))
  }

  /** As written, destroying when there is no instance (before `CreateInstance`,
      or a second time) reports "-1 object is still using GVW.". */
  lemma DestroyWithoutInstanceReportsMinusOne()
    ensures DestroyOutcomeAsWritten(UseCount(None, 0)) == Failure(StillUsingMessage(-1))
    ensures IntToString(-1) == "-1"
  {
    assert NatToString(1) == "1";
  }

  /** `DestroyInstance` as evidently intended: with no instance there is nothing
      to destroy; otherwise only a uniquely held instance is destroyed. */
  function DestroyOutcome(useCount: nat): (r: Result<(), string>)
    ensures r.Success? <==> useCount <= 1
    ensures r.Failure? ==> r.error == StillUsingMessage(useCount - 1) && useCount - 1 >= 1
  {
    if useCount <= 1 then Success(()) else Failure(StillUsingMessage(useCount - 1))
  }

  /** The corrected outcome agrees with the one as written exactly when an
      instance exists: the correction changes nothing but the null case. */
  lemma DestroyOutcomeAgreesWithInstance(useCount: nat)
    ensures DestroyOutcome(useCount) == DestroyOutcomeAsWritten(useCount) <==> useCount >= 1
  {
  }

  /** The message names the number of other owners, in the singular only for one. */
  lemma {:induction false} StillUsingMessageCounts(n: nat)
    ensures var m := StillUsingMessage(n);
            var prefix := "Failed to destroy GVW. ";
            && m[..|prefix|] == prefix
            && m[|prefix|..|prefix| + |NatToString(n)|] == NatToString(n)
            && (n > 1 <==> m[|prefix| + |NatToString(n)|..] == " objects are still using GVW.")
  {
    var prefix := "Failed to destroy GVW. ";
    var digits := NatToString(n);
    var tail := if n > 1 then " objects are still using GVW." else " object is still using GVW.";
    var m := StillUsingMessage(n);
    assert m == prefix + digits + tail;
    assert m[..|prefix|] == prefix;
    assert m[|prefix|..|prefix| + |digits|] == digits;
    assert m[|prefix| + |digits|..] == tail;
    if n <= 1 {
      assert |tail| != |" objects are still using GVW."|;
    }
  }

  /** `GVW_INSTANCE`, with the number of `instance_ptr` copies held elsewhere
      (by the caller, by devices and monitors). */
  class InstanceGlobal {
    var instance: Option<nat>
    var holders: nat

    ghost predicate Valid() reads this {
      instance.None? ==> holders == 0
    }

    constructor ()
      ensures Valid() && instance.None? && holders == 0
    {
      instance, holders := None, 0;
    }

    /** `CreateInstance`: construct only when null; the caller gets a copy. */
    method CreateInstance(info: nat) returns (p: nat)
      requires Valid()
      modifies this
      ensures Valid()
      ensures instance == Some(if old(instance).Some? then old(instance).value else info)
      ensures holders == old(holders) + 1 && p == instance.value
    {
      if instance.None? {
        instance := Some(info);
      }
      holders := holders + 1;
      p := instance.value;
    }

    /** `GetInstance`: a copy of the global, null when there is none. */
    method GetInstance() returns (p: Option<nat>)
      requires Valid()
      modifies this
      ensures Valid() && instance == old(instance) && p == instance
      ensures holders == old(holders) + (if instance.Some? then 1 else 0)
    {
      p := instance;
      if instance.Some? {
        holders := holders + 1;
      }
    }

    /** A copy held elsewhere goes out of scope. */
    method Release()
      requires Valid() && holders > 0
      modifies this
      ensures Valid() && instance == old(instance) && holders == old(holders) - 1
    {
      holders := holders - 1;
    }

    /** `DestroyInstance`, as evidently intended. */
    method DestroyInstance() returns (r: Result<(), string>)
      requires Valid()
      modifies this
      ensures Valid()
      ensures r == DestroyOutcome(UseCount(old(instance), old(holders)))
      ensures r.Success? ==> instance.None? && holders == 0
      ensures r.Failure? ==> instance == old(instance) && holders == old(holders)
    {
      if instance.None? || holders == 0 {
        instance := None;
        return Success(());
      }
      r := Failure(StillUsingMessage(holders));
    }
  }
}
