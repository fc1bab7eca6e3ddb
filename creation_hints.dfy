/** The creation hints of the src/ revision: boolean hints that GLFW receives
    as GLFW_TRUE / GLFW_FALSE, integer hints that are forced into GLFW's range
    (non-negative, or GLFW_DONT_CARE), the fixed list of window hints built from
    a `window_creation_hints_info`, and the two shader stages of a pipeline. */
module CreationHints {
  import opened Wrappers

  const GlfwTrue: int := 1
  const GlfwFalse: int := 0
  const DontCare: int := -1

  const OutOfRangeWarning: string := "Creation hint out of range. Reset to GLFW_DONT_CARE."

  /** The messages passed to the warning callback. */
  class WarningLog {
    var messages: seq<string>

    constructor ()
      ensures messages == []
    {
      messages := [];
    }

    method Warn(message: string)
      modifies this
      ensures messages == old(messages) + [message]
    {
      messages := messages + [message];
    }
  }

  /* ----- creation_hint_bool ----- */

  /** A boolean as GLFW takes it. */
  function BoolToInt(b: bool): (i: int)
    ensures i == GlfwTrue <==> b
    ensures i == GlfwFalse <==> !b
  {
    if b then GlfwTrue else GlfwFalse
  }

  class HintBool {
    var boolean: bool

    constructor (b: bool)
      ensures Get() == b
    {
      boolean := b;
    }

    /** `operator=`. */
    method Assign(b: bool)
      modifies this
      ensures Get() == b
    {
      boolean := b;
    }

    function ToInt(): (i: int)
      reads this
      ensures i == BoolToInt(Get())
    {
      if boolean then GlfwTrue else GlfwFalse
    }

    function Get(): bool
      reads this
    {
      boolean
    }
  }

  /* ----- creation_hint_int ----- */

  /** The value `AssertWithinBounds` stores: any negative value other than
      GLFW_DONT_CARE becomes GLFW_DONT_CARE, everything else is kept. */
  function WithinBounds(i: int): (r: int)
    ensures r == i <==> i >= 0 || i == DontCare
    ensures r != i ==> r == DontCare
    ensures r >= DontCare
  {
    if i < 0 && i != DontCare then DontCare else i
  }

  class HintInt {
    var integer: int

    /** The constructor goes through the bounds check. */
    constructor (i: int, log: WarningLog)
      modifies log
      ensures Get() == WithinBounds(i)
      ensures log.messages == old(log.messages) + (if WithinBounds(i) != i then [OutOfRangeWarning] else [])
    {
      integer := DontCare;
      new;
      AssertWithinBounds(i, log);
    }

    /** `operator=`, through the same check. */
    method Assign(i: int, log: WarningLog)
      modifies this, log
      ensures Get() == WithinBounds(i)
      ensures log.messages == old(log.messages) + (if WithinBounds(i) != i then [OutOfRangeWarning] else [])
    {
      AssertWithinBounds(i, log);
    }

    method AssertWithinBounds(i: int, log: WarningLog)
      modifies this, log
      ensures Get() == WithinBounds(i)
      ensures log.messages == old(log.messages) + (if WithinBounds(i) != i then [OutOfRangeWarning] else [])
    {
      if i < 0 && i != DontCare {
        integer := DontCare;
        log.Warn(OutOfRangeWarning);
      } else {
        integer := i;
      }
    }

    function Get(): int
      reads this
    {
      integer
    }
  }

  /* ----- window_creation_hints ----- */

  datatype HintKey =
    | Resizable | Visible | Decorated | Focused | AutoIconify | Floating | Maximized
    | CenterCursor | TransparentFramebuffer | FocusOnShow | ScaleToMonitor
    | RedBits | GreenBits | BlueBits | AlphaBits | DepthBits | StencilBits | AuxBuffers
    | Stereo | Samples | SrgbCapable | DoubleBuffer | RefreshRate
    | ClientApi | ContextCreationApi | ContextVersionMajor | ContextVersionMinor
    | OpenglForwardCompat | OpenglDebugContext | OpenglProfile
    | ContextRobustness | ContextReleaseBehavior | ContextNoError
    | CocoaRetinaFramebuffer | CocoaGraphicsSwitching
    | CocoaFrameName | X11ClassName | X11InstanceName

  /** The integer hints, in the order the constructor lists them. */
  const IntHintKeys: seq<HintKey> :=
    [Resizable, Visible, Decorated, Focused, AutoIconify, Floating, Maximized,
     CenterCursor, TransparentFramebuffer, FocusOnShow, ScaleToMonitor,
     RedBits, GreenBits, BlueBits, AlphaBits, DepthBits, StencilBits, AuxBuffers,
     Stereo, Samples, SrgbCapable, DoubleBuffer, RefreshRate,
     ClientApi, ContextCreationApi, ContextVersionMajor, ContextVersionMinor,
     OpenglForwardCompat, OpenglDebugContext, OpenglProfile,
     ContextRobustness, ContextReleaseBehavior, ContextNoError,
     CocoaRetinaFramebuffer, CocoaGraphicsSwitching]

  /** The string hints, in order. */
  const StringHintKeys: seq<HintKey> := [CocoaFrameName, X11ClassName, X11InstanceName]

  /** How a `window_creation_hints_info` field is turned into an int: a
      `creation_hint_bool` by `ToInt`, a `creation_hint_int` by `Get`, an enum by its value. */
  datatype Kind = BoolKind | IntKind | EnumKind

  function KindOf(k: HintKey): Kind {
    match k
    case RedBits | GreenBits | BlueBits | AlphaBits | DepthBits | StencilBits | AuxBuffers
      | Samples | RefreshRate | ContextVersionMajor | ContextVersionMinor => IntKind
    case ClientApi | ContextCreationApi | OpenglProfile | ContextRobustness | ContextReleaseBehavior => EnumKind
    case _ => BoolKind
  }

  /** One field of a `window_creation_hints_info`; an int field already holds a bounded value. */
  datatype Setting = BoolSetting(b: bool) | IntSetting(i: int) | EnumSetting(value: int)

  function SettingKind(s: Setting): Kind {
    match s
    case BoolSetting(_) => BoolKind
    case IntSetting(_) => IntKind
    case EnumSetting(_) => EnumKind
  }

  datatype WindowCreationHintsInfo = WindowCreationHintsInfo(
    settings: map<HintKey, Setting>,
    cocoaFrameName: string,
    x11ClassName: string,
    x11InstanceName: string)

  /** Every integer hint has a field of its kind, and int fields are bounded. */
  predicate WellTyped(info: WindowCreationHintsInfo) {
    forall k :: k in IntHintKeys ==>
      && k in info.settings
      && SettingKind(info.settings[k]) == KindOf(k)
      && (info.settings[k].IntSetting? ==> info.settings[k].i == WithinBounds(info.settings[k].i))
  }

  function Encode(s: Setting): int {
    match s
    case BoolSetting(b) => BoolToInt(b)
    case IntSetting(i) => i
    case EnumSetting(v) => v
  }

  /** The two hint lists passed on to `glfw_hints`. */
  datatype GlfwHints = GlfwHints(ints: seq<(HintKey, int)>, strings: seq<(HintKey, string)>)

  /** The `window_creation_hints` constructor. */
  function WindowCreationHints(info: WindowCreationHintsInfo): (h: GlfwHints)
    requires WellTyped(info)
    ensures |h.ints| == |IntHintKeys| == 35
    ensures forall i :: 0 <= i < |IntHintKeys| ==>
              h.ints[i].0 == IntHintKeys[i] && h.ints[i].1 == Encode(info.settings[IntHintKeys[i]])
    ensures |h.strings| == 3
    ensures forall i :: 0 <= i < 3 ==> h.strings[i].0 == StringHintKeys[i]
    ensures h.strings[0].1 == info.cocoaFrameName && h.strings[1].1 == info.x11ClassName
            && h.strings[2].1 == info.x11InstanceName
  {
    GlfwHints(
      seq(|IntHintKeys|, i requires 0 <= i < |IntHintKeys| => (IntHintKeys[i], Encode(info.settings[IntHintKeys[i]]))),
      [(CocoaFrameName, info.cocoaFrameName), (X11ClassName, info.x11ClassName),
       (X11InstanceName, info.x11InstanceName)])
  }

  /** Every boolean hint reaches GLFW as GLFW_TRUE or GLFW_FALSE and every int
      hint is non-negative or GLFW_DONT_CARE. */
  lemma HintValuesInRange(info: WindowCreationHintsInfo)
    requires WellTyped(info)
    ensures var h := WindowCreationHints(info);
            forall i :: 0 <= i < |h.ints| ==>
              && (KindOf(h.ints[i].0) == BoolKind ==> h.ints[i].1 == GlfwTrue || h.ints[i].1 == GlfwFalse)
              && (KindOf(h.ints[i].0) == IntKind ==> h.ints[i].1 >= 0 || h.ints[i].1 == DontCare)
  {
    var h := WindowCreationHints(info);
    forall i | 0 <= i < |h.ints|
      ensures KindOf(h.ints[i].0) == BoolKind ==> h.ints[i].1 == GlfwTrue || h.ints[i].1 == GlfwFalse
      ensures KindOf(h.ints[i].0) == IntKind ==> h.ints[i].1 >= 0 || h.ints[i].1 == DontCare
    {
      var k := IntHintKeys[i];
      assert k in IntHintKeys;
      assert h.ints[i].0 == k;
    }
  }

  /* ----- pipeline_shaders ----- */

  datatype ShaderStage = VertexStage | FragmentStage

  /** A compiled shader: its stage, module handle and entry point. */
  datatype Shader = Shader(stage: ShaderStage, shaderModule: nat, entryPoint: string)

  datatype PipelineShaders = PipelineShaders(vertex: Option<Shader>, fragment: Option<Shader>)

  datatype StageCreateInfo = StageCreateInfo(stage: ShaderStage, shaderModule: nat, name: string)

  function StageOf(s: Shader): StageCreateInfo {
    StageCreateInfo(s.stage, s.shaderModule, s.entryPoint)
  }

  /** `StageCreationInfos`: the vertex stage, then the fragment stage. Both
      shaders are dereferenced, so both must be set. */
  function StageCreationInfos(p: PipelineShaders): (r: seq<StageCreateInfo>)
    requires p.vertex.Some? && p.fragment.Some?
    ensures |r| == 2
    ensures r[0] == StageOf(p.vertex.value) && r[1] == StageOf(p.fragment.value)
  {
    [StageOf(p.vertex.value), StageOf(p.fragment.value)]
  }
}
