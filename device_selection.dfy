/** The built-in physical-device selector: it scores every device by its type,
    ranks the device's present modes, finds a graphics and a presentation queue
    family, and keeps the best-scoring device that has both. The Vulkan queries
    it makes (device properties, queue family properties, surface support) are
    inputs here: every device comes with the answers already attached. */
module DeviceSelection {
  import opened Wrappers

  datatype DeviceType = Other | IntegratedGpu | DiscreteGpu | VirtualGpu | Cpu

  datatype PresentMode =
    | Immediate | Mailbox | Fifo | FifoRelaxed
    | SharedDemandRefresh | SharedContinuousRefresh

  /** A value-initialised vk::PresentModeKHR holds enumerator 0, which is Immediate. */
  const DefaultPresentMode: PresentMode := Immediate

  datatype SurfaceFormat = SurfaceFormat(format: int, colorSpace: int)

  /** A value-initialised vk::SurfaceFormatKHR: undefined format, colour space 0. */
  const DefaultSurfaceFormat: SurfaceFormat := SurfaceFormat(0, 0)

  /** What the selector reads of vk::QueueFamilyProperties. */
  datatype QueueFamilyProperties = QueueFamilyProperties(graphics: bool, queueCount: nat)

  const DefaultQueueFamilyProperties: QueueFamilyProperties := QueueFamilyProperties(false, 0)

  /** One queue-create request: family index, number of queues, and the family's properties. */
  datatype QueueFamilyInfo =
    QueueFamilyInfo(familyIndex: nat, queueCount: nat, properties: QueueFamilyProperties)

  /** A value-initialised queue_family_info: family 0, no queues. */
  const DefaultQueueFamilyInfo: QueueFamilyInfo := QueueFamilyInfo(0, 0, DefaultQueueFamilyProperties)

  /** One selector parameter: a physical device with the answers of its queries.
      `surfaceSupport[i]` is what getSurfaceSupportKHR answers for family i and
      the window surface; a missing entry reads as "not supported". */
  datatype PhysicalDeviceInfo = PhysicalDeviceInfo(
    handle: nat,
    deviceType: DeviceType,
    queueFamilies: seq<QueueFamilyProperties>,
    surfaceSupport: seq<bool>,
    surfaceFormats: Option<seq<SurfaceFormat>>,
    presentModes: Option<seq<PresentMode>>)

  /** One selector result; `device == None` is the null physical-device handle. */
  datatype Selection = Selection(
    device: Option<nat>,
    surfaceFormat: SurfaceFormat,
    presentMode: PresentMode,
    queueFamilyInfos: seq<QueueFamilyInfo>)

  /** What the selector returns when no device qualifies. */
  const DefaultSelection: Selection :=
    Selection(None, DefaultSurfaceFormat, DefaultPresentMode, [DefaultQueueFamilyInfo])

  /** `surfaceFormats.value().at(0)` on an empty list throws std::out_of_range. */
  datatype SelectionError = FormatIndexOutOfRange(handle: nat)

  /* ----- Scores ----- */

  /** Assumed performance of a device type: discrete 4, integrated 3, virtual 2, other 1, CPU 0. */
  function DeviceTypeScore(t: DeviceType): (score: int)
    ensures 0 <= score <= 4
    ensures score == 4 <==> t == DiscreteGpu
    ensures score == 0 <==> t == Cpu
  {
    match t
    case DiscreteGpu => 4
    case IntegratedGpu => 3
    case VirtualGpu => 2
    case Other => 1
    case Cpu => 0
  }

  /** Preference of a present mode: Mailbox 5, FIFO 4, FIFO relaxed 3, Immediate 2,
      shared continuous 1, shared on demand 0. */
  function PresentModeScore(m: PresentMode): (score: int)
    ensures 0 <= score <= 5
  {
    match m
    case Mailbox => 5
    case Fifo => 4
    case FifoRelaxed => 3
    case Immediate => 2
    case SharedContinuousRefresh => 1
    case SharedDemandRefresh => 0
  }

  /* ----- Present mode ranking ----- */

  /** The best-ranked mode of `modes`, the default mode for an empty list. */
  function BestPresentMode(modes: seq<PresentMode>): (m: PresentMode)
    ensures modes == [] ==> m == DefaultPresentMode
    ensures modes != [] ==> m in modes
    ensures forall x :: x in modes ==> PresentModeScore(x) <= PresentModeScore(m)
  {
    if |modes| == 0 then DefaultPresentMode
    else if |modes| == 1 then modes[0]
    else
      var best := BestPresentMode(modes[..|modes| - 1]);
      var last := modes[|modes| - 1];
      assert modes == modes[..|modes| - 1] + [last];
      if PresentModeScore(last) > PresentModeScore(best) then last else best
  }

  /** The inner loop of the selector over one device's present modes: a mode
      replaces the current choice only when it scores strictly higher. */
  method RankPresentModes(modes: seq<PresentMode>) returns (selected: PresentMode)
    ensures selected == BestPresentMode(modes)
  {
    selected := DefaultPresentMode;
    var selectedScore := -1;
    for i := 0 to |modes|
      invariant selected == BestPresentMode(modes[..i])
      invariant i == 0 ==> selectedScore == -1
      invariant i > 0 ==> selectedScore == PresentModeScore(selected)
    {
      var score := PresentModeScore(modes[i]);
      if score > selectedScore {
        selectedScore := score;
        selected := modes[i];
      }
      assert modes[..i + 1][..i] == modes[..i];
    }
    assert modes[..|modes|] == modes;
  }

  /* ----- Queue family search ----- */

  /** `k` is the least index at which `flags` holds. */
  predicate IsFirst(flags: seq<bool>, k: nat) {
    k < |flags| && flags[k] && forall j :: 0 <= j < k ==> !flags[j]
  }

  /** The least index at which `flags` holds, if any. */
  function FirstIndex(flags: seq<bool>): (r: Option<nat>)
    ensures r.Some? ==> IsFirst(flags, r.value)
    ensures r.None? ==> forall j :: 0 <= j < |flags| ==> !flags[j]
  {
    if |flags| == 0 then None
    else if flags[0] then Some(0)
    else
      match FirstIndex(flags[1..])
      case None => None
      case Some(k) => Some(k + 1)
  }

  /** The first index is unique: any index with the IsFirst property is the one FirstIndex finds. */
  lemma FirstIndexCharacterised(flags: seq<bool>, k: nat)
    ensures IsFirst(flags, k) <==> FirstIndex(flags) == Some(k)
  {
  }

  /** Which queue families of `d` have the graphics flag. */
  function GraphicsFlags(d: PhysicalDeviceInfo): (flags: seq<bool>)
    ensures |flags| == |d.queueFamilies|
  {
    seq(|d.queueFamilies|, i requires 0 <= i < |d.queueFamilies| => d.queueFamilies[i].graphics)
  }

  /** Which queue families of `d` can present to the window surface; none can when there is no surface. */
  function PresentFlags(d: PhysicalDeviceInfo, hasSurface: bool): (flags: seq<bool>)
    ensures |flags| == |d.queueFamilies|
  {
    seq(|d.queueFamilies|, i requires 0 <= i < |d.queueFamilies| =>
      hasSurface && i < |d.surfaceSupport| && d.surfaceSupport[i])
  }

  /** The queue-family loop of the selector. Presentation support is only asked
      for when a surface is given; the loop stops early once both indices are
      known and equal, which does not change either of them. */
  method FindQueueFamilies(d: PhysicalDeviceInfo, hasSurface: bool)
    returns (graphics: Option<nat>, present: Option<nat>)
    ensures graphics == FirstIndex(GraphicsFlags(d))
    ensures present == FirstIndex(PresentFlags(d, hasSurface))
  {
    ghost var gf, pf := GraphicsFlags(d), PresentFlags(d, hasSurface);
    graphics, present := None, None;
    var i := 0;
    while i < |d.queueFamilies|
      invariant 0 <= i <= |d.queueFamilies|
      invariant graphics.Some? ==> IsFirst(gf, graphics.value)
      invariant graphics.None? ==> forall j :: 0 <= j < i ==> !gf[j]
      invariant present.Some? ==> IsFirst(pf, present.value)
      invariant present.None? ==> forall j :: 0 <= j < i ==> !pf[j]
    {
      if graphics.None? && d.queueFamilies[i].graphics {
        graphics := Some(i);
      }
      if hasSurface && present.None? {
        if i < |d.surfaceSupport| && d.surfaceSupport[i] {
          present := Some(i);
        }
      }
      if graphics.Some? && present.Some? && graphics.value == present.value {
        break;
      }
      i := i + 1;
    }
    if graphics.Some? {
      FirstIndexCharacterised(gf, graphics.value);
    }
    if present.Some? {
      FirstIndexCharacterised(pf, present.value);
    }
  }

  /* ----- Device selection ----- */

  /** A device qualifies when it has a graphics family and a presentation family. */
  predicate Compatible(d: PhysicalDeviceInfo, hasSurface: bool) {
    FirstIndex(GraphicsFlags(d)).Some? && FirstIndex(PresentFlags(d, hasSurface)).Some?
  }

  /** The queue-create requests for graphics family `g` and presentation family `p`. */
  function QueueInfos(d: PhysicalDeviceInfo, g: nat, p: nat): seq<QueueFamilyInfo>
    requires g < |d.queueFamilies| && p < |d.queueFamilies|
  {
    if g == p then [QueueFamilyInfo(g, 1, d.queueFamilies[g])]
    else [QueueFamilyInfo(g, 1, d.queueFamilies[g]), QueueFamilyInfo(p, 1, d.queueFamilies[p])]
  }

  /** The first surface format of `d`, or the default one when it lists none. */
  function FirstSurfaceFormat(d: PhysicalDeviceInfo): SurfaceFormat {
    if d.surfaceFormats.Some? && |d.surfaceFormats.value| > 0 then d.surfaceFormats.value[0]
    else DefaultSurfaceFormat
  }

  /** The best-ranked present mode of `d`, or the default one when it lists none. */
  function DevicePresentMode(d: PhysicalDeviceInfo): PresentMode {
    if d.presentModes.Some? then BestPresentMode(d.presentModes.value) else DefaultPresentMode
  }

  /** What the selector records when it chooses the compatible device `d`. */
  function Candidate(d: PhysicalDeviceInfo, hasSurface: bool): Selection
    requires Compatible(d, hasSurface)
  {
    var g := FirstIndex(GraphicsFlags(d)).value;
    var p := FirstIndex(PresentFlags(d, hasSurface)).value;
    Selection(Some(d.handle), FirstSurfaceFormat(d), DevicePresentMode(d), QueueInfos(d, g, p))
  }

  function Score(d: PhysicalDeviceInfo): int {
    DeviceTypeScore(d.deviceType)
  }

  /** Among the first `n` devices, `k` is compatible, no compatible device scores
      higher, and every compatible device before it scores strictly lower. */
  predicate IsBestUpTo(infos: seq<PhysicalDeviceInfo>, hasSurface: bool, k: int, n: nat)
    requires n <= |infos|
  {
    0 <= k < n && Compatible(infos[k], hasSurface) &&
    (forall j :: 0 <= j < n && Compatible(infos[j], hasSurface) ==> Score(infos[j]) <= Score(infos[k])) &&
    (forall j :: 0 <= j < k && Compatible(infos[j], hasSurface) ==> Score(infos[j]) < Score(infos[k]))
  }

  /** `k` is the earliest compatible device with the highest score. */
  predicate IsBestIndex(infos: seq<PhysicalDeviceInfo>, hasSurface: bool, k: int) {
    IsBestUpTo(infos, hasSurface, k, |infos|)
  }

  predicate AnyCompatible(infos: seq<PhysicalDeviceInfo>, hasSurface: bool) {
    exists i :: 0 <= i < |infos| && Compatible(infos[i], hasSurface)
  }

  /** Some device's surface-format list is present but empty. */
  predicate HasEmptyFormatList(infos: seq<PhysicalDeviceInfo>) {
    exists i :: 0 <= i < |infos| && infos[i].surfaceFormats == Some([])
  }

  /** Device `i` is the first whose surface-format list is present but empty. */
  predicate IsFirstEmptyFormatList(infos: seq<PhysicalDeviceInfo>, i: int) {
    0 <= i < |infos| && infos[i].surfaceFormats == Some([]) &&
    forall j :: 0 <= j < i ==> infos[j].surfaceFormats != Some([])
  }

  /** `vector::resize`: truncate, or pad with `fill`. */
  function Resize<T>(s: seq<T>, n: nat, fill: T): (r: seq<T>)
    ensures |r| == n
    ensures forall i :: 0 <= i < n && i < |s| ==> r[i] == s[i]
  {
    if n <= |s| then s[..n] else s + seq(n - |s|, _ => fill)
  }

  /** The queue-request list after the selector's in-place update: resized to
      one entry when the families coincide, entry 0 set to the graphics family,
      then resized to two with entry 1 set to the presentation family when they
      differ. */
  method UpdateQueueInfos(current: seq<QueueFamilyInfo>, d: PhysicalDeviceInfo, g: nat, p: nat)
    returns (updated: seq<QueueFamilyInfo>)
    requires 1 <= |current| <= 2
    requires g < |d.queueFamilies| && p < |d.queueFamilies|
    ensures updated == QueueInfos(d, g, p)
  {
    updated := current;
    if g == p {
      updated := Resize(updated, 1, DefaultQueueFamilyInfo);
    }
    updated := updated[0 := QueueFamilyInfo(g, 1, d.queueFamilies[g])];
    if g != p {
      updated := Resize(updated, 2, DefaultQueueFamilyInfo);
      updated := updated[1 := QueueFamilyInfo(p, 1, d.queueFamilies[p])];
    }
  }

  /** One step of the selector keeps "`k` is the best of the devices seen so far". */
  lemma BestUpToStep(infos: seq<PhysicalDeviceInfo>, hasSurface: bool, k: int, n: nat)
    requires n < |infos|
    requires IsBestUpTo(infos, hasSurface, k, n)
    ensures !Compatible(infos[n], hasSurface) || Score(infos[n]) <= Score(infos[k]) ==>
      IsBestUpTo(infos, hasSurface, k, n + 1)
    ensures Compatible(infos[n], hasSurface) && Score(infos[n]) > Score(infos[k]) ==>
      IsBestUpTo(infos, hasSurface, n, n + 1)
  {
  }

  /** What the selector's loop reads of one device before comparing scores. */
  datatype Inspection = Inspection(
    score: int,
    format: SurfaceFormat,
    mode: PresentMode,
    graphics: Option<nat>,
    present: Option<nat>)

  /** The first part of the selector's loop body for one device: the type
      score, the first surface format (which throws when the list is present
      but empty), the best-ranked present mode, and the queue-family search,
      skipped when the device has no queue families. */
  method InspectDevice(d: PhysicalDeviceInfo, hasSurface: bool) returns (r: Result<Inspection, SelectionError>)
    ensures r.Failure? <==> d.surfaceFormats == Some([])
    ensures r.Failure? ==> r.error == FormatIndexOutOfRange(d.handle)
    ensures r.Success? ==>
      && r.value.score == Score(d)
      && r.value.format == FirstSurfaceFormat(d)
      && r.value.mode == DevicePresentMode(d)
      && r.value.graphics == FirstIndex(GraphicsFlags(d))
      && r.value.present == FirstIndex(PresentFlags(d, hasSurface))
  {
    var score := DeviceTypeScore(d.deviceType);
    var format := DefaultSurfaceFormat;
    if d.surfaceFormats.Some? {
      if |d.surfaceFormats.value| == 0 {
        return Failure(FormatIndexOutOfRange(d.handle));
      }
      format := d.surfaceFormats.value[0];
    }
    var mode := DefaultPresentMode;
    if d.presentModes.Some? {
      mode := RankPresentModes(d.presentModes.value);
    }
    var g, p := None, None;
    if |d.queueFamilies| > 0 {
      g, p := FindQueueFamilies(d, hasSurface);
    }
    r := Success(Inspection(score, format, mode, g, p));
  }

  /** What the selector's loop keeps after the first `i` devices: none of
      them threw; with no choice yet (`chosen == -1`) none was compatible and
      the default entry is held; otherwise `chosen` is the best so far and its
      score and candidate are held. */
  ghost predicate SelectorInvariant(infos: seq<PhysicalDeviceInfo>, hasSurface: bool, i: nat,
                                    chosen: int, selected: Selection, selectedScore: int)
    requires i <= |infos|
  {
    && (forall j :: 0 <= j < i ==> infos[j].surfaceFormats != Some([]))
    && (chosen == -1 <==> selectedScore == -1)
    && (chosen == -1 ==> selected == DefaultSelection && forall j :: 0 <= j < i ==> !Compatible(infos[j], hasSurface))
    && (chosen != -1 ==>
          && IsBestUpTo(infos, hasSurface, chosen, i)
          && selectedScore == Score(infos[chosen])
          && selected == Candidate(infos[chosen], hasSurface))
  }

  /** A device that is not compatible, or does not beat the current choice, changes nothing. */
  lemma SelectorKeeps(infos: seq<PhysicalDeviceInfo>, hasSurface: bool, i: nat,
                      chosen: int, selected: Selection, selectedScore: int)
    requires i < |infos|
    requires SelectorInvariant(infos, hasSurface, i, chosen, selected, selectedScore)
    requires infos[i].surfaceFormats != Some([])
    requires !Compatible(infos[i], hasSurface) || Score(infos[i]) <= selectedScore
    ensures SelectorInvariant(infos, hasSurface, i + 1, chosen, selected, selectedScore)
  {
    if chosen != -1 {
      BestUpToStep(infos, hasSurface, chosen, i);
    }
  }

  /** A compatible device that beats the current choice becomes the choice. */
  lemma SelectorReplaces(infos: seq<PhysicalDeviceInfo>, hasSurface: bool, i: nat,
                         chosen: int, selected: Selection, selectedScore: int)
    requires i < |infos|
    requires SelectorInvariant(infos, hasSurface, i, chosen, selected, selectedScore)
    requires infos[i].surfaceFormats != Some([])
    requires Compatible(infos[i], hasSurface) && Score(infos[i]) > selectedScore
    ensures SelectorInvariant(infos, hasSurface, i + 1, i, Candidate(infos[i], hasSurface), Score(infos[i]))
  {
    if chosen != -1 {
      BestUpToStep(infos, hasSurface, chosen, i);
    }
  }

  /** What the invariant gives once every device has been seen. */
  lemma SelectorResult(infos: seq<PhysicalDeviceInfo>, hasSurface: bool,
                       chosen: int, selected: Selection, selectedScore: int)
    requires SelectorInvariant(infos, hasSurface, |infos|, chosen, selected, selectedScore)
    ensures !HasEmptyFormatList(infos)
    ensures !AnyCompatible(infos, hasSurface) ==> selected == DefaultSelection
    ensures AnyCompatible(infos, hasSurface) ==>
      exists k :: IsBestIndex(infos, hasSurface, k) && selected == Candidate(infos[k], hasSurface)
  {
    if chosen != -1 {
      assert IsBestIndex(infos, hasSurface, chosen);
    }
  }

  /** The selector. Every device is inspected before it is checked for queue
      families; a compatible device replaces the current choice only when it
      scores strictly higher, starting from -1. The result always holds exactly
      one entry: the chosen device, or the default entry. */
  method MinimumForPresentation(infos: seq<PhysicalDeviceInfo>, hasSurface: bool)
    returns (r: Result<seq<Selection>, SelectionError>)
    ensures r.Failure? <==> HasEmptyFormatList(infos)
    ensures r.Failure? ==>
      exists i :: IsFirstEmptyFormatList(infos, i) && r.error == FormatIndexOutOfRange(infos[i].handle)
    ensures r.Success? ==> |r.value| == 1
    ensures r.Success? && !AnyCompatible(infos, hasSurface) ==> r.value[0] == DefaultSelection
    ensures r.Success? && AnyCompatible(infos, hasSurface) ==>
      exists k :: IsBestIndex(infos, hasSurface, k) && r.value[0] == Candidate(infos[k], hasSurface)
  {
    var selected := DefaultSelection;
    var selectedScore := -1;
    ghost var chosen := -1;
    for i := 0 to |infos|
      invariant SelectorInvariant(infos, hasSurface, i, chosen, selected, selectedScore)
    {
      var d := infos[i];
      var inspected := InspectDevice(d, hasSurface);
      if inspected.Failure? {
        assert IsFirstEmptyFormatList(infos, i);
        return Failure(inspected.error);
      }
      var x := inspected.value;
      if x.graphics.None? || x.present.None? || x.score <= selectedScore {
        SelectorKeeps(infos, hasSurface, i, chosen, selected, selectedScore);
        continue;
      }
      var queueInfos := UpdateQueueInfos(selected.queueFamilyInfos, d, x.graphics.value, x.present.value);
      SelectorReplaces(infos, hasSurface, i, chosen, selected, selectedScore);
      selected := Selection(Some(d.handle), x.format, x.mode, queueInfos);
      selectedScore := x.score;
      chosen := i;
    }
    SelectorResult(infos, hasSurface, chosen, selected, selectedScore);
    r := Success([selected]);
  }

  /* ----- Properties of the selection ----- */

  /** The best device is unique, so the selector's choice is determined by its input. */
  lemma BestIndexUnique(infos: seq<PhysicalDeviceInfo>, hasSurface: bool, k1: int, k2: int)
    requires IsBestIndex(infos, hasSurface, k1) && IsBestIndex(infos, hasSurface, k2)
    ensures k1 == k2
  {
  }

  /** Some device among the first `n` is compatible. */
  predicate CompatibleBefore(infos: seq<PhysicalDeviceInfo>, hasSurface: bool, n: nat)
    requires n <= |infos|
  {
    exists i :: 0 <= i < n && Compatible(infos[i], hasSurface)
  }

  /** Whenever some device is compatible, a best one exists. */
  lemma {:induction false} BestIndexExists(infos: seq<PhysicalDeviceInfo>, hasSurface: bool, n: nat)
    requires n <= |infos|
    requires CompatibleBefore(infos, hasSurface, n)
    ensures exists k :: IsBestUpTo(infos, hasSurface, k, n)
  {
    if CompatibleBefore(infos, hasSurface, n - 1) {
      BestIndexExists(infos, hasSurface, n - 1);
      var k :| IsBestUpTo(infos, hasSurface, k, n - 1);
      BestUpToStep(infos, hasSurface, k, n - 1);
    } else {
      FirstCompatibleIsBest(infos, hasSurface, n - 1);
    }
  }

  /** The first compatible device is the best of the devices up to it. */
  lemma FirstCompatibleIsBest(infos: seq<PhysicalDeviceInfo>, hasSurface: bool, i: nat)
    requires i < |infos| && Compatible(infos[i], hasSurface)
    requires forall j :: 0 <= j < i ==> !Compatible(infos[j], hasSurface)
    ensures IsBestUpTo(infos, hasSurface, i, i + 1)
  {
  }

  /** Without a window surface no family can present, so no device is compatible
      and the selector returns its default entry. */
  lemma NoSurfaceNoCompatibleDevice(infos: seq<PhysicalDeviceInfo>)
    ensures !AnyCompatible(infos, false)
  {
    forall i | 0 <= i < |infos|
      ensures !Compatible(infos[i], false)
    {
      var pf := PresentFlags(infos[i], false);
      assert forall j :: 0 <= j < |pf| ==> !pf[j];
    }
  }

  /** The chosen device's queue requests: one entry when the graphics and
      presentation families coincide, otherwise two, graphics first; every entry
      asks for one queue and carries its family's properties; the first entry
      names a graphics family and the last entry a family that can present. */
  lemma CandidateQueueInfos(d: PhysicalDeviceInfo, hasSurface: bool)
    requires Compatible(d, hasSurface)
    ensures var qs := Candidate(d, hasSurface).queueFamilyInfos;
      var g := FirstIndex(GraphicsFlags(d)).value;
      var p := FirstIndex(PresentFlags(d, hasSurface)).value;
      && |qs| == (if g == p then 1 else 2)
      && qs[0].familyIndex == g && qs[|qs| - 1].familyIndex == p
      && d.queueFamilies[qs[0].familyIndex].graphics
      && hasSurface && qs[|qs| - 1].familyIndex < |d.surfaceSupport| && d.surfaceSupport[qs[|qs| - 1].familyIndex]
      && forall e :: e in qs ==>
           (e.queueCount == 1 && e.familyIndex < |d.queueFamilies| && e.properties == d.queueFamilies[e.familyIndex])
  {
    var g := FirstIndex(GraphicsFlags(d)).value;
    var p := FirstIndex(PresentFlags(d, hasSurface)).value;
    assert GraphicsFlags(d)[g];
    assert PresentFlags(d, hasSurface)[p];
  }

  /** The chosen present mode is one the device lists and is ranked at least as
      high as every mode it lists; with no list it is the default mode. */
  lemma CandidatePresentMode(d: PhysicalDeviceInfo, hasSurface: bool)
    requires Compatible(d, hasSurface)
    ensures var m := Candidate(d, hasSurface).presentMode;
      && (d.presentModes.None? || d.presentModes.value == [] ==> m == DefaultPresentMode)
      && (d.presentModes.Some? && d.presentModes.value != [] ==>
            m in d.presentModes.value &&
            forall x :: x in d.presentModes.value ==> PresentModeScore(x) <= PresentModeScore(m))
  {
  }

  /** A device that offers Mailbox gets Mailbox, whatever else it lists. */
  lemma MailboxPreferred(d: PhysicalDeviceInfo, hasSurface: bool)
    requires Compatible(d, hasSurface)
    requires d.presentModes.Some? && Mailbox in d.presentModes.value
    ensures Candidate(d, hasSurface).presentMode == Mailbox
  {
    var m := Candidate(d, hasSurface).presentMode;
    assert PresentModeScore(Mailbox) <= PresentModeScore(m);
  }

  /** The device-type ranking decides the choice: when some compatible device
      is a discrete GPU the chosen one is a discrete GPU, and it is the first
      compatible discrete GPU; a CPU is chosen only when every compatible
      device is a CPU. */
  lemma RankedChoice(infos: seq<PhysicalDeviceInfo>, hasSurface: bool, k: int, j: nat)
    requires IsBestIndex(infos, hasSurface, k)
    requires j < |infos| && Compatible(infos[j], hasSurface)
    ensures infos[j].deviceType == DiscreteGpu ==> infos[k].deviceType == DiscreteGpu && k <= j
    ensures infos[k].deviceType == Cpu ==> infos[j].deviceType == Cpu
    ensures infos[j].deviceType == IntegratedGpu ==> infos[k].deviceType in {DiscreteGpu, IntegratedGpu}
  {
    assert Score(infos[j]) <= Score(infos[k]);
  }
}
