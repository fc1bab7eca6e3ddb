/** A logical device and the parameters it derives when it creates buffers and
    swapchains: the memory type a buffer is bound to, the swapchain's extent,
    viewport, scissor and sharing mode, and one image view and one framebuffer
    per swapchain image. Vulkan handles are opaque numbers; what Vulkan answers
    (memory requirements, memory types, surface capabilities, swapchain images)
    is passed in. */
module DeviceOps {
  import opened Wrappers
  import DS = DeviceSelection

  /** VK_MAX_MEMORY_TYPES: the memory-type array of a physical device has this many slots. */
  const MaxMemoryTypes: nat := 32

  /** C++ `int` and `uint32_t`. */
  type i32 = x: int | -0x8000_0000 <= x < 0x8000_0000
  type u32 = x: int | 0 <= x < 0x1_0000_0000

  /* ----- Memory type choice ----- */

  /** Bit `i` of the requirement mask `typeBits` is set. */
  predicate AllowsType(typeBits: bv32, i: nat)
    requires i < 32
  {
    typeBits & ((1 as bv32) << i) != 0
  }

  /** The property flags of a memory type include every requested flag. */
  predicate Covers(propertyFlags: bv32, requested: bv32) {
    propertyFlags & requested == requested
  }

  /** Memory type `i` can back the buffer. */
  predicate ViableType(typeBits: bv32, typeFlags: seq<bv32>, requested: bv32, i: nat)
    requires |typeFlags| <= MaxMemoryTypes
  {
    i < |typeFlags| && AllowsType(typeBits, i) && Covers(typeFlags[i], requested)
  }

  /** The memory-type loop of CreateBuffer: every viable type overwrites the
      choice, so the result is the LAST viable index, or none. `typeFlags` holds
      the property flags of the device's `memoryTypeCount` memory types. */
  method ChooseMemoryType(typeBits: bv32, typeFlags: seq<bv32>, requested: bv32)
    returns (index: Option<nat>)
    requires |typeFlags| <= MaxMemoryTypes
    ensures index.Some? ==> ViableType(typeBits, typeFlags, requested, index.value)
    ensures index.Some? ==> forall j :: index.value < j < |typeFlags| ==> !ViableType(typeBits, typeFlags, requested, j)
    ensures index.None? <==> forall j :: 0 <= j < |typeFlags| ==> !ViableType(typeBits, typeFlags, requested, j)
  {
    index := None;
    for i := 0 to |typeFlags|
      invariant index.Some? ==> index.value < i && ViableType(typeBits, typeFlags, requested, index.value)
      invariant index.Some? ==> forall j :: index.value < j < i ==> !ViableType(typeBits, typeFlags, requested, j)
      invariant index.None? ==> forall j :: 0 <= j < i ==> !ViableType(typeBits, typeFlags, requested, j)
    {
      if ViableType(typeBits, typeFlags, requested, i) {
        index := Some(i);
      }
    }
  }

  datatype BufferInfo = BufferInfo(sizeInBytes: nat, usage: bv32, memoryProperties: bv32)

  /** What Vulkan reports a new buffer needs: allocation size and allowed memory types. */
  datatype MemoryRequirements = MemoryRequirements(size: nat, memoryTypeBits: bv32)

  /** A buffer bound to an allocation of `allocationSize` bytes from memory type `memoryTypeIndex`. */
  datatype Buffer = Buffer(size: nat, usage: bv32, allocationSize: nat, memoryTypeIndex: nat)

  datatype BufferError = NoViableMemoryType

  /* ----- Swapchain parameters ----- */

  datatype Extent = Extent(width: u32, height: u32)

  /** `static_cast<uint32_t>` of an int: two's-complement wrap-around modulo 2^32. */
  function ToU32(x: i32): (r: u32)
    ensures 0 <= x ==> r == x
    ensures x < 0 ==> r == 0x1_0000_0000 + x
  {
    x % 0x1_0000_0000
  }

  /** `std::clamp(v, lo, hi)`: lo when v is below it, hi when v is above it, else v. */
  function Clamp(v: u32, lo: u32, hi: u32): (r: u32)
    ensures lo <= hi ==> lo <= r <= hi
    ensures lo <= v <= hi ==> r == v
    ensures lo <= hi ==> (r == v || (v < lo && r == lo) || (hi < v && r == hi))
  {
    if v < lo then lo else if hi < v then hi else v
  }

  datatype SurfaceCapabilities = SurfaceCapabilities(minImageCount: nat, minImageExtent: Extent, maxImageExtent: Extent)

  /** The framebuffer size clamped, per dimension, into the surface's extent range. */
  function SwapchainExtent(width: i32, height: i32, caps: SurfaceCapabilities): (e: Extent)
    ensures caps.minImageExtent.width <= caps.maxImageExtent.width ==>
      caps.minImageExtent.width <= e.width <= caps.maxImageExtent.width
    ensures caps.minImageExtent.height <= caps.maxImageExtent.height ==>
      caps.minImageExtent.height <= e.height <= caps.maxImageExtent.height
    ensures caps.minImageExtent.width <= width <= caps.maxImageExtent.width ==> e.width == width
    ensures caps.minImageExtent.height <= height <= caps.maxImageExtent.height ==> e.height == height
  {
    Extent(Clamp(ToU32(width), caps.minImageExtent.width, caps.maxImageExtent.width),
           Clamp(ToU32(height), caps.minImageExtent.height, caps.maxImageExtent.height))
  }

  /** A negative framebuffer width wraps to a huge unsigned value and so clamps to the maximum width. */
  lemma NegativeWidthClampsToMaximum(width: i32, height: i32, caps: SurfaceCapabilities)
    requires width < 0
    requires caps.minImageExtent.width <= caps.maxImageExtent.width < 0x8000_0000
    ensures SwapchainExtent(width, height, caps).width == caps.maxImageExtent.width
  {
  }

  datatype SharingMode = Exclusive | Concurrent

  /** Exclusive with no index list when graphics and presentation share a family,
      otherwise concurrent between the two families, graphics first. */
  function Sharing(graphicsQueueIndex: nat, presentQueueIndex: nat): (r: (SharingMode, seq<nat>))
    ensures r.0 == Exclusive <==> graphicsQueueIndex == presentQueueIndex
    ensures r.0 == Exclusive ==> r.1 == []
    ensures r.0 == Concurrent ==> r.1 == [graphicsQueueIndex, presentQueueIndex]
  {
    if graphicsQueueIndex == presentQueueIndex then (Exclusive, [])
    else (Concurrent, [graphicsQueueIndex, presentQueueIndex])
  }

  /** The sharing parameters meet Vulkan's rule for concurrent sharing (at least
      two queue families, all distinct), and every listed family is one of the two. */
  lemma SharingIsValid(g: nat, p: nat)
    ensures var (mode, indices) := Sharing(g, p);
      && (mode == Concurrent ==> |indices| >= 2 && forall i, j :: 0 <= i < j < |indices| ==> indices[i] != indices[j])
      && (forall x :: x in indices ==> x == g || x == p)
      && (mode == Exclusive ==> indices == [])
  {
  }

  datatype SwapchainInfo = SwapchainInfo(
    surface: nat,
    framebufferWidth: i32,
    framebufferHeight: i32,
    graphicsQueueIndex: nat,
    presentQueueIndex: nat,
    renderPass: nat)

  /** The fields of vk::SwapchainCreateInfoKHR the wrapper derives. */
  datatype SwapchainCreateInfo = SwapchainCreateInfo(
    surface: nat,
    minImageCount: nat,
    surfaceFormat: DS.SurfaceFormat,
    imageExtent: Extent,
    sharingMode: SharingMode,
    queueFamilyIndices: seq<nat>,
    presentMode: DS.PresentMode)

  /** Viewport at the origin covering the extent (depth range 0 to 1). */
  datatype Viewport = Viewport(x: int, y: int, width: u32, height: u32)

  datatype Rect = Rect(offsetX: int, offsetY: int, extent: Extent)

  datatype ImageView = ImageView(image: nat, format: int)

  datatype Framebuffer = Framebuffer(renderPass: nat, attachment: ImageView, width: u32, height: u32)

  /** A value-initialised framebuffer handle, the filler of `resize`. */
  const NullFramebuffer: Framebuffer := Framebuffer(0, ImageView(0, 0), 0, 0)

  /** One 2D colour view per swapchain image, in image order. */
  method CreateImageViews(images: seq<nat>, format: int) returns (views: seq<ImageView>)
    ensures |views| == |images|
    ensures forall i :: 0 <= i < |images| ==> views[i] == ImageView(images[i], format)
  {
    views := [];
    for i := 0 to |images|
      invariant |views| == i
      invariant forall k :: 0 <= k < i ==> views[k] == ImageView(images[k], format)
    {
      views := views + [ImageView(images[i], format)];
    }
  }

  /** One framebuffer per image view, each with that view as its only attachment. */
  method CreateFramebuffers(views: seq<ImageView>, renderPass: nat, extent: Extent)
    returns (framebuffers: seq<Framebuffer>)
    ensures |framebuffers| == |views|
    ensures forall i :: 0 <= i < |views| ==>
      framebuffers[i] == Framebuffer(renderPass, views[i], extent.width, extent.height)
  {
    framebuffers := seq(|views|, _ => NullFramebuffer);
    for i := 0 to |framebuffers|
      invariant |framebuffers| == |views|
      invariant forall k :: 0 <= k < i ==>
        framebuffers[k] == Framebuffer(renderPass, views[k], extent.width, extent.height)
    {
      framebuffers := framebuffers[i := Framebuffer(renderPass, views[i], extent.width, extent.height)];
    }
  }

  /** A swapchain object; CreateSwapchain either fills a fresh one or refills the old one. */
  class Swapchain {
    var createInfo: SwapchainCreateInfo
    var viewport: Viewport
    var scissor: Rect
    var images: seq<nat>
    var imageViews: seq<ImageView>
    var framebuffers: seq<Framebuffer>

    constructor ()
      ensures images == [] && imageViews == [] && framebuffers == []
    {
      createInfo := SwapchainCreateInfo(0, 0, DS.DefaultSurfaceFormat, Extent(0, 0), Exclusive, [], DS.DefaultPresentMode);
      viewport := Viewport(0, 0, 0, 0);
      scissor := Rect(0, 0, Extent(0, 0));
      images, imageViews, framebuffers := [], [], [];
    }
  }

  /** The projection of a queue-family info onto the create info Vulkan receives. */
  datatype QueueCreateInfo = QueueCreateInfo(familyIndex: nat, queueCount: nat)

  /** The constructor's std::transform: one create info per queue-family info, in order. */
  method ProjectQueueCreateInfos(infos: seq<DS.QueueFamilyInfo>) returns (createInfos: seq<QueueCreateInfo>)
    ensures |createInfos| == |infos|
    ensures forall i :: 0 <= i < |infos| ==>
      createInfos[i] == QueueCreateInfo(infos[i].familyIndex, infos[i].queueCount)
  {
    createInfos := [];
    for i := 0 to |infos|
      invariant |createInfos| == i
      invariant forall k :: 0 <= k < i ==>
        createInfos[k] == QueueCreateInfo(infos[k].familyIndex, infos[k].queueCount)
    {
      createInfos := createInfos + [QueueCreateInfo(infos[i].familyIndex, infos[i].queueCount)];
    }
  }

  /** A logical device made from one selector result. */
  class LogicalDevice {
    const physicalDevice: Option<nat>
    const surfaceFormat: DS.SurfaceFormat
    const presentMode: DS.PresentMode
    const queueFamilyInfos: seq<DS.QueueFamilyInfo>
    /** The queue create infos handed to vkCreateDevice. */
    const queueCreateInfos: seq<QueueCreateInfo>
    /** The selector result the device was made from. */
    ghost const origin: DS.Selection

    /** The device holds exactly what the selector result it was made from says. */
    ghost predicate Valid() {
      physicalDevice == origin.device && surfaceFormat == origin.surfaceFormat &&
      presentMode == origin.presentMode && queueFamilyInfos == origin.queueFamilyInfos
    }

    constructor (info: DS.Selection)
      ensures Valid() && origin == info
      ensures physicalDevice == info.device && surfaceFormat == info.surfaceFormat
      ensures presentMode == info.presentMode && queueFamilyInfos == info.queueFamilyInfos
      ensures |queueCreateInfos| == |info.queueFamilyInfos|
      ensures forall i :: 0 <= i < |info.queueFamilyInfos| ==>
        queueCreateInfos[i] == QueueCreateInfo(info.queueFamilyInfos[i].familyIndex, info.queueFamilyInfos[i].queueCount)
    {
      origin := info;
      physicalDevice := info.device;
      surfaceFormat := info.surfaceFormat;
      presentMode := info.presentMode;
      queueFamilyInfos := info.queueFamilyInfos;
      var createInfos := ProjectQueueCreateInfos(info.queueFamilyInfos);
      queueCreateInfos := createInfos;
    }

    function GetPhysicalDevice(): (r: Option<nat>)
      requires Valid()
      ensures r == origin.device
    {
      physicalDevice
    }

    function GetSurfaceFormat(): (r: DS.SurfaceFormat)
      requires Valid()
      ensures r == origin.surfaceFormat
    {
      surfaceFormat
    }

    function GetPresentMode(): (r: DS.PresentMode)
      requires Valid()
      ensures r == origin.presentMode
    {
      presentMode
    }

    function GetQueueFamilyInfos(): (r: seq<DS.QueueFamilyInfo>)
      requires Valid()
      ensures r == origin.queueFamilyInfos
    {
      queueFamilyInfos
    }

    /** CreateBuffer: the buffer records the requested size and is bound to the
        last memory type that the requirements allow and whose flags include the
        requested ones; with no such type the error callback aborts. */
    method CreateBuffer(info: BufferInfo, requirements: MemoryRequirements, typeFlags: seq<bv32>)
      returns (r: Result<Buffer, BufferError>)
      requires |typeFlags| <= MaxMemoryTypes
      ensures r.Failure? <==>
        forall j :: 0 <= j < |typeFlags| ==> !ViableType(requirements.memoryTypeBits, typeFlags, info.memoryProperties, j)
      ensures r.Success? ==>
        && r.value.size == info.sizeInBytes && r.value.usage == info.usage
        && r.value.allocationSize == requirements.size
        && ViableType(requirements.memoryTypeBits, typeFlags, info.memoryProperties, r.value.memoryTypeIndex)
        && (forall j :: r.value.memoryTypeIndex < j < |typeFlags| ==>
              !ViableType(requirements.memoryTypeBits, typeFlags, info.memoryProperties, j))
    {
      var index := ChooseMemoryType(requirements.memoryTypeBits, typeFlags, info.memoryProperties);
      if index.None? {
        return Failure(NoViableMemoryType);
      }
      r := Success(Buffer(info.sizeInBytes, info.usage, requirements.size, index.value));
    }

    /** CreateSwapchain: clamps the framebuffer size into the surface's extent
        range, reuses `oldSwapchain` when one is given, sets viewport and scissor
        to the extent at the origin, picks the sharing mode from the two queue
        indices, and replaces the image views and framebuffers with one per
        swapchain image. `images` is what vkGetSwapchainImagesKHR returns. */
    method CreateSwapchain(info: SwapchainInfo, caps: SurfaceCapabilities, images: seq<nat>, oldSwapchain: Swapchain?)
      returns (s: Swapchain)
      modifies oldSwapchain
      ensures oldSwapchain != null ==> s == oldSwapchain
      ensures oldSwapchain == null ==> fresh(s)
      ensures var extent := SwapchainExtent(info.framebufferWidth, info.framebufferHeight, caps);
        var (mode, indices) := Sharing(info.graphicsQueueIndex, info.presentQueueIndex);
        && s.createInfo == SwapchainCreateInfo(info.surface, caps.minImageCount, surfaceFormat, extent, mode, indices, presentMode)
        && s.viewport == Viewport(0, 0, extent.width, extent.height)
        && s.scissor == Rect(0, 0, extent)
        && s.images == images
        && |s.imageViews| == |images| == |s.framebuffers|
        && (forall i :: 0 <= i < |images| ==> s.imageViews[i] == ImageView(images[i], surfaceFormat.format))
        && (forall i :: 0 <= i < |images| ==>
              s.framebuffers[i] == Framebuffer(info.renderPass, s.imageViews[i], extent.width, extent.height))
    {
      var extent := SwapchainExtent(info.framebufferWidth, info.framebufferHeight, caps);
      if oldSwapchain == null {
        s := new Swapchain();
      } else {
        s := oldSwapchain;
      }
      s.viewport := Viewport(0, 0, extent.width, extent.height);
      s.scissor := Rect(0, 0, extent);
      var (mode, indices) := Sharing(info.graphicsQueueIndex, info.presentQueueIndex);
      s.createInfo := SwapchainCreateInfo(info.surface, caps.minImageCount, surfaceFormat, extent, mode, indices, presentMode);
      s.images := images;
      var views := CreateImageViews(images, surfaceFormat.format);
      s.imageViews := views;
      var framebuffers := CreateFramebuffers(views, info.renderPass, extent);
      s.framebuffers := framebuffers;
    }
  }
}
