/** `VulkanGraphicsDevice`: the objects `new` creates, in the order it
    creates them, and the `Drop` implementation that destroys them. */
module VulkanDevice {
  import opened VkTypes
  import opened DeviceSelection
  import opened QueueFamilies
  import opened SwapchainSetup
  import opened VertexLayout
  import opened VkDriver
  import opened FrameResources
  import opened DeviceObjects

  /** The fields of `VulkanGraphicsDevice`; the extension loaders are
      function tables, not Vulkan objects, and are not kept. The struct is
      built once and never reassigned, so it is a value here; the objects
      it names live in the driver. */
  datatype GraphicsDevice = GraphicsDevice(
    instance: Handle,
    debugMessenger: Handle,
    surface: Handle,
    physicalDevice: Handle,
    device: Handle,
    graphicsQueue: Queue,
    graphicsFamilyIndex: nat,
    swapchain: Handle,
    swapchainImageViews: seq<Handle>,
    imageAvailableSemaphores: seq<Handle>,
    renderFinishedSemaphores: seq<Handle>,
    inFlightFences: seq<Handle>,
    renderPass: Handle,
    framebuffers: seq<Handle>,
    commandPool: Handle,
    commandBuffers: seq<Handle>,
    pipelineLayout: Handle,
    graphicsPipeline: Handle)

  /** Every live object of the driver is one the device owns: a field of
      the struct, a member of one of its lists, or a presentable image of
      its swapchain. */
  ghost predicate Accounted(dev: GraphicsDevice, live: map<Handle, VkObject>, h: Handle)
    requires h in live
  {
    match KindOf(live[h])
    case InstanceKind => h == dev.instance
    case DebugMessengerKind => h == dev.debugMessenger
    case SurfaceKind => h == dev.surface
    case DeviceKind => h == dev.device
    case SwapchainKind => h == dev.swapchain
    case SwapchainImageKind => live[h] == SwapchainImage(dev.swapchain)
    case ImageViewKind => h in dev.swapchainImageViews
    case RenderPassKind => h == dev.renderPass
    case ShaderModuleKind => false
    case PipelineLayoutKind => h == dev.pipelineLayout
    case PipelineKind => h == dev.graphicsPipeline
    case FramebufferKind => h in dev.framebuffers
    case CommandPoolKind => h == dev.commandPool
    case CommandBufferKind => live[h] == CommandBuffer(dev.commandPool, true)
    case SemaphoreKind => h in dev.imageAvailableSemaphores || h in dev.renderFinishedSemaphores
    case FenceKind => h in dev.inFlightFences
  }

  /** Every handle in `hs` names a live object of kind `k`. */
  ghost predicate AllLive(live: map<Handle, VkObject>, hs: seq<Handle>, k: ObjectKind) {
    forall h :: h in hs ==> IsLive(live, h, k)
  }

  /** A constructed device: each field names a live object of its kind, no
      list repeats a handle, the per-frame lists have `MAX_FRAMES_IN_FLIGHT`
      entries, there is one framebuffer per view, and the driver holds
      nothing the device does not own. */
  ghost predicate Valid(dev: GraphicsDevice, driver: Driver)
    reads driver
  {
    driver.Valid() && Owns(dev, driver.live)
  }

  /** The part of `Valid` about the object table alone. */
  ghost predicate Owns(dev: GraphicsDevice, live: map<Handle, VkObject>) {
    && FieldsLive(dev, live)
    && ListsShaped(dev)
    && (forall h :: h in live ==> Accounted(dev, live, h))
  }

  /** Each field names a live object of its kind. */
  ghost predicate FieldsLive(dev: GraphicsDevice, live: map<Handle, VkObject>) {
    InstanceFieldsLive(dev, live) && PresentationFieldsLive(dev, live) && FrameFieldsLive(dev, live)
  }

  ghost predicate InstanceFieldsLive(dev: GraphicsDevice, live: map<Handle, VkObject>) {
    && IsLive(live, dev.instance, InstanceKind)
    && IsLive(live, dev.debugMessenger, DebugMessengerKind)
    && IsLive(live, dev.surface, SurfaceKind)
    && IsLive(live, dev.device, DeviceKind)
  }

  ghost predicate PresentationFieldsLive(dev: GraphicsDevice, live: map<Handle, VkObject>) {
    && IsLive(live, dev.swapchain, SwapchainKind)
    && IsLive(live, dev.renderPass, RenderPassKind)
    && IsLive(live, dev.pipelineLayout, PipelineLayoutKind)
    && IsLive(live, dev.graphicsPipeline, PipelineKind)
    && AllLive(live, dev.swapchainImageViews, ImageViewKind)
    && AllLive(live, dev.framebuffers, FramebufferKind)
  }

  ghost predicate FrameFieldsLive(dev: GraphicsDevice, live: map<Handle, VkObject>) {
    && IsLive(live, dev.commandPool, CommandPoolKind)
    && AllLive(live, dev.commandBuffers, CommandBufferKind)
    && AllLive(live, dev.imageAvailableSemaphores, SemaphoreKind)
    && AllLive(live, dev.renderFinishedSemaphores, SemaphoreKind)
    && AllLive(live, dev.inFlightFences, FenceKind)
  }

  /** No list repeats a handle, the two semaphore lists share none, the
      per-frame lists have `MAX_FRAMES_IN_FLIGHT` entries and there is one
      framebuffer per view. */
  ghost predicate ListsShaped(dev: GraphicsDevice) {
    && Distinct(dev.swapchainImageViews) && Distinct(dev.framebuffers)
    && Distinct(dev.imageAvailableSemaphores) && Distinct(dev.renderFinishedSemaphores)
    && Distinct(dev.inFlightFences)
    && Elems(dev.imageAvailableSemaphores) !! Elems(dev.renderFinishedSemaphores)
    && |dev.imageAvailableSemaphores| == MAX_FRAMES_IN_FLIGHT
    && |dev.renderFinishedSemaphores| == MAX_FRAMES_IN_FLIGHT
    && |dev.inFlightFences| == MAX_FRAMES_IN_FLIGHT
    && |dev.commandBuffers| == MAX_FRAMES_IN_FLIGHT
    && |dev.framebuffers| == |dev.swapchainImageViews|
  }

  /** `h` names exactly the object `o`. */
  ghost predicate HasObject(live: map<Handle, VkObject>, h: Handle, o: VkObject) {
    h in live && live[h] == o
  }

  /** The objects of the instance level and the logical device, as `new`
      creates them on the selected physical device and graphics family. */
  ghost predicate InstanceConfigured(dev: GraphicsDevice, live: map<Handle, VkObject>) {
    && HasObject(live, dev.instance, Instance)
    && HasObject(live, dev.debugMessenger, DebugMessenger(dev.instance))
    && HasObject(live, dev.surface, Surface(dev.instance))
    && HasObject(live, dev.device,
                 Device(dev.instance, dev.physicalDevice, dev.graphicsFamilyIndex, 1, DEVICE_EXTENSIONS))
    && dev.graphicsQueue == Queue(dev.device, dev.graphicsFamilyIndex, 0)
  }

  /** The swapchain from the negotiated create-info, one view in its format
      per swapchain image (no image viewed twice), the render pass in that
      format, the pipeline over the `Vertex` layout, and one framebuffer of
      the swapchain's extent per view. */
  ghost predicate PresentationConfigured(dev: GraphicsDevice, live: map<Handle, VkObject>, info: SwapchainCreateInfo) {
    && HasObject(live, dev.swapchain, Swapchain(dev.device, info))
    && (forall i :: 0 <= i < |dev.swapchainImageViews| ==>
          && dev.swapchainImageViews[i] in live
          && live[dev.swapchainImageViews[i]].ImageView?
          && live[dev.swapchainImageViews[i]].device == dev.device
          && live[dev.swapchainImageViews[i]].format == info.imageFormat
          && HasObject(live, live[dev.swapchainImageViews[i]].image, SwapchainImage(dev.swapchain)))
    && (forall i, j :: 0 <= i < j < |dev.swapchainImageViews| ==>
          dev.swapchainImageViews[i] in live && dev.swapchainImageViews[j] in live &&
          live[dev.swapchainImageViews[i]].image != live[dev.swapchainImageViews[j]].image)
    && HasObject(live, dev.renderPass, RenderPass(dev.device, info.imageFormat))
    && HasObject(live, dev.pipelineLayout, PipelineLayout(dev.device))
    && HasObject(live, dev.graphicsPipeline,
                 Pipeline(dev.device, dev.pipelineLayout, dev.renderPass, GetBindingDescription(), GetAttributeDescriptions()))
    && |dev.framebuffers| == |dev.swapchainImageViews|
    && (forall i :: 0 <= i < |dev.framebuffers| ==>
          HasObject(live, dev.framebuffers[i],
                    Framebuffer(dev.device, dev.renderPass, dev.swapchainImageViews[i],
                                info.imageExtent.width, info.imageExtent.height, 1)))
  }

  /** A resettable command pool on the graphics family with its primary
      command buffers, and the per-frame semaphores and signalled fences. */
  ghost predicate FrameConfigured(dev: GraphicsDevice, live: map<Handle, VkObject>) {
    && HasObject(live, dev.commandPool, CommandPool(dev.device, dev.graphicsFamilyIndex, true))
    && (forall h :: h in dev.commandBuffers ==> HasObject(live, h, CommandBuffer(dev.commandPool, true)))
    && (forall h :: h in dev.imageAvailableSemaphores ==> HasObject(live, h, Semaphore(dev.device)))
    && (forall h :: h in dev.renderFinishedSemaphores ==> HasObject(live, h, Semaphore(dev.device)))
    && (forall h :: h in dev.inFlightFences ==> HasObject(live, h, Fence(dev.device, true)))
  }

  // ---------------------------------------------------------------------
  // Construction

  /** What the swapchain-dependent part of `new` adds to `base`, stated on
      the table it leaves. */
  ghost predicate PresentationBuilt(base: map<Handle, VkObject>, live: map<Handle, VkObject>,
                                    device: Handle, info: SwapchainCreateInfo, swapchain: Handle, images: seq<Handle>,
                                    views: seq<Handle>, renderPass: Handle, layout: Handle, pipeline: Handle,
                                    framebuffers: seq<Handle>)
  {
    && Extends(base, live, ({swapchain} + Elems(images) + Elems(views)) + ({renderPass, layout, pipeline} + Elems(framebuffers)))
    && Distinct(images) && Distinct(views) && Distinct(framebuffers)
    && |views| == |images| && |framebuffers| == |views|
    && live[swapchain] == Swapchain(device, info)
    && (forall h :: h in images ==> live[h] == SwapchainImage(swapchain))
    && (forall i :: 0 <= i < |views| ==> live[views[i]] == ImageView(device, images[i], info.imageFormat))
    && live[renderPass] == RenderPass(device, info.imageFormat)
    && live[layout] == PipelineLayout(device)
    && live[pipeline] == Pipeline(device, layout, renderPass, GetBindingDescription(), GetAttributeDescriptions())
    && (forall i :: 0 <= i < |framebuffers| ==>
          live[framebuffers[i]] == Framebuffer(device, renderPass, views[i],
                                               info.imageExtent.width, info.imageExtent.height, 1))
  }

  /** What the per-frame part of `new` adds to `base`. */
  ghost predicate FrameObjectsBuilt(base: map<Handle, VkObject>, live: map<Handle, VkObject>,
                                    device: Handle, family: nat, pool: Handle, buffers: seq<Handle>,
                                    imageAvailable: seq<Handle>, renderFinished: seq<Handle>, inFlight: seq<Handle>)
  {
    && Extends(base, live, {pool} + Elems(buffers) + Elems(imageAvailable) + Elems(renderFinished) + Elems(inFlight))
    && live[pool] == CommandPool(device, family, true)
    && |buffers| == MAX_FRAMES_IN_FLIGHT && Distinct(buffers)
    && (forall h :: h in buffers ==> live[h] == CommandBuffer(pool, true))
    && |imageAvailable| == |renderFinished| == |inFlight| == MAX_FRAMES_IN_FLIGHT
    && Distinct(imageAvailable) && Distinct(renderFinished) && Distinct(inFlight)
    && Elems(imageAvailable) !! Elems(renderFinished)
    && (forall h :: h in imageAvailable ==> live[h] == Semaphore(device))
    && (forall h :: h in renderFinished ==> live[h] == Semaphore(device))
    && (forall h :: h in inFlight ==> live[h] == Fence(device, true))
  }

  /** The swapchain, its images and their views. */
  method BuildSwapchainViews(driver: Driver, device: Handle, surface: Handle, caps: SurfaceCapabilities,
                             formats: seq<SurfaceFormat>, width: u32, height: u32, imageCount: nat)
    returns (swapchain: Handle, ghost images: seq<Handle>, views: seq<Handle>)
    requires driver.Valid() && IsLive(driver.live, device, DeviceKind) && IsLive(driver.live, surface, SurfaceKind)
    requires Negotiable(caps, formats)
    modifies driver
    ensures driver.Valid() && driver.events == old(driver.events)
    ensures |views| == |images| == imageCount && Distinct(images) && Distinct(views)
    ensures swapchain !in Elems(images) && Elems(images) !! Elems(views) && swapchain !in Elems(views)
    ensures Extends(old(driver.live), driver.live, {swapchain} + Elems(images) + Elems(views))
    ensures driver.live[swapchain] == Swapchain(device, SwapchainCreateInfoFor(surface, caps, formats, width, height))
    ensures forall h :: h in images ==> driver.live[h] == SwapchainImage(swapchain)
    ensures forall i :: 0 <= i < |views| ==>
              driver.live[views[i]] ==
                ImageView(device, images[i], SwapchainCreateInfoFor(surface, caps, formats, width, height).imageFormat)
  {
    ghost var live0 := driver.live;
    var info := SwapchainCreateInfoFor(surface, caps, formats, width, height);
    var imageHandles;
    swapchain, imageHandles := CreateSwapchain(driver, device, surface, caps, formats, width, height, imageCount);
    images := imageHandles;
    ghost var live1 := driver.live;
    LiveAfterExtends(live0, live1, {swapchain} + Elems(images), device, DeviceKind);
    views := CreateImageViews(driver, device, imageHandles, info.imageFormat);
    ExtendsTrans(live0, live1, driver.live, {swapchain} + Elems(images), Elems(views));
  }

  /** The render pass, the pipeline and one framebuffer per view. */
  method BuildPipelineObjects(driver: Driver, device: Handle, views: seq<Handle>, format: Format, extent: Extent2D)
    returns (renderPass: Handle, layout: Handle, pipeline: Handle, framebuffers: seq<Handle>)
    requires driver.Valid() && IsLive(driver.live, device, DeviceKind)
    requires forall v :: v in views ==> IsLive(driver.live, v, ImageViewKind)
    modifies driver
    ensures driver.Valid() && ShaderModulesTornDown(old(driver.events), driver.events)
    ensures |framebuffers| == |views| && Distinct(framebuffers)
    ensures renderPass != layout && renderPass != pipeline && layout != pipeline
    ensures renderPass !in Elems(framebuffers) && layout !in Elems(framebuffers) && pipeline !in Elems(framebuffers)
    ensures Extends(old(driver.live), driver.live, {renderPass, layout, pipeline} + Elems(framebuffers))
    ensures driver.live[renderPass] == RenderPass(device, format)
    ensures driver.live[layout] == PipelineLayout(device)
    ensures driver.live[pipeline] == Pipeline(device, layout, renderPass, GetBindingDescription(), GetAttributeDescriptions())
    ensures forall i :: 0 <= i < |framebuffers| ==>
              driver.live[framebuffers[i]] == Framebuffer(device, renderPass, views[i], extent.width, extent.height, 1)
  {
    ghost var live0 := driver.live;
    renderPass := CreateRenderPass(driver, device, format);
    ghost var live1 := driver.live;
    assert Extends(live0, live1, {renderPass});
    ghost var vertexShader, fragmentShader;
    layout, pipeline, vertexShader, fragmentShader := CreateGraphicsPipeline(driver, device, renderPass);
    ghost var live2 := driver.live;
    ExtendsTrans(live0, live1, live2, {renderPass}, {layout, pipeline});
    assert {renderPass} + {layout, pipeline} == {renderPass, layout, pipeline};
    forall v | v in views
      ensures IsLive(live2, v, ImageViewKind)
    {
      LiveAfterExtends(live0, live2, {renderPass, layout, pipeline}, v, ImageViewKind);
    }
    LiveAfterExtends(live0, live2, {renderPass, layout, pipeline}, device, DeviceKind);
    framebuffers := CreateFramebuffers(driver, device, views, renderPass, extent);
    ExtendsTrans(live0, live2, driver.live, {renderPass, layout, pipeline}, Elems(framebuffers));
  }

  /** The command pool on the graphics family, its command buffers and the
      per-frame synchronisation objects. */
  method BuildFrameObjects(driver: Driver, device: Handle, family: nat)
    returns (pool: Handle, buffers: seq<Handle>,
             imageAvailable: seq<Handle>, renderFinished: seq<Handle>, inFlight: seq<Handle>)
    requires driver.Valid() && IsLive(driver.live, device, DeviceKind)
    modifies driver
    ensures driver.Valid() && driver.events == old(driver.events)
    ensures FrameObjectsBuilt(old(driver.live), driver.live, device, family, pool, buffers,
                              imageAvailable, renderFinished, inFlight)
  {
    ghost var live0 := driver.live;
    pool := CreateCommandPool(driver, device, family);
    ghost var live1 := driver.live;
    assert Extends(live0, live1, {pool});
    buffers := CreateCommandBuffers(driver, pool);
    ghost var live2 := driver.live;
    ExtendsTrans(live0, live1, live2, {pool}, Elems(buffers));
    LiveAfterExtends(live0, live2, {pool} + Elems(buffers), device, DeviceKind);
    imageAvailable, renderFinished, inFlight := CreateSyncObjects(driver, device);
    ExtendsTrans(live0, live2, driver.live, {pool} + Elems(buffers),
                 Elems(imageAvailable) + Elems(renderFinished) + Elems(inFlight));
  }

  /** The log gained exactly the destruction of two distinct shader
      modules. */
  predicate ShaderModulesTornDown(before: seq<Event>, after: seq<Event>) {
    && |after| == |before| + 2 && after[..|before|] == before
    && after[|before|].Destroyed? && after[|before|].kind == ShaderModuleKind
    && after[|before| + 1].Destroyed? && after[|before| + 1].kind == ShaderModuleKind
    && after[|before|].handle != after[|before| + 1].handle
  }

  /** `h` is one of the instance-level objects or the logical device. */
  predicate InstanceHandle(dev: GraphicsDevice, h: Handle) {
    h == dev.instance || h == dev.debugMessenger || h == dev.surface || h == dev.device
  }

  /** `h` is the swapchain, one of its images, a view, the render pass,
      the pipeline or its layout, or a framebuffer. */
  ghost predicate PresentationHandle(dev: GraphicsDevice, live: map<Handle, VkObject>, h: Handle) {
    || h == dev.swapchain || h == dev.renderPass || h == dev.pipelineLayout || h == dev.graphicsPipeline
    || h in dev.swapchainImageViews || h in dev.framebuffers
    || (h in live && live[h] == SwapchainImage(dev.swapchain))
  }

  /** `h` is the command pool, a command buffer, a semaphore or a fence. */
  predicate FrameHandle(dev: GraphicsDevice, h: Handle) {
    || h == dev.commandPool || h in dev.commandBuffers
    || h in dev.imageAvailableSemaphores || h in dev.renderFinishedSemaphores || h in dev.inFlightFences
  }

  /** Every live object is a field of the device, in one of its lists, or
      an image of its swapchain. */
  ghost predicate Covered(dev: GraphicsDevice, live: map<Handle, VkObject>) {
    forall h :: h in live ==> InstanceHandle(dev, h) || PresentationHandle(dev, live, h) || FrameHandle(dev, h)
  }

  lemma InstanceAccounted(dev: GraphicsDevice, live: map<Handle, VkObject>, h: Handle)
    requires InstanceConfigured(dev, live) && h in live && InstanceHandle(dev, h)
    ensures Accounted(dev, live, h)
  {
  }

  lemma PresentationAccounted(dev: GraphicsDevice, live: map<Handle, VkObject>, info: SwapchainCreateInfo, h: Handle)
    requires PresentationConfigured(dev, live, info) && h in live && PresentationHandle(dev, live, h)
    ensures Accounted(dev, live, h)
  {
    if h in dev.swapchainImageViews {
      var i :| 0 <= i < |dev.swapchainImageViews| && dev.swapchainImageViews[i] == h;
    } else if h in dev.framebuffers {
      var i :| 0 <= i < |dev.framebuffers| && dev.framebuffers[i] == h;
    }
  }

  lemma FrameAccounted(dev: GraphicsDevice, live: map<Handle, VkObject>, h: Handle)
    requires FrameConfigured(dev, live) && h in live && FrameHandle(dev, h)
    ensures Accounted(dev, live, h)
  {
  }

  /** The configured presentation fields and lists name live objects of
      their kinds. */
  lemma PresentationFieldsLiveFromConfigured(dev: GraphicsDevice, live: map<Handle, VkObject>, info: SwapchainCreateInfo)
    requires PresentationConfigured(dev, live, info)
    ensures PresentationFieldsLive(dev, live)
  {
    forall i | 0 <= i < |dev.swapchainImageViews|
      ensures IsLive(live, dev.swapchainImageViews[i], ImageViewKind)
    {
    }
    AllLiveFromIndexed(live, dev.swapchainImageViews, ImageViewKind);
    forall i | 0 <= i < |dev.framebuffers|
      ensures IsLive(live, dev.framebuffers[i], FramebufferKind)
    {
    }
    AllLiveFromIndexed(live, dev.framebuffers, FramebufferKind);
  }

  lemma AllLiveFromIndexed(live: map<Handle, VkObject>, hs: seq<Handle>, k: ObjectKind)
    requires forall i :: 0 <= i < |hs| ==> IsLive(live, hs[i], k)
    ensures AllLive(live, hs, k)
  {
    forall h | h in hs
      ensures IsLive(live, h, k)
    {
      var i :| 0 <= i < |hs| && hs[i] == h;
    }
  }

  /** A table holding exactly the configured objects is one the device
      owns. */
  lemma OwnsFromConfigured(dev: GraphicsDevice, live: map<Handle, VkObject>, info: SwapchainCreateInfo)
    requires InstanceConfigured(dev, live) && PresentationConfigured(dev, live, info) && FrameConfigured(dev, live)
    requires Covered(dev, live) && ListsShaped(dev)
    ensures Owns(dev, live)
  {
    AccountedFromConfigured(dev, live, info);
    InstanceFieldsLiveFromConfigured(dev, live);
    PresentationFieldsLiveFromConfigured(dev, live, info);
    FrameFieldsLiveFromConfigured(dev, live);
  }

  lemma InstanceFieldsLiveFromConfigured(dev: GraphicsDevice, live: map<Handle, VkObject>)
    requires InstanceConfigured(dev, live)
    ensures InstanceFieldsLive(dev, live)
  {
  }

  lemma FrameFieldsLiveFromConfigured(dev: GraphicsDevice, live: map<Handle, VkObject>)
    requires FrameConfigured(dev, live)
    ensures FrameFieldsLive(dev, live)
  {
  }

  /** Every object of a covered, configured table is accounted for. */
  lemma AccountedFromConfigured(dev: GraphicsDevice, live: map<Handle, VkObject>, info: SwapchainCreateInfo)
    requires InstanceConfigured(dev, live) && PresentationConfigured(dev, live, info) && FrameConfigured(dev, live)
    requires Covered(dev, live)
    ensures forall h :: h in live ==> Accounted(dev, live, h)
  {
    forall h | h in live
      ensures Accounted(dev, live, h)
    {
      if InstanceHandle(dev, h) {
        InstanceAccounted(dev, live, h);
      } else if PresentationHandle(dev, live, h) {
        PresentationAccounted(dev, live, info, h);
      } else {
        FrameAccounted(dev, live, h);
      }
    }
  }

  /** The presentation objects as built satisfy their configuration. */
  lemma PresentationConfiguredFromBuilt(dev: GraphicsDevice, base: map<Handle, VkObject>, live: map<Handle, VkObject>,
                                        info: SwapchainCreateInfo, images: seq<Handle>)
    requires PresentationBuilt(base, live, dev.device, info, dev.swapchain, images, dev.swapchainImageViews,
                               dev.renderPass, dev.pipelineLayout, dev.graphicsPipeline, dev.framebuffers)
    ensures PresentationConfigured(dev, live, info)
  {
    PresentationKeys(base, live, dev.swapchain, images, dev.swapchainImageViews,
                     dev.renderPass, dev.pipelineLayout, dev.graphicsPipeline, dev.framebuffers);
    PresentationConfiguredFromObjects(dev, live, info, images);
  }

  /** The same, from the created objects alone. */
  lemma PresentationConfiguredFromObjects(dev: GraphicsDevice, live: map<Handle, VkObject>,
                                          info: SwapchainCreateInfo, images: seq<Handle>)
    requires Distinct(images) && |dev.swapchainImageViews| == |images|
    requires |dev.framebuffers| == |dev.swapchainImageViews|
    requires HasObject(live, dev.swapchain, Swapchain(dev.device, info))
    requires forall h :: h in images ==> h in live && live[h] == SwapchainImage(dev.swapchain)
    requires forall i :: 0 <= i < |dev.swapchainImageViews| ==>
               && dev.swapchainImageViews[i] in live
               && live[dev.swapchainImageViews[i]] == ImageView(dev.device, images[i], info.imageFormat)
    requires HasObject(live, dev.renderPass, RenderPass(dev.device, info.imageFormat))
    requires HasObject(live, dev.pipelineLayout, PipelineLayout(dev.device))
    requires HasObject(live, dev.graphicsPipeline,
                       Pipeline(dev.device, dev.pipelineLayout, dev.renderPass,
                                GetBindingDescription(), GetAttributeDescriptions()))
    requires forall i :: 0 <= i < |dev.framebuffers| ==>
               && dev.framebuffers[i] in live
               && live[dev.framebuffers[i]] == Framebuffer(dev.device, dev.renderPass, dev.swapchainImageViews[i],
                                                           info.imageExtent.width, info.imageExtent.height, 1)
    ensures PresentationConfigured(dev, live, info)
  {
    ViewsConfigured(live, dev.device, info.imageFormat, dev.swapchain, images, dev.swapchainImageViews);
  }

  /** Every handle the presentation stage created is in the table. */
  lemma PresentationKeys(base: map<Handle, VkObject>, live: map<Handle, VkObject>, swapchain: Handle,
                         images: seq<Handle>, views: seq<Handle>, renderPass: Handle, layout: Handle,
                         pipeline: Handle, framebuffers: seq<Handle>)
    requires live.Keys == base.Keys + (({swapchain} + Elems(images) + Elems(views))
                                       + ({renderPass, layout, pipeline} + Elems(framebuffers)))
    ensures swapchain in live && renderPass in live && layout in live && pipeline in live
    ensures forall h :: h in images ==> h in live
    ensures forall i :: 0 <= i < |views| ==> views[i] in live
    ensures forall i :: 0 <= i < |framebuffers| ==> framebuffers[i] in live
  {
    forall i | 0 <= i < |views|
      ensures views[i] in live
    {
      assert views[i] in Elems(views);
    }
    forall i | 0 <= i < |framebuffers|
      ensures framebuffers[i] in live
    {
      assert framebuffers[i] in Elems(framebuffers);
    }
  }

  /** One view per image, in order, each of the swapchain's images viewed
      once. */
  lemma ViewsConfigured(live: map<Handle, VkObject>, device: Handle, format: Format, swapchain: Handle,
                        images: seq<Handle>, views: seq<Handle>)
    requires Distinct(images) && |views| == |images|
    requires forall h :: h in images ==> h in live && live[h] == SwapchainImage(swapchain)
    requires forall i :: 0 <= i < |views| ==> views[i] in live && live[views[i]] == ImageView(device, images[i], format)
    ensures forall i :: 0 <= i < |views| ==>
              && views[i] in live
              && live[views[i]].ImageView?
              && live[views[i]].device == device
              && live[views[i]].format == format
              && HasObject(live, live[views[i]].image, SwapchainImage(swapchain))
    ensures forall i, j :: 0 <= i < j < |views| ==>
              views[i] in live && views[j] in live && live[views[i]].image != live[views[j]].image
  {
    forall i | 0 <= i < |views|
      ensures HasObject(live, live[views[i]].image, SwapchainImage(swapchain))
    {
      assert images[i] in images;
    }
  }

  /** The instance-level configuration survives the creation of further
      objects. */
  lemma InstanceConfiguredPersists(dev: GraphicsDevice, before: map<Handle, VkObject>, after: map<Handle, VkObject>,
                                   created: set<Handle>)
    requires Extends(before, after, created) && InstanceConfigured(dev, before)
    ensures InstanceConfigured(dev, after)
  {
  }

  /** So does the presentation configuration. */
  lemma PresentationConfiguredPersists(dev: GraphicsDevice, before: map<Handle, VkObject>, after: map<Handle, VkObject>,
                                       created: set<Handle>, info: SwapchainCreateInfo)
    requires Extends(before, after, created) && PresentationConfigured(dev, before, info)
    ensures PresentationConfigured(dev, after, info)
  {
    var views := dev.swapchainImageViews;
    forall i | 0 <= i < |views|
      ensures after[views[i]] == before[views[i]]
      ensures HasObject(after, before[views[i]].image, SwapchainImage(dev.swapchain))
    {
    }
  }

  /** The table `new` builds holds nothing but the device's objects. */
  lemma BuiltCovered(dev: GraphicsDevice, base: map<Handle, VkObject>, mid: map<Handle, VkObject>,
                     live: map<Handle, VkObject>, images: seq<Handle>)
    requires base.Keys == {dev.instance, dev.debugMessenger, dev.surface, dev.device}
    requires mid.Keys == base.Keys + (({dev.swapchain} + Elems(images) + Elems(dev.swapchainImageViews))
                                      + ({dev.renderPass, dev.pipelineLayout, dev.graphicsPipeline}
                                         + Elems(dev.framebuffers)))
    requires forall h :: h in images ==> mid[h] == SwapchainImage(dev.swapchain)
    requires live.Keys == mid.Keys + ({dev.commandPool} + Elems(dev.commandBuffers)
                                      + Elems(dev.imageAvailableSemaphores) + Elems(dev.renderFinishedSemaphores)
                                      + Elems(dev.inFlightFences))
    requires forall h :: h in mid ==> live[h] == mid[h]
    ensures Covered(dev, live)
  {
    forall h | h in live
      ensures InstanceHandle(dev, h) || PresentationHandle(dev, live, h) || FrameHandle(dev, h)
    {
      if h !in mid {
        assert FrameHandle(dev, h);
      } else if h in base {
        assert InstanceHandle(dev, h);
      } else if h in images {
        assert live[h] == mid[h];
      } else {
        assert PresentationHandle(dev, live, h);
      }
    }
  }

  /** Everything `new` creates once the logical device exists: a device the
      driver holds exactly, configured as `new` configures it. */
  method BuildOnDevice(driver: Driver, instance: Handle, messenger: Handle, surface: Handle, physicalDevice: Handle,
                       queue: Queue, caps: SurfaceCapabilities, formats: seq<SurfaceFormat>,
                       width: u32, height: u32, imageCount: nat) returns (dev: GraphicsDevice)
    requires driver.Valid() && Negotiable(caps, formats) && queue.index == 0
    requires instance != messenger && instance != surface && messenger != surface
    requires queue.device != instance && queue.device != messenger && queue.device != surface
    requires driver.live.Keys == {instance, messenger, surface, queue.device}
    requires HasObject(driver.live, instance, Instance) && HasObject(driver.live, messenger, DebugMessenger(instance))
    requires HasObject(driver.live, surface, Surface(instance))
    requires HasObject(driver.live, queue.device, Device(instance, physicalDevice, queue.familyIndex, 1, DEVICE_EXTENSIONS))
    modifies driver
    ensures Valid(dev, driver) && ShaderModulesTornDown(old(driver.events), driver.events)
    ensures dev.instance == instance && dev.debugMessenger == messenger && dev.surface == surface
    ensures dev.physicalDevice == physicalDevice && dev.graphicsQueue == queue
    ensures dev.graphicsFamilyIndex == queue.familyIndex && |dev.swapchainImageViews| == imageCount
    ensures InstanceConfigured(dev, driver.live) && FrameConfigured(dev, driver.live)
    ensures PresentationConfigured(dev, driver.live, SwapchainCreateInfoFor(surface, caps, formats, width, height))
  {
    var device := queue.device;
    var info := SwapchainCreateInfoFor(surface, caps, formats, width, height);
    ghost var base := driver.live;
    var swapchain, views;
    ghost var images;
    swapchain, images, views := BuildSwapchainViews(driver, device, surface, caps, formats, width, height, imageCount);
    ghost var withViews := driver.live;
    LiveAfterExtends(base, withViews, {swapchain} + Elems(images) + Elems(views), device, DeviceKind);
    var renderPass, layout, pipeline, framebuffers :=
      BuildPipelineObjects(driver, device, views, info.imageFormat, info.imageExtent);
    ghost var withPipeline := driver.live;
    PresentationStagesCombine(base, withViews, withPipeline, device, info, swapchain, images, views,
                              renderPass, layout, pipeline, framebuffers);
    LiveAfterExtends(base, withPipeline,
                     ({swapchain} + Elems(images) + Elems(views)) + ({renderPass, layout, pipeline} + Elems(framebuffers)),
                     device, DeviceKind);
    var pool, buffers, imageAvailable, renderFinished, inFlight := BuildFrameObjects(driver, device, queue.familyIndex);
    dev := GraphicsDevice(instance, messenger, surface, physicalDevice, device, queue, queue.familyIndex,
                          swapchain, views, imageAvailable, renderFinished, inFlight, renderPass, framebuffers,
                          pool, buffers, layout, pipeline);
    FinishConstruction(dev, base, withPipeline, driver.live, info, images);
  }

  /** The two presentation stages together. */
  lemma PresentationStagesCombine(base: map<Handle, VkObject>, mid: map<Handle, VkObject>, live: map<Handle, VkObject>,
                                  device: Handle, info: SwapchainCreateInfo, swapchain: Handle, images: seq<Handle>,
                                  views: seq<Handle>, renderPass: Handle, layout: Handle, pipeline: Handle,
                                  framebuffers: seq<Handle>)
    requires Distinct(images) && Distinct(views) && |views| == |images|
    requires Extends(base, mid, {swapchain} + Elems(images) + Elems(views))
    requires mid[swapchain] == Swapchain(device, info)
    requires forall h :: h in images ==> mid[h] == SwapchainImage(swapchain)
    requires forall i :: 0 <= i < |views| ==> mid[views[i]] == ImageView(device, images[i], info.imageFormat)
    requires |framebuffers| == |views| && Distinct(framebuffers)
    requires Extends(mid, live, {renderPass, layout, pipeline} + Elems(framebuffers))
    requires live[renderPass] == RenderPass(device, info.imageFormat)
    requires live[layout] == PipelineLayout(device)
    requires live[pipeline] == Pipeline(device, layout, renderPass, GetBindingDescription(), GetAttributeDescriptions())
    requires forall i :: 0 <= i < |framebuffers| ==>
               live[framebuffers[i]] == Framebuffer(device, renderPass, views[i],
                                                    info.imageExtent.width, info.imageExtent.height, 1)
    ensures PresentationBuilt(base, live, device, info, swapchain, images, views, renderPass, layout, pipeline, framebuffers)
  {
    ExtendsTrans(base, mid, live, {swapchain} + Elems(images) + Elems(views),
                 {renderPass, layout, pipeline} + Elems(framebuffers));
    SwapchainViewsPersist(mid, live, {renderPass, layout, pipeline} + Elems(framebuffers),
                          device, info.imageFormat, swapchain, images, views);
  }

  /** The swapchain's images and views are untouched by later creations. */
  lemma SwapchainViewsPersist(mid: map<Handle, VkObject>, live: map<Handle, VkObject>, created: set<Handle>,
                              device: Handle, format: Format, swapchain: Handle, images: seq<Handle>, views: seq<Handle>)
    requires Extends(mid, live, created) && |views| == |images|
    requires forall h :: h in images ==> h in mid && mid[h] == SwapchainImage(swapchain)
    requires forall i :: 0 <= i < |views| ==> views[i] in mid && mid[views[i]] == ImageView(device, images[i], format)
    ensures forall h :: h in images ==> live[h] == SwapchainImage(swapchain)
    ensures forall i :: 0 <= i < |views| ==> live[views[i]] == ImageView(device, images[i], format)
  {
  }

  /** The last step of `new`: the table it built is the device's, and
      configured. */
  lemma FinishConstruction(dev: GraphicsDevice, base: map<Handle, VkObject>, mid: map<Handle, VkObject>,
                           live: map<Handle, VkObject>, info: SwapchainCreateInfo, images: seq<Handle>)
    requires dev.graphicsQueue == Queue(dev.device, dev.graphicsFamilyIndex, 0)
    requires dev.instance != dev.debugMessenger && dev.instance != dev.surface && dev.debugMessenger != dev.surface
    requires dev.device != dev.instance && dev.device != dev.debugMessenger && dev.device != dev.surface
    requires base.Keys == {dev.instance, dev.debugMessenger, dev.surface, dev.device}
    requires InstanceConfigured(dev, base)
    requires PresentationBuilt(base, mid, dev.device, info, dev.swapchain, images, dev.swapchainImageViews,
                               dev.renderPass, dev.pipelineLayout, dev.graphicsPipeline, dev.framebuffers)
    requires FrameObjectsBuilt(mid, live, dev.device, dev.graphicsFamilyIndex, dev.commandPool, dev.commandBuffers,
                               dev.imageAvailableSemaphores, dev.renderFinishedSemaphores, dev.inFlightFences)
    ensures Owns(dev, live)
    ensures InstanceConfigured(dev, live) && PresentationConfigured(dev, live, info) && FrameConfigured(dev, live)
  {
    ghost var presentation := ({dev.swapchain} + Elems(images) + Elems(dev.swapchainImageViews))
      + ({dev.renderPass, dev.pipelineLayout, dev.graphicsPipeline} + Elems(dev.framebuffers));
    ghost var frame := {dev.commandPool} + Elems(dev.commandBuffers) + Elems(dev.imageAvailableSemaphores)
      + Elems(dev.renderFinishedSemaphores) + Elems(dev.inFlightFences);
    PresentationConfiguredFromBuilt(dev, base, mid, info, images);
    InstanceConfiguredPersists(dev, base, mid, presentation);
    InstanceConfiguredPersists(dev, mid, live, frame);
    PresentationConfiguredPersists(dev, mid, live, frame, info);
    BuiltCovered(dev, base, mid, live, images);
    FrameFromBuilt(dev, mid, live);
    OwnsFromConfigured(dev, live, info);
  }

  /** The per-frame objects as built satisfy their configuration, and the
      lists have the device's shape. */
  lemma FrameFromBuilt(dev: GraphicsDevice, mid: map<Handle, VkObject>, live: map<Handle, VkObject>)
    requires FrameObjectsBuilt(mid, live, dev.device, dev.graphicsFamilyIndex, dev.commandPool, dev.commandBuffers,
                               dev.imageAvailableSemaphores, dev.renderFinishedSemaphores, dev.inFlightFences)
    requires Distinct(dev.swapchainImageViews) && Distinct(dev.framebuffers)
    requires |dev.framebuffers| == |dev.swapchainImageViews|
    ensures FrameConfigured(dev, live) && ListsShaped(dev)
  {
  }

  /** The instance objects `new` leaves behind when it fails after creating
      them: nothing else, since the error paths destroy nothing. */
  ghost predicate InstanceObjectsOnly(live: map<Handle, VkObject>) {
    && |live| == 3
    && (forall h :: h in live ==> live[h].Instance? || live[h].DebugMessenger? || live[h].Surface?)
  }

  /** The device `new` returns, described through the inputs it was built
      from. */
  ghost predicate Constructed(dev: GraphicsDevice, live: map<Handle, VkObject>, caps: SurfaceCapabilities,
                              formats: seq<SurfaceFormat>, width: u32, height: u32, imageCount: nat)
    requires Negotiable(caps, formats)
  {
    && InstanceConfigured(dev, live)
    && PresentationConfigured(dev, live, SwapchainCreateInfoFor(dev.surface, caps, formats, width, height))
    && FrameConfigured(dev, live)
    && |dev.swapchainImageViews| == imageCount
  }

  /** `VulkanGraphicsDevice::new`: the instance, debug messenger and
      surface; the best-ranked physical device; a logical device on its
      first graphics family; then the swapchain and everything built on it.
      It fails when there is no physical device or the chosen one has no
      graphics family, and then leaves the instance-level objects alive.
      `queueFamiliesOf` stands for the per-device family query and
      `imageCount` for the number of images the implementation gives the
      swapchain. */
  method New(driver: Driver, physicalDevices: seq<PhysicalDevice>,
             queueFamiliesOf: Handle -> seq<QueueFamilyProperties>,
             caps: SurfaceCapabilities, formats: seq<SurfaceFormat>, width: u32, height: u32, imageCount: nat)
    returns (r: Result<GraphicsDevice>)
    requires driver.Valid() && driver.live == map[] && Negotiable(caps, formats)
    modifies driver
    ensures driver.Valid()
    ensures r.Err? <==>
              |physicalDevices| == 0 || !HasGraphicsFamily(queueFamiliesOf(physicalDevices[Best(physicalDevices)].handle))
    ensures |physicalDevices| == 0 ==> r == Err(NO_VULKAN_GPU)
    ensures |physicalDevices| > 0 && r.Err? ==> r.message == NO_GRAPHICS_QUEUE
    ensures r.Err? ==> driver.events == old(driver.events) && InstanceObjectsOnly(driver.live)
    ensures r.Ok? ==> Valid(r.value, driver) && ShaderModulesTornDown(old(driver.events), driver.events)
    ensures r.Ok? ==> Constructed(r.value, driver.live, caps, formats, width, height, imageCount)
    ensures r.Ok? ==> r.value.physicalDevice == physicalDevices[Best(physicalDevices)].handle
    ensures r.Ok? ==> IsFirstGraphicsFamily(queueFamiliesOf(r.value.physicalDevice), r.value.graphicsFamilyIndex)
  {
    var instance, messenger, surface := CreateInstanceObjects(driver);
    assert driver.live.Keys == {instance, messenger, surface};
    var selected := SelectPhysicalDevice(physicalDevices);
    if selected.Err? {
      return Err(selected.message);
    }
    var physicalDevice := selected.value;
    var queue := CreateLogicalDevice(driver, instance, physicalDevice, queueFamiliesOf(physicalDevice));
    if queue.Err? {
      return Err(queue.message);
    }
    var dev := BuildOnDevice(driver, instance, messenger, surface, physicalDevice, queue.value,
                             caps, formats, width, height, imageCount);
    r := Ok(dev);
  }

  // ---------------------------------------------------------------------
  // Teardown

  /** The log of a `for &x in &list { destroy(x) }` loop. */
  function DestroyAll(hs: seq<Handle>, kind: ObjectKind): seq<Event> {
    seq(|hs|, i requires 0 <= i < |hs| => Destroyed(hs[i], kind))
  }

  /** The destroy calls of `Drop`, in order: the per-frame objects, the
      pipeline objects, then the presentation chain down to the instance. */
  function TeardownLog(dev: GraphicsDevice): seq<Event> {
    FrameTeardownLog(dev) + PipelineTeardownLog(dev) + PresentationTeardownLog(dev)
  }

  /** The semaphore and fence loops, then the command pool. */
  function FrameTeardownLog(dev: GraphicsDevice): seq<Event> {
    DestroyAll(dev.imageAvailableSemaphores, SemaphoreKind)
    + DestroyAll(dev.renderFinishedSemaphores, SemaphoreKind)
    + DestroyAll(dev.inFlightFences, FenceKind)
    + [Destroyed(dev.commandPool, CommandPoolKind)]
  }

  /** The framebuffer loop, the pipeline, its layout and the render pass. */
  function PipelineTeardownLog(dev: GraphicsDevice): seq<Event> {
    DestroyAll(dev.framebuffers, FramebufferKind)
    + [Destroyed(dev.graphicsPipeline, PipelineKind)]
    + [Destroyed(dev.pipelineLayout, PipelineLayoutKind)]
    + [Destroyed(dev.renderPass, RenderPassKind)]
  }

  /** The image-view loop, the swapchain, the device, the surface, the
      messenger and the instance. */
  function PresentationTeardownLog(dev: GraphicsDevice): seq<Event> {
    DestroyAll(dev.swapchainImageViews, ImageViewKind)
    + [Destroyed(dev.swapchain, SwapchainKind)]
    + [Destroyed(dev.device, DeviceKind)]
    + [Destroyed(dev.surface, SurfaceKind)]
    + [Destroyed(dev.debugMessenger, DebugMessengerKind)]
    + [Destroyed(dev.instance, InstanceKind)]
  }

  /** The live objects whose kind ranks at least `r`: what is left once
      everything ranked below `r` is gone. */
  ghost function Above(live: map<Handle, VkObject>, r: nat): map<Handle, VkObject> {
    map h | h in live && r <= TeardownRank(KindOf(live[h])) :: live[h]
  }

  /** One more destruction extends the removal to one more handle. */
  lemma DestroyEachStep(before: map<Handle, VkObject>, mid: map<Handle, VkObject>, after: map<Handle, VkObject>,
                        hs: seq<Handle>, i: nat)
    requires i < |hs|
    requires Removes(before, mid, Elems(hs[..i])) && Removes(mid, after, {hs[i]})
    ensures Removes(before, after, Elems(hs[..i + 1]))
  {
    assert hs[..i + 1] == hs[..i] + [hs[i]];
    assert Elems(hs[..i + 1]) == Elems(hs[..i]) + {hs[i]};
  }

  /** Before iteration `i` of a destroy loop, the next handle is still live
      and nothing of lower rank than `kind` has appeared. */
  lemma DestroyEachNext(before: map<Handle, VkObject>, mid: map<Handle, VkObject>,
                        hs: seq<Handle>, i: nat, kind: ObjectKind)
    requires i < |hs| && Distinct(hs) && AllLive(before, hs, kind)
    requires forall k :: k in before ==> TeardownRank(kind) <= TeardownRank(KindOf(before[k]))
    requires Removes(before, mid, Elems(hs[..i]))
    ensures IsLive(mid, hs[i], kind)
    ensures forall k :: k in mid ==> TeardownRank(kind) <= TeardownRank(KindOf(mid[k]))
  {
    forall j | 0 <= j < i
      ensures hs[..i][j] != hs[i]
    {
    }
    assert hs[i] !in Elems(hs[..i]);
    assert hs[i] in hs;
  }

  lemma DestroyAllSnoc(hs: seq<Handle>, i: nat, kind: ObjectKind)
    requires i < |hs|
    ensures DestroyAll(hs[..i + 1], kind) == DestroyAll(hs[..i], kind) + [Destroyed(hs[i], kind)]
  {
  }

  /** One `for &x in &list { destroy(x) }` loop of `Drop`, over objects of
      one kind that frees nothing else, when nothing of lower rank is
      live. */
  method DestroyEach(driver: Driver, hs: seq<Handle>, ghost kind: ObjectKind)
    requires driver.Valid() && Distinct(hs) && AllLive(driver.live, hs, kind)
    requires kind != CommandPoolKind && kind != SwapchainKind
    requires forall k :: k in driver.live ==> TeardownRank(kind) <= TeardownRank(KindOf(driver.live[k]))
    modifies driver
    ensures driver.Valid()
    ensures Removes(old(driver.live), driver.live, Elems(hs))
    ensures driver.events == old(driver.events) + DestroyAll(hs, kind)
  {
    for i := 0 to |hs|
      invariant driver.Valid()
      invariant Removes(old(driver.live), driver.live, Elems(hs[..i]))
      invariant driver.events == old(driver.events) + DestroyAll(hs[..i], kind)
    {
      ghost var mid := driver.live;
      DestroyEachNext(old(driver.live), mid, hs, i, kind);
      DestroyLowest(driver, hs[i], kind);
      DestroyEachStep(old(driver.live), mid, driver.live, hs, i);
      DestroyAllSnoc(hs, i, kind);
    }
    assert hs[..|hs|] == hs;
  }

  /** One `destroy_*` call on an object that frees nothing else, when
      nothing of lower rank is live. */
  method DestroyLowest(driver: Driver, h: Handle, ghost kind: ObjectKind)
    requires driver.Valid() && IsLive(driver.live, h, kind)
    requires kind != CommandPoolKind && kind != SwapchainKind
    requires forall k :: k in driver.live ==> TeardownRank(kind) <= TeardownRank(KindOf(driver.live[k]))
    modifies driver
    ensures driver.Valid() && Removes(old(driver.live), driver.live, {h})
    ensures driver.events == old(driver.events) + [Destroyed(h, kind)]
  {
    FreesNothingElse(driver.live, h);
    DestroyableAtLowestRank(driver.live, h);
    driver.Destroy(h);
  }

  /** Objects of a rank at least `r` are still there above `r`. */
  lemma AllLiveAbove(live0: map<Handle, VkObject>, hs: seq<Handle>, kind: ObjectKind, r: nat)
    requires AllLive(live0, hs, kind) && r <= TeardownRank(kind)
    ensures AllLive(Above(live0, r), hs, kind)
  {
  }

  /** Objects outside what a removal took are still there. */
  lemma AllLiveAfterRemoves(before: map<Handle, VkObject>, after: map<Handle, VkObject>, gone: set<Handle>,
                            hs: seq<Handle>, kind: ObjectKind)
    requires Removes(before, after, gone) && AllLive(before, hs, kind) && Elems(hs) !! gone
    ensures AllLive(after, hs, kind)
  {
    forall h | h in hs
      ensures IsLive(after, h, kind)
    {
      assert h in Elems(hs);
    }
  }

  /** Removing, from what is left above `r`, a set of objects ranked below
      `r2` that includes every object ranked from `r` up to `r2`, leaves
      what is above `r2`. */
  lemma RankStep(live0: map<Handle, VkObject>, after: map<Handle, VkObject>, gone: set<Handle>, r: nat, r2: nat)
    requires r <= r2 && Removes(Above(live0, r), after, gone)
    requires forall h :: h in gone && h in live0 ==> TeardownRank(KindOf(live0[h])) < r2
    requires forall h :: h in live0 && r <= TeardownRank(KindOf(live0[h])) < r2 ==> h in gone
    ensures after == Above(live0, r2)
  {
  }

  /** The rank bands the semaphore and fence loops clear. */
  lemma SyncBands(dev: GraphicsDevice, live0: map<Handle, VkObject>)
    requires Owns(dev, live0)
    ensures forall h :: h in live0 && TeardownRank(KindOf(live0[h])) == 0 ==>
              h in dev.imageAvailableSemaphores || h in dev.renderFinishedSemaphores
    ensures forall h :: h in live0 && TeardownRank(KindOf(live0[h])) == 1 ==> h in dev.inFlightFences
  {
    forall h | h in live0 && TeardownRank(KindOf(live0[h])) < 2
      ensures Accounted(dev, live0, h)
    {
    }
  }

  /** The rank bands `destroy_command_pool` clears. */
  lemma PoolBands(dev: GraphicsDevice, live0: map<Handle, VkObject>)
    requires Owns(dev, live0)
    ensures forall h :: h in live0 && TeardownRank(KindOf(live0[h])) == 2 ==>
              live0[h] == CommandBuffer(dev.commandPool, true)
    ensures forall h :: h in live0 && TeardownRank(KindOf(live0[h])) == 3 ==> h == dev.commandPool
  {
    forall h | h in live0 && 2 <= TeardownRank(KindOf(live0[h])) < 4
      ensures Accounted(dev, live0, h)
    {
    }
  }

  /** The rank bands of the framebuffers, the pipeline, its layout and the
      render pass. */
  lemma PipelineBands(dev: GraphicsDevice, live0: map<Handle, VkObject>)
    requires Owns(dev, live0)
    ensures forall h :: h in live0 && TeardownRank(KindOf(live0[h])) == 4 ==> h in dev.framebuffers
    ensures forall h :: h in live0 && TeardownRank(KindOf(live0[h])) == 5 ==> h == dev.graphicsPipeline
    ensures forall h :: h in live0 && TeardownRank(KindOf(live0[h])) == 6 ==> h == dev.pipelineLayout
    ensures forall h :: h in live0 && TeardownRank(KindOf(live0[h])) == 7 ==> h == dev.renderPass
  {
    forall h | h in live0 && 4 <= TeardownRank(KindOf(live0[h])) < 8
      ensures Accounted(dev, live0, h)
    {
    }
  }

  /** The rank bands of the image views, the swapchain images and the
      swapchain. */
  lemma SwapchainBands(dev: GraphicsDevice, live0: map<Handle, VkObject>)
    requires Owns(dev, live0)
    ensures forall h :: h in live0 && TeardownRank(KindOf(live0[h])) == 8 ==> h in dev.swapchainImageViews
    ensures forall h :: h in live0 && TeardownRank(KindOf(live0[h])) == 9 ==>
              live0[h] == SwapchainImage(dev.swapchain)
    ensures forall h :: h in live0 && TeardownRank(KindOf(live0[h])) == 10 ==> h == dev.swapchain
  {
    forall h | h in live0 && 8 <= TeardownRank(KindOf(live0[h])) < 11
      ensures Accounted(dev, live0, h)
    {
    }
  }

  /** The rank bands of the device, the surface, the messenger and the
      instance; nothing ranks above the instance. */
  lemma InstanceBands(dev: GraphicsDevice, live0: map<Handle, VkObject>)
    requires Owns(dev, live0)
    ensures forall h :: h in live0 && TeardownRank(KindOf(live0[h])) == 11 ==> h == dev.device
    ensures forall h :: h in live0 && TeardownRank(KindOf(live0[h])) == 12 ==> h == dev.surface
    ensures forall h :: h in live0 && TeardownRank(KindOf(live0[h])) == 13 ==> h == dev.debugMessenger
    ensures forall h :: h in live0 && TeardownRank(KindOf(live0[h])) == 14 ==> h == dev.instance
    ensures Above(live0, 15) == map[]
  {
    forall h | h in live0 && 11 <= TeardownRank(KindOf(live0[h]))
      ensures Accounted(dev, live0, h)
    {
    }
  }

  /** A `destroy_*` call on the only object of the lowest live rank, one
      that frees nothing with it. */
  method DestroySole(driver: Driver, h: Handle, ghost live0: map<Handle, VkObject>, ghost r: nat)
    requires driver.Valid() && driver.live == Above(live0, r)
    requires h in live0 && TeardownRank(KindOf(live0[h])) == r
    requires KindOf(live0[h]) != CommandPoolKind && KindOf(live0[h]) != SwapchainKind
    requires forall k :: k in live0 && TeardownRank(KindOf(live0[k])) == r ==> k == h
    modifies driver
    ensures driver.Valid() && driver.live == Above(live0, r + 1)
    ensures driver.events == old(driver.events) + [Destroyed(h, KindOf(live0[h]))]
  {
    ghost var live := driver.live;
    FreesNothingElse(live, h);
    DestroyableAtLowestRank(live, h);
    driver.Destroy(h);
    RankStep(live0, driver.live, {h}, r, r + 1);
  }

  /** A `destroy_*` call on the only object of its rank, which frees with
      it every object of the rank below, the lowest live one. */
  method DestroyParent(driver: Driver, h: Handle, ghost live0: map<Handle, VkObject>, ghost r: nat)
    requires driver.Valid() && driver.live == Above(live0, r)
    requires h in live0 && TeardownRank(KindOf(live0[h])) == r + 1
    requires forall k :: k in live0 && TeardownRank(KindOf(live0[k])) == r ==> FreedWith(live0[k], h)
    requires forall k :: k in live0 && TeardownRank(KindOf(live0[k])) == r + 1 ==> k == h
    modifies driver
    ensures driver.Valid() && driver.live == Above(live0, r + 2)
    ensures driver.events == old(driver.events) + [Destroyed(h, KindOf(live0[h]))]
  {
    ghost var live := driver.live;
    ghost var gone := Gone(live, h);
    forall k | k in gone && k in live0
      ensures TeardownRank(KindOf(live0[k])) < r + 2
    {
      if k != h {
        FreedChildRank(live, k, h);
      }
    }
    DestroyableAtLowestRank(live, h);
    driver.Destroy(h);
    RankStep(live0, driver.live, gone, r, r + 2);
  }

  /** The two semaphore loops: every semaphore goes. */
  method DestroySemaphores(dev: GraphicsDevice, driver: Driver, ghost live0: map<Handle, VkObject>)
    requires driver.Valid() && driver.live == Above(live0, 0)
    requires Distinct(dev.imageAvailableSemaphores) && Distinct(dev.renderFinishedSemaphores)
    requires Elems(dev.imageAvailableSemaphores) !! Elems(dev.renderFinishedSemaphores)
    requires AllLive(live0, dev.imageAvailableSemaphores, SemaphoreKind)
    requires AllLive(live0, dev.renderFinishedSemaphores, SemaphoreKind)
    requires forall h :: h in live0 && TeardownRank(KindOf(live0[h])) == 0 ==>
               h in dev.imageAvailableSemaphores || h in dev.renderFinishedSemaphores
    modifies driver
    ensures driver.Valid() && driver.live == Above(live0, 1)
    ensures driver.events == old(driver.events)
      + DestroyAll(dev.imageAvailableSemaphores, SemaphoreKind)
      + DestroyAll(dev.renderFinishedSemaphores, SemaphoreKind)
  {
    AllLiveAbove(live0, dev.imageAvailableSemaphores, SemaphoreKind, 0);
    AllLiveAbove(live0, dev.renderFinishedSemaphores, SemaphoreKind, 0);
    ghost var start := driver.live;
    DestroyEach(driver, dev.imageAvailableSemaphores, SemaphoreKind);
    ghost var mid := driver.live;
    AllLiveAfterRemoves(start, mid, Elems(dev.imageAvailableSemaphores), dev.renderFinishedSemaphores, SemaphoreKind);
    DestroyEach(driver, dev.renderFinishedSemaphores, SemaphoreKind);
    RemovesTrans(start, mid, driver.live, Elems(dev.imageAvailableSemaphores), Elems(dev.renderFinishedSemaphores));
    RankStep(live0, driver.live, Elems(dev.imageAvailableSemaphores) + Elems(dev.renderFinishedSemaphores), 0, 1);
  }

  /** The fence loop: everything below the command buffers is gone. */
  method DestroyFences(dev: GraphicsDevice, driver: Driver, ghost live0: map<Handle, VkObject>)
    requires driver.Valid() && driver.live == Above(live0, 1)
    requires Distinct(dev.inFlightFences) && AllLive(live0, dev.inFlightFences, FenceKind)
    requires forall h :: h in live0 && TeardownRank(KindOf(live0[h])) == 1 ==> h in dev.inFlightFences
    modifies driver
    ensures driver.Valid() && driver.live == Above(live0, 2)
    ensures driver.events == old(driver.events) + DestroyAll(dev.inFlightFences, FenceKind)
  {
    AllLiveAbove(live0, dev.inFlightFences, FenceKind, 1);
    DestroyEach(driver, dev.inFlightFences, FenceKind);
    RankStep(live0, driver.live, Elems(dev.inFlightFences), 1, 2);
  }

  /** `destroy_command_pool`, which frees the command buffers with it. */
  method DestroyCommandPool(dev: GraphicsDevice, driver: Driver, ghost live0: map<Handle, VkObject>)
    requires driver.Valid() && Owns(dev, live0) && driver.live == Above(live0, 2)
    modifies driver
    ensures driver.Valid() && driver.live == Above(live0, 4)
    ensures driver.events == old(driver.events) + [Destroyed(dev.commandPool, CommandPoolKind)]
  {
    PoolBands(dev, live0);
    DestroyParent(driver, dev.commandPool, live0, 2);
  }

  /** The framebuffer loop. */
  method DestroyFramebuffers(dev: GraphicsDevice, driver: Driver, ghost live0: map<Handle, VkObject>)
    requires driver.Valid() && Owns(dev, live0) && driver.live == Above(live0, 4)
    modifies driver
    ensures driver.Valid() && driver.live == Above(live0, 5)
    ensures driver.events == old(driver.events) + DestroyAll(dev.framebuffers, FramebufferKind)
  {
    PipelineBands(dev, live0);
    DestroyEach(driver, dev.framebuffers, FramebufferKind);
    RankStep(live0, driver.live, Elems(dev.framebuffers), 4, 5);
  }

  /** The framebuffers, the pipeline, its layout and the render pass. */
  method DestroyPipelineObjects(dev: GraphicsDevice, driver: Driver, ghost live0: map<Handle, VkObject>)
    requires driver.Valid() && Owns(dev, live0) && driver.live == Above(live0, 4)
    modifies driver
    ensures driver.Valid() && driver.live == Above(live0, 8)
    ensures driver.events == old(driver.events) + PipelineTeardownLog(dev)
  {
    PipelineBands(dev, live0);
    DestroyFramebuffers(dev, driver, live0);
    DestroySole(driver, dev.graphicsPipeline, live0, 5);
    DestroySole(driver, dev.pipelineLayout, live0, 6);
    DestroySole(driver, dev.renderPass, live0, 7);
  }

  /** The image views, then the swapchain, which frees its images. */
  method DestroySwapchainObjects(dev: GraphicsDevice, driver: Driver, ghost live0: map<Handle, VkObject>)
    requires driver.Valid() && Owns(dev, live0) && driver.live == Above(live0, 8)
    modifies driver
    ensures driver.Valid() && driver.live == Above(live0, 11)
    ensures driver.events == old(driver.events)
      + DestroyAll(dev.swapchainImageViews, ImageViewKind)
      + [Destroyed(dev.swapchain, SwapchainKind)]
  {
    SwapchainBands(dev, live0);
    DestroyEach(driver, dev.swapchainImageViews, ImageViewKind);
    RankStep(live0, driver.live, Elems(dev.swapchainImageViews), 8, 9);
    DestroyParent(driver, dev.swapchain, live0, 9);
  }

  /** The logical device, the surface, the debug messenger and the
      instance. */
  method DestroyInstanceObjects(dev: GraphicsDevice, driver: Driver, ghost live0: map<Handle, VkObject>)
    requires driver.Valid() && Owns(dev, live0) && driver.live == Above(live0, 11)
    modifies driver
    ensures driver.Valid() && driver.live == Above(live0, 15)
    ensures driver.events == old(driver.events)
      + [Destroyed(dev.device, DeviceKind)]
      + [Destroyed(dev.surface, SurfaceKind)]
      + [Destroyed(dev.debugMessenger, DebugMessengerKind)]
      + [Destroyed(dev.instance, InstanceKind)]
  {
    InstanceBands(dev, live0);
    DestroySole(driver, dev.device, live0, 11);
    DestroySole(driver, dev.surface, live0, 12);
    DestroySole(driver, dev.debugMessenger, live0, 13);
    DestroySole(driver, dev.instance, live0, 14);
  }

  /** The semaphores, the fences and the command pool. */
  method DestroyFrameObjects(dev: GraphicsDevice, driver: Driver, ghost live0: map<Handle, VkObject>)
    requires driver.Valid() && Owns(dev, live0) && driver.live == Above(live0, 0)
    modifies driver
    ensures driver.Valid() && driver.live == Above(live0, 4)
    ensures driver.events == old(driver.events) + FrameTeardownLog(dev)
  {
    SyncBands(dev, live0);
    DestroySemaphores(dev, driver, live0);
    DestroyFences(dev, driver, live0);
    DestroyCommandPool(dev, driver, live0);
  }

  /** The image views and the swapchain, then the device and the objects
      of the instance, leaving nothing. */
  method DestroyPresentationObjects(dev: GraphicsDevice, driver: Driver, ghost live0: map<Handle, VkObject>)
    requires driver.Valid() && Owns(dev, live0) && driver.live == Above(live0, 8)
    modifies driver
    ensures driver.Valid() && driver.live == map[]
    ensures driver.events == old(driver.events) + PresentationTeardownLog(dev)
  {
    DestroySwapchainObjects(dev, driver, live0);
    DestroyInstanceObjects(dev, driver, live0);
    InstanceBands(dev, live0);
  }

  /** `Drop for VulkanGraphicsDevice`: wait for the device to go idle
      (whatever the outcome), then destroy every object the device owns,
      each only once nothing still alive refers to it, leaving the driver
      empty. */
  method Drop(dev: GraphicsDevice, driver: Driver, waitSucceeded: bool)
    requires Valid(dev, driver)
    modifies driver
    ensures driver.Valid() && driver.live == map[]
    ensures driver.events == old(driver.events) + [DeviceWaitIdle(dev.device, waitSucceeded)] + TeardownLog(dev)
  {
    ghost var live0 := driver.live;
    assert live0 == Above(live0, 0);
    driver.WaitIdle(dev.device, waitSucceeded);
    DestroyFrameObjects(dev, driver, live0);
    DestroyPipelineObjects(dev, driver, live0);
    DestroyPresentationObjects(dev, driver, live0);
  }
}
