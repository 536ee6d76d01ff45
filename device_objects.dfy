/** The creation helpers `new` calls before the per-frame resources: the
    instance-level objects, the logical device with its graphics queue, the
    swapchain, the render pass and the graphics pipeline. */
module DeviceObjects {
  import opened VkTypes
  import opened QueueFamilies
  import opened SwapchainSetup
  import opened VertexLayout
  import opened VkDriver

  /** The device extensions `create_logical_device` enables. */
  const DEVICE_EXTENSIONS: seq<string> := ["VK_KHR_swapchain"]

  /** The queue `get_device_queue(family, index)` returns. */
  datatype Queue = Queue(device: Handle, familyIndex: nat, index: nat)

  /** `create_instance`, `setup_debug_messenger` and `create_surface`, on a
      driver that holds nothing yet: three fresh objects, the messenger and
      the surface made from the instance. */
  method CreateInstanceObjects(driver: Driver) returns (instance: Handle, messenger: Handle, surface: Handle)
    requires driver.Valid() && driver.live == map[]
    modifies driver
    ensures driver.Valid() && driver.events == old(driver.events)
    ensures instance != messenger && instance != surface && messenger != surface
    ensures driver.live == map[instance := Instance, messenger := DebugMessenger(instance), surface := Surface(instance)]
  {
    instance := driver.Create(Instance);
    messenger := driver.Create(DebugMessenger(instance));
    surface := driver.Create(Surface(instance));
  }

  /** `create_logical_device`: the first graphics-capable queue family of
      the physical device, one queue of it, the swapchain extension, and the
      queue at index 0; an error, and no device, when no family can do
      graphics. */
  method CreateLogicalDevice(driver: Driver, instance: Handle, physicalDevice: Handle,
                             families: seq<QueueFamilyProperties>) returns (r: Result<Queue>)
    requires driver.Valid() && IsLive(driver.live, instance, InstanceKind)
    modifies driver
    ensures driver.Valid() && driver.events == old(driver.events)
    ensures r.Err? <==> !HasGraphicsFamily(families)
    ensures r.Err? ==> r.message == NO_GRAPHICS_QUEUE && driver.live == old(driver.live)
    ensures r.Ok? ==> IsFirstGraphicsFamily(families, r.value.familyIndex) && r.value.index == 0
    ensures r.Ok? ==> r.value.device !in old(driver.live)
    ensures r.Ok? ==> driver.live == old(driver.live)[r.value.device :=
              Device(instance, physicalDevice, r.value.familyIndex, 1, DEVICE_EXTENSIONS)]
  {
    var family := FindGraphicsFamily(families);
    if family.Err? {
      return Err(family.message);
    }
    var device := driver.Create(Device(instance, physicalDevice, family.value, 1, DEVICE_EXTENSIONS));
    r := Ok(Queue(device, family.value, 0));
  }

  /** What `create_swapchain` leaves: the swapchain built from the
      negotiated create-info, and the images the implementation reports for
      it, all fresh. */
  ghost predicate SwapchainCreated(before: map<Handle, VkObject>, after: map<Handle, VkObject>,
                                   device: Handle, info: SwapchainCreateInfo, swapchain: Handle, images: seq<Handle>)
  {
    && swapchain !in Elems(images) && Distinct(images)
    && Extends(before, after, {swapchain} + Elems(images))
    && after[swapchain] == Swapchain(device, info)
    && (forall h :: h in images ==> after[h] == SwapchainImage(swapchain))
  }

  /** `create_swapchain`: negotiate the create-info from the surface's
      report and the window size, create the swapchain, then fetch its
      images (`imageCount` is how many the implementation hands back). */
  method CreateSwapchain(driver: Driver, device: Handle, surface: Handle,
                         caps: SurfaceCapabilities, formats: seq<SurfaceFormat>, width: u32, height: u32,
                         imageCount: nat) returns (swapchain: Handle, images: seq<Handle>)
    requires driver.Valid() && IsLive(driver.live, device, DeviceKind) && IsLive(driver.live, surface, SurfaceKind)
    requires Negotiable(caps, formats)
    modifies driver
    ensures driver.Valid() && driver.events == old(driver.events)
    ensures |images| == imageCount
    ensures SwapchainCreated(old(driver.live), driver.live, device,
                             SwapchainCreateInfoFor(surface, caps, formats, width, height), swapchain, images)
  {
    var info := SwapchainCreateInfoFor(surface, caps, formats, width, height);
    ghost var live0 := driver.live;
    swapchain := driver.Create(Swapchain(device, info));
    ghost var live1 := driver.live;
    images := driver.CreateMany(SwapchainImage(swapchain), imageCount);
    ExtendsTrans(live0, live1, driver.live, {swapchain}, Elems(images));
  }

  /** `create_render_pass`: one colour attachment in the swapchain's
      format. */
  method CreateRenderPass(driver: Driver, device: Handle, format: Format) returns (renderPass: Handle)
    requires driver.Valid() && IsLive(driver.live, device, DeviceKind)
    modifies driver
    ensures driver.Valid() && driver.events == old(driver.events)
    ensures renderPass !in old(driver.live)
    ensures driver.live == old(driver.live)[renderPass := RenderPass(device, format)]
  {
    renderPass := driver.Create(RenderPass(device, format));
  }

  /** `create_graphics_pipeline`: two shader modules, the layout, the
      pipeline over the `Vertex` input layout and the render pass, then the
      two shader modules destroyed again. Only the layout and the pipeline
      outlive the call; the log gains the two shader-module destructions. */
  method CreateGraphicsPipeline(driver: Driver, device: Handle, renderPass: Handle)
    returns (layout: Handle, pipeline: Handle, ghost vertexShader: Handle, ghost fragmentShader: Handle)
    requires driver.Valid() && IsLive(driver.live, device, DeviceKind)
    requires IsLive(driver.live, renderPass, RenderPassKind)
    modifies driver
    ensures driver.Valid()
    ensures layout != pipeline && Extends(old(driver.live), driver.live, {layout, pipeline})
    ensures driver.live[layout] == PipelineLayout(device)
    ensures driver.live[pipeline] ==
              Pipeline(device, layout, renderPass, GetBindingDescription(), GetAttributeDescriptions())
    ensures vertexShader != fragmentShader
    ensures driver.events == old(driver.events)
              + [Destroyed(vertexShader, ShaderModuleKind), Destroyed(fragmentShader, ShaderModuleKind)]
  {
    ghost var live0 := driver.live;
    var vertex := CreateShaderModule(driver, device);
    var fragment := CreateShaderModule(driver, device);
    ghost var withShaders := driver.live;
    assert Extends(live0, withShaders, {vertex} + {fragment});
    LiveAfterExtends(live0, withShaders, {vertex} + {fragment}, device, DeviceKind);
    LiveAfterExtends(live0, withShaders, {vertex} + {fragment}, renderPass, RenderPassKind);
    layout, pipeline := CreateLayoutAndPipeline(driver, device, renderPass);
    ghost var built := driver.live;
    DestroyShaderModule(driver, vertex);
    ghost var mid := driver.live;
    DestroyShaderModule(driver, fragment);
    RemovesTrans(built, mid, driver.live, {vertex}, {fragment});
    ExtendsAroundTemporaries(live0, withShaders, built, driver.live, {vertex} + {fragment}, {layout, pipeline});
    vertexShader, fragmentShader := vertex, fragment;
  }

  /** The `create_pipeline_layout` and `create_graphics_pipelines` calls
      of `create_graphics_pipeline`. */
  method CreateLayoutAndPipeline(driver: Driver, device: Handle, renderPass: Handle)
    returns (layout: Handle, pipeline: Handle)
    requires driver.Valid() && IsLive(driver.live, device, DeviceKind)
    requires IsLive(driver.live, renderPass, RenderPassKind)
    modifies driver
    ensures driver.Valid() && driver.events == old(driver.events)
    ensures layout != pipeline && Extends(old(driver.live), driver.live, {layout, pipeline})
    ensures driver.live[layout] == PipelineLayout(device)
    ensures driver.live[pipeline] ==
              Pipeline(device, layout, renderPass, GetBindingDescription(), GetAttributeDescriptions())
  {
    layout := driver.Create(PipelineLayout(device));
    pipeline := driver.Create(Pipeline(device, layout, renderPass, GetBindingDescription(), GetAttributeDescriptions()));
  }

  /** `create_shader_module`. */
  method CreateShaderModule(driver: Driver, device: Handle) returns (shader: Handle)
    requires driver.Valid() && IsLive(driver.live, device, DeviceKind)
    modifies driver
    ensures driver.Valid() && driver.events == old(driver.events)
    ensures shader !in old(driver.live)
    ensures driver.live == old(driver.live)[shader := ShaderModule(device)]
  {
    shader := driver.Create(ShaderModule(device));
  }

  /** `destroy_shader_module`: no object ever refers to a shader module,
      because a pipeline records no shader stages, so it goes alone. */
  method DestroyShaderModule(driver: Driver, shader: Handle)
    requires driver.Valid() && IsLive(driver.live, shader, ShaderModuleKind)
    modifies driver
    ensures driver.Valid()
    ensures Removes(old(driver.live), driver.live, {shader})
    ensures driver.events == old(driver.events) + [Destroyed(shader, ShaderModuleKind)]
  {
    forall k, r | k in driver.live && r in Refs(driver.live[k])
      ensures r.kind != ShaderModuleKind
    {
      NothingRefersToShaderModules(driver.live[k], r);
    }
    DestroyableWhenUnreferenced(driver.live, shader);
    driver.Destroy(shader);
  }
}
