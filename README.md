# Vulkan graphics device: a Dafny model

This project models `VulkanGraphicsDevice` from `crates/graphics/src/vulkan/device.rs` of engine-rs. That struct brings up a Vulkan rendering context for a window and tears it down again. The model covers:

- how `select_physical_device` ranks and picks a GPU;
- the graphics queue-family scan in `create_logical_device`;
- how `create_swapchain` chooses the surface format, the image extent and the image count;
- the loops that build one image view per swapchain image, one framebuffer per view, the command buffers and the per-frame semaphores and fences;
- the graphics pipeline with its short-lived shader modules;
- the `Vertex` input layout;
- the whole of `new`, and the fixed destruction sequence of `Drop`.

Vulkan itself becomes `VkDriver.Driver`. It keeps a table of live objects keyed by opaque handles. It also keeps a log of the destruction-side calls: `device_wait_idle` and every `destroy_*`.

- Every object records the objects it was created from.
- `Driver.Valid` keeps three invariants:
  - no live object refers to a dead one;
  - handles are never reused;
  - no handle is destroyed twice.
- `Destroy` may only be called when nothing that survives the call refers to what it frees. Destroying a command pool frees its command buffers, and destroying a swapchain frees its images.

On this model the following are proved:

- `new` either fails with the source's error messages or returns a device whose objects carry the creation parameters the model keeps (see "## Left out" for the constants it drops).
- `Drop` leaves the driver empty and logs the destroy calls in the source's order. No call happens while something alive still refers to the object destroyed.

The modules, in dependency order:

| module | file | contents |
|---|---|---|
| `VkTypes` | vk_types.dfy | handles, `u32`, the Vulkan structure fields read, `Result` |
| `VertexLayout` | vertex_layout.dfy | the `Vertex` layout and its input descriptions |
| `SwapchainSetup` | swapchain_setup.dfy | the format, extent and image-count negotiation |
| `QueueFamilies` | queue_families.dfy | the graphics queue-family scan |
| `DeviceSelection` | device_selection.dfy | the comparator, the sort and the selection |
| `VkDriver` | vk_driver.dfy | the object table, references, teardown ranks and the `Driver` class |
| `DeviceObjects` | device_objects.dfy | the instance objects, logical device, swapchain, render pass and pipeline |
| `FrameResources` | frame_resources.dfy | the image-view, framebuffer, command-buffer and sync-object loops |
| `VulkanDevice` | graphics_device.dfy | the device struct, `new` and `Drop` |

Where the code and its own comment disagree, the model follows the code. The comment before the comparator (device.rs line 225) ranks virtual GPUs above CPUs above other devices. The comparator itself puts all three in one class, ordered only by enumeration index. `DeviceSelection.CpuBeforeVirtualIsChosen` shows the consequence.

The selection also has no graphics-queue filter. A device without a graphics family is still chosen, and `new` then fails in `create_logical_device`.

## Model

| member | source | states |
|---|---|---|
| VertexLayout.OffsetOf | crates/graphics/src/vulkan/device.rs:31-36 | `offset_of!` under `#[repr(C)]`: the first field is at offset 0, and every offset keeps the 4-byte alignment of `f32` |
| VertexLayout.FieldPrecedes | crates/graphics/src/vulkan/device.rs:12-15 | each field ends at or before the offset of every later field, so no two fields overlap |
| VertexLayout.SizeOf | crates/graphics/src/vulkan/device.rs:21 | `size_of::<Vertex>()`: every field lies within the struct |
| VertexLayout.GetBindingDescription | crates/graphics/src/vulkan/device.rs:18-23 | binding 0, advanced per vertex, with a stride of 20 bytes, the size of `Vertex` |
| VertexLayout.GetAttributeDescriptions | crates/graphics/src/vulkan/device.rs:25-38 | `pos` is location 0 at offset 0 as two floats; `color` is location 1 at offset 8 as three floats; both on binding 0 |
| VertexLayout.AttributesMatchFields | crates/graphics/src/vulkan/device.rs:12-38 | each attribute's location is its field's position and its offset is the field's `offset_of!`; it reads exactly the field's bytes; the two attributes do not overlap and both fit in one stride |
| SwapchainSetup.IsPreferred | crates/graphics/src/vulkan/device.rs:311-314 | the predicate given to `find` holds exactly for the pair (B8G8R8A8_SRGB, SRGB_NONLINEAR) |
| SwapchainSetup.FindPreferred | crates/graphics/src/vulkan/device.rs:309-314 | returns the position of the first (B8G8R8A8_SRGB, SRGB_NONLINEAR) entry, with none before it; returns nothing exactly when no entry matches |
| SwapchainSetup.ChooseSurfaceFormat | crates/graphics/src/vulkan/device.rs:309-315 | the result is one of the listed formats: the preferred format when it is listed, otherwise entry 0; a non-empty list is required because `[0]` panics on an empty one |
| SwapchainSetup.Clamp | crates/graphics/src/vulkan/device.rs:321-328 | the result lies in `[lo, hi]`; a value inside is kept and one outside becomes the nearer bound; `lo <= hi` is required, as `Ord::clamp` panics otherwise |
| SwapchainSetup.ClampIsNearest | crates/graphics/src/vulkan/device.rs:321-328 | no point of `[lo, hi]` is closer to the requested value than the clamped one |
| SwapchainSetup.ChooseExtent | crates/graphics/src/vulkan/device.rs:317-330 | a defined current extent (width not `u32::MAX`) is returned verbatim; otherwise each dimension is clamped separately into the surface's min/max bounds: a dimension within its bounds is kept whatever the other one is, and one outside becomes the nearer bound |
| SwapchainSetup.ChooseExtentClampsBothWays | crates/graphics/src/vulkan/device.rs:317-330 | with bounds (100,100)..(4000,4000), a request for (50,6000) gives (100,4000) |
| SwapchainSetup.ChooseExtentPerDimension | crates/graphics/src/vulkan/device.rs:320-329 | with the same bounds, a request for (500,6000) gives (500,4000): the fitting width is kept while the height is clamped |
| SwapchainSetup.ChooseImageCount | crates/graphics/src/vulkan/device.rs:332-338 | the result is `minImageCount + 1` when `maxImageCount` is 0; otherwise it never exceeds `maxImageCount`; it is always one of those two values |
| SwapchainSetup.ImageCountWithinSurfaceLimits | crates/graphics/src/vulkan/device.rs:332-338 | for a surface within Vulkan's guaranteed limits, the count lies between the minimum and a nonzero maximum; it is one above the minimum exactly when the maximum is 0 or leaves room |
| SwapchainSetup.ImageCountExamples | crates/graphics/src/vulkan/device.rs:332-338 | min 2 with max 0 gives 3; min 2 with max 2 gives 2 |
| SwapchainSetup.SwapchainCreateInfoFor | crates/graphics/src/vulkan/device.rs:340-352 | the create-info carries the negotiated choices: the chosen surface format pair (one from the surface's list), the chosen image count and extent, and the surface's current transform; it also names the surface, one array layer, FIFO presentation and clipping |
| QueueFamilies.FindGraphicsFamily | crates/graphics/src/vulkan/device.rs:258-267 | the result is the first family whose flags contain the graphics bit; "No graphics queue family found" is returned exactly when no family has it |
| DeviceSelection.CompareInfos | crates/graphics/src/vulkan/device.rs:226-243 | the `sort_by` closure answers Less, Greater or Equal exactly as the lexicographic (class, index) comparison does, with discrete before integrated before the rest |
| DeviceSelection.CompareIsTotalOrder | crates/graphics/src/vulkan/device.rs:226-243 | the closure is antisymmetric (Less one way exactly when Greater the other way, Equal both ways or neither) and transitive, both for Less and for not-Greater: the total order `sort_by` needs |
| DeviceSelection.Insert | crates/graphics/src/vulkan/device.rs:226-243 | one step of `sort_by`: inserting a record keeps every record and adds exactly that one |
| DeviceSelection.SortInfos | crates/graphics/src/vulkan/device.rs:226-243 | `sort_by` on the comparator returns a permutation of its input |
| DeviceSelection.InsertSorted | crates/graphics/src/vulkan/device.rs:226-243 | inserting into a sorted sequence leaves it sorted |
| DeviceSelection.SortInfosSorted | crates/graphics/src/vulkan/device.rs:226-243 | the sorted records are a permutation of the input in which no record is ranked before an earlier one |
| DeviceSelection.BestAmong | crates/graphics/src/vulkan/device.rs:225-248 | among the first `n` devices, the result precedes every other in (class, index) order |
| DeviceSelection.Best | crates/graphics/src/vulkan/device.rs:225-248 | for a non-empty enumeration, the result is the device that precedes all others |
| DeviceSelection.BestIsUnique | crates/graphics/src/vulkan/device.rs:225-248 | at most one device precedes all others |
| DeviceSelection.BuildInfos | crates/graphics/src/vulkan/device.rs:215-223 | the enumeration loop pushes one record per device |
| DeviceSelection.SortedHeadIsBest | crates/graphics/src/vulkan/device.rs:226-248 | after sorting, the first record is the best device's record |
| DeviceSelection.SelectPhysicalDevice | crates/graphics/src/vulkan/device.rs:200-249 | fails exactly on an empty enumeration, with "No Vulkan-capable GPU found"; otherwise it returns the best device's handle, so "No suitable GPU found" is never returned |
| DeviceSelection.DiscreteAlwaysWins | crates/graphics/src/vulkan/device.rs:226-243 | whenever a discrete GPU is enumerated, a discrete GPU is chosen |
| DeviceSelection.IntegratedBeatsRest | crates/graphics/src/vulkan/device.rs:226-243 | without a discrete GPU, an enumerated integrated GPU is always chosen |
| DeviceSelection.LowestIndexWithinClass | crates/graphics/src/vulkan/device.rs:226-243 | within the winning class, no device with a lower enumeration index exists |
| DeviceSelection.CpuBeforeVirtualIsChosen | crates/graphics/src/vulkan/device.rs:225-243 | `[CPU, virtual GPU]` selects the CPU, contrary to the comment's ranking |
| DeviceSelection.DiscreteAfterCpuIsChosen | crates/graphics/src/vulkan/device.rs:226-243 | `[CPU, discrete GPU]` selects the discrete GPU |
| VkDriver.RefsPointUpward | crates/graphics/src/vulkan/device.rs:630-675 | every object ranks strictly below every object it refers to in the teardown order |
| VkDriver.NothingRefersToShaderModules | crates/graphics/src/vulkan/device.rs:609-612 | no object keeps a reference to a shader module |
| VkDriver.DestroyableAtLowestRank | crates/graphics/src/vulkan/device.rs:630-675 | destroying an object of the lowest live rank never leaves a dangling reference |
| VkDriver.FreedChildRank | crates/graphics/src/vulkan/device.rs:646-663 | an object freed with a pool or swapchain ranks below it |
| VkDriver.FreesNothingElse | crates/graphics/src/vulkan/device.rs:630-675 | destroying anything but a command pool or swapchain frees that object alone |
| VkDriver.DestroyableWhenUnreferenced | crates/graphics/src/vulkan/device.rs:609-612 | an object of a kind nothing refers to can be destroyed alone |
| VkDriver.Driver.constructor | crates/graphics/src/vulkan/device.rs:67 | a fresh implementation holds no objects and has logged nothing |
| VkDriver.Driver.Create | crates/graphics/src/vulkan/device.rs:68-81 | a `create_*` call returns a handle that was not live and adds exactly that object, whose references must be live; the log is unchanged |
| VkDriver.Driver.CreateMany | crates/graphics/src/vulkan/device.rs:470-481 | an allocation returns `count` distinct fresh handles, all naming the same object |
| VkDriver.Driver.Destroy | crates/graphics/src/vulkan/device.rs:630-675 | a `destroy_*` call removes the object and what is freed with it, and logs it once; it requires that nothing surviving refers to what goes |
| VkDriver.Driver.WaitIdle | crates/graphics/src/vulkan/device.rs:634 | `device_wait_idle` logs its outcome and changes no object |
| DeviceObjects.CreateInstanceObjects | crates/graphics/src/vulkan/device.rs:67-81 | `new` makes three distinct objects: the instance, then the debug messenger and the surface of that instance |
| DeviceObjects.CreateLogicalDevice | crates/graphics/src/vulkan/device.rs:251-288 | the device gets one queue of the first graphics family, the swapchain extension and queue index 0; without a graphics family it fails with "No graphics queue family found" and creates nothing |
| DeviceObjects.CreateSwapchain | crates/graphics/src/vulkan/device.rs:290-358 | the swapchain is built from the negotiated create-info, and its images are fresh, distinct and belong to it |
| DeviceObjects.CreateRenderPass | crates/graphics/src/vulkan/device.rs:394-431 | one fresh render pass on the device, in the swapchain format |
| DeviceObjects.CreateGraphicsPipeline | crates/graphics/src/vulkan/device.rs:507-615 | adds exactly the layout and the pipeline over the `Vertex` descriptions and the render pass; the two shader modules are destroyed within the call, and the log shows exactly that |
| DeviceObjects.CreateLayoutAndPipeline | crates/graphics/src/vulkan/device.rs:586-607 | adds a fresh pipeline layout and a fresh pipeline on that layout and the render pass |
| DeviceObjects.CreateShaderModule | crates/graphics/src/vulkan/device.rs:617-627 | adds one fresh shader module on the device |
| DeviceObjects.DestroyShaderModule | crates/graphics/src/vulkan/device.rs:609-612 | destroys that module alone, which nothing refers to, and logs it |
| FrameResources.CreateImageViews | crates/graphics/src/vulkan/device.rs:360-392 | one fresh view per swapchain image, in the images' order, in the swapchain format |
| FrameResources.CreateFramebuffers | crates/graphics/src/vulkan/device.rs:433-456 | one fresh single-layer framebuffer per view, in the views' order, as large as the swapchain extent, on the render pass |
| FrameResources.CreateCommandPool | crates/graphics/src/vulkan/device.rs:458-468 | one fresh pool on the graphics family whose buffers can be reset one by one |
| FrameResources.CreateCommandBuffers | crates/graphics/src/vulkan/device.rs:470-481 | exactly `MAX_FRAMES_IN_FLIGHT` (3) distinct fresh primary buffers from the pool |
| FrameResources.CreateSlotSyncObjects | crates/graphics/src/vulkan/device.rs:494-503 | one loop iteration makes two semaphores and a fence created signalled, all distinct and fresh |
| FrameResources.CreateSyncObjects | crates/graphics/src/vulkan/device.rs:483-505 | three parallel lists of length `MAX_FRAMES_IN_FLIGHT`, with no duplicates and the two semaphore lists disjoint; every fence is created signalled |
| VulkanDevice.BuildSwapchainViews | crates/graphics/src/vulkan/device.rs:88-97 | the swapchain from the negotiated create-info, `imageCount` images and one view of each in the chosen format |
| VulkanDevice.BuildPipelineObjects | crates/graphics/src/vulkan/device.rs:99-105 | the render pass in the swapchain format, the pipeline on it and one framebuffer per view of the extent; only the shader modules' destructions are logged |
| VulkanDevice.BuildFrameObjects | crates/graphics/src/vulkan/device.rs:107-110 | the command pool on the graphics family, its three buffers and the three per-frame lists of sync objects |
| VulkanDevice.BuildOnDevice | crates/graphics/src/vulkan/device.rs:86-134 | the device it returns owns every live object, and each field names an object with the parameters the source passes |
| VulkanDevice.FinishConstruction | crates/graphics/src/vulkan/device.rs:112-134 | the table built by `new` is owned by the device it returns, in the configuration the source passes |
| VulkanDevice.OwnsFromConfigured | crates/graphics/src/vulkan/device.rs:41-63 | a table holding exactly the configured objects is owned by the struct: every live object is a field, a list member, a swapchain image or a command buffer of its pool |
| VulkanDevice.AccountedFromConfigured | crates/graphics/src/vulkan/device.rs:41-63 | every object of such a table is accounted for by one of the struct's fields |
| VulkanDevice.New | crates/graphics/src/vulkan/device.rs:66-135 | fails exactly when there is no physical device or the chosen one has no graphics family, leaving only the instance, messenger and surface; otherwise returns the best device with its first graphics family, and every object carries the creation parameters the model keeps |
| VulkanDevice.DestroyEach | crates/graphics/src/vulkan/device.rs:636-644 | a destroy loop over a list removes exactly the list's objects and logs them in list order |
| VulkanDevice.DestroySemaphores | crates/graphics/src/vulkan/device.rs:636-641 | the two semaphore loops remove every semaphore and log both lists in order |
| VulkanDevice.DestroyFences | crates/graphics/src/vulkan/device.rs:642-644 | the fence loop removes every fence and logs them in order |
| VulkanDevice.DestroyCommandPool | crates/graphics/src/vulkan/device.rs:646 | destroying the pool also frees its command buffers |
| VulkanDevice.DestroyFramebuffers | crates/graphics/src/vulkan/device.rs:648-650 | the framebuffer loop removes every framebuffer |
| VulkanDevice.DestroyPipelineObjects | crates/graphics/src/vulkan/device.rs:648-656 | framebuffers, then the pipeline, its layout and the render pass, in that order |
| VulkanDevice.DestroySwapchainObjects | crates/graphics/src/vulkan/device.rs:658-663 | the image views, then the swapchain, which frees its images |
| VulkanDevice.DestroyInstanceObjects | crates/graphics/src/vulkan/device.rs:665-672 | the device, the surface, the debug messenger and the instance, in that order, leaving nothing |
| VulkanDevice.DestroyFrameObjects | crates/graphics/src/vulkan/device.rs:636-646 | the semaphores, the fences and the command pool |
| VulkanDevice.DestroyPresentationObjects | crates/graphics/src/vulkan/device.rs:658-672 | the image views and the swapchain, then the device and the instance-level objects |
| VulkanDevice.Drop | crates/graphics/src/vulkan/device.rs:630-675 | the idle wait comes first and its outcome is ignored; then every owned object is destroyed exactly once, in the source's order; each is destroyed only when nothing alive refers to it, and the driver ends empty |

## Left out

- Failures of the Vulkan calls themselves (the `?` after each create call, entry loading, enumeration and the surface queries) are not modelled: every create call succeeds. The two policy errors of `new` are modelled: no physical device, and no graphics family.
- The early returns of `new` leave the already created instance, messenger, surface and (for later steps) device alive, as the source does. The model states this for the modelled error paths (`InstanceObjectsOnly`) and does not add a cleanup the source lacks.
- `sort_by` is modelled as a stable insertion sort returning a new sequence, not as the standard library's in-place merge sort. Only its result is modelled: a sorted permutation, which is unique because the comparator is a total order on distinct indices.
- The physical-device properties query, the per-device queue-family query, the surface capability and format queries, the window size and the number of swapchain images are parameters of the model.
- Instance creation details (application info, layers, extensions), the debug messenger's create-info and `vulkan_debug_callback` (device.rs 677-689) are not modelled. They are C-ABI plumbing that prints messages.
- Shader bytes, `include_bytes!` and `read_spv` are left out; a shader module is an opaque object on the device.
- The pipeline's fixed-function state (viewport, rasterizer, multisampling, blending, dynamic state), the render pass's attachment and subpass details and the image views' swizzle and subresource range are constants passed to Vulkan with no logic. They are left out.
- Creation parameters that are fixed constants are not recorded on the model's objects:
  - the queue priority 1.0 and the default `PhysicalDeviceFeatures` of the logical device (device.rs 269-282);
  - the swapchain's colour-attachment usage, exclusive sharing mode and opaque composite alpha (device.rs 347-350);
  - the image views' 2D view type (device.rs 370);
  - the pipeline's two shader stages with entry point `main`, its triangle-list input assembly and subpass 0 (device.rs 518-541, 601).

  So `New` and `BuildOnDevice` promise the parameters the model keeps, not these.
- The extension loaders (`debug_utils_loader`, `surface_loader`, `swapchain_loader`) are function tables, not Vulkan objects, and are not kept in the model's struct.
- SwapchainSetup.ChooseImageCount: requires `minImageCount < u32::MAX`. This is where `+ 1` panics in a debug build; the wrap-around to 0 of a release build is not modelled.
- The frame loop, swapchain recreation and device-loss handling do not exist in this file and are not modelled. `crates/launcher/src/main.rs` and `crates/graphics/src/error.rs` are not part of this model.
