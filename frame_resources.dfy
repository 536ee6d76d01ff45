/** The per-item construction loops of the device: one image view per
    swapchain image, one framebuffer per view, the command buffers and the
    per-frame synchronisation objects. */
module FrameResources {
  import opened VkTypes
  import opened VkDriver

  /** The first `|views|` images each have a fresh colour view of
      `format` on `device`, in the images' order. */
  ghost predicate ImageViewsCreated(before: map<Handle, VkObject>, after: map<Handle, VkObject>,
                                    device: Handle, images: seq<Handle>, format: Format, views: seq<Handle>)
  {
    && |views| <= |images| && Distinct(views)
    && Extends(before, after, Elems(views))
    && (forall i :: 0 <= i < |views| ==> after[views[i]] == ImageView(device, images[i], format))
  }

  lemma ImageViewsAppend(before: map<Handle, VkObject>, mid: map<Handle, VkObject>, after: map<Handle, VkObject>,
                         device: Handle, images: seq<Handle>, format: Format, views: seq<Handle>, view: Handle)
    requires ImageViewsCreated(before, mid, device, images, format, views) && |views| < |images|
    requires view !in mid && after == mid[view := ImageView(device, images[|views|], format)]
    ensures ImageViewsCreated(before, after, device, images, format, views + [view])
  {
    AppendFresh(views, view);
  }

  /** `create_image_views`: one 2D colour view per swapchain image, in the
      images' order. */
  method CreateImageViews(driver: Driver, device: Handle, images: seq<Handle>, format: Format)
    returns (views: seq<Handle>)
    requires driver.Valid() && IsLive(driver.live, device, DeviceKind)
    requires forall image :: image in images ==> IsLive(driver.live, image, SwapchainImageKind)
    modifies driver
    ensures driver.Valid() && driver.events == old(driver.events)
    ensures |views| == |images|
    ensures ImageViewsCreated(old(driver.live), driver.live, device, images, format, views)
  {
    views := [];
    for i := 0 to |images|
      invariant driver.Valid() && driver.events == old(driver.events) && |views| == i
      invariant ImageViewsCreated(old(driver.live), driver.live, device, images, format, views)
    {
      LiveAfterExtends(old(driver.live), driver.live, Elems(views), device, DeviceKind);
      LiveAfterExtends(old(driver.live), driver.live, Elems(views), images[i], SwapchainImageKind);
      ghost var mid := driver.live;
      var view := driver.Create(ImageView(device, images[i], format));
      ImageViewsAppend(old(driver.live), mid, driver.live, device, images, format, views, view);
      views := views + [view];
    }
  }

  /** The first `|framebuffers|` views each have a fresh single-layer
      framebuffer of the given extent on `renderPass`, in the views'
      order. */
  ghost predicate FramebuffersCreated(before: map<Handle, VkObject>, after: map<Handle, VkObject>,
                                      device: Handle, views: seq<Handle>, renderPass: Handle, extent: Extent2D,
                                      framebuffers: seq<Handle>)
  {
    && |framebuffers| <= |views| && Distinct(framebuffers)
    && Extends(before, after, Elems(framebuffers))
    && (forall i :: 0 <= i < |framebuffers| ==>
          after[framebuffers[i]] == Framebuffer(device, renderPass, views[i], extent.width, extent.height, 1))
  }

  lemma FramebuffersAppend(before: map<Handle, VkObject>, mid: map<Handle, VkObject>, after: map<Handle, VkObject>,
                           device: Handle, views: seq<Handle>, renderPass: Handle, extent: Extent2D,
                           framebuffers: seq<Handle>, framebuffer: Handle)
    requires FramebuffersCreated(before, mid, device, views, renderPass, extent, framebuffers)
    requires |framebuffers| < |views| && framebuffer !in mid
    requires after == mid[framebuffer := Framebuffer(device, renderPass, views[|framebuffers|],
                                                     extent.width, extent.height, 1)]
    ensures FramebuffersCreated(before, after, device, views, renderPass, extent, framebuffers + [framebuffer])
  {
    AppendFresh(framebuffers, framebuffer);
  }

  /** `create_framebuffers`: one single-layer framebuffer per image view, in
      the views' order, each as large as the swapchain extent. */
  method CreateFramebuffers(driver: Driver, device: Handle, views: seq<Handle>, renderPass: Handle, extent: Extent2D)
    returns (framebuffers: seq<Handle>)
    requires driver.Valid() && IsLive(driver.live, device, DeviceKind)
    requires IsLive(driver.live, renderPass, RenderPassKind)
    requires forall view :: view in views ==> IsLive(driver.live, view, ImageViewKind)
    modifies driver
    ensures driver.Valid() && driver.events == old(driver.events)
    ensures |framebuffers| == |views|
    ensures FramebuffersCreated(old(driver.live), driver.live, device, views, renderPass, extent, framebuffers)
  {
    framebuffers := [];
    for i := 0 to |views|
      invariant driver.Valid() && driver.events == old(driver.events) && |framebuffers| == i
      invariant FramebuffersCreated(old(driver.live), driver.live, device, views, renderPass, extent, framebuffers)
    {
      LiveAfterExtends(old(driver.live), driver.live, Elems(framebuffers), device, DeviceKind);
      LiveAfterExtends(old(driver.live), driver.live, Elems(framebuffers), renderPass, RenderPassKind);
      LiveAfterExtends(old(driver.live), driver.live, Elems(framebuffers), views[i], ImageViewKind);
      ghost var mid := driver.live;
      var framebuffer := driver.Create(Framebuffer(device, renderPass, views[i], extent.width, extent.height, 1));
      FramebuffersAppend(old(driver.live), mid, driver.live, device, views, renderPass, extent,
                         framebuffers, framebuffer);
      framebuffers := framebuffers + [framebuffer];
    }
  }

  /** `create_command_pool`: a pool on the graphics family whose buffers can
      be reset one by one. */
  method CreateCommandPool(driver: Driver, device: Handle, queueFamilyIndex: nat) returns (pool: Handle)
    requires driver.Valid() && IsLive(driver.live, device, DeviceKind)
    modifies driver
    ensures driver.Valid() && driver.events == old(driver.events)
    ensures pool !in old(driver.live)
    ensures driver.live == old(driver.live)[pool := CommandPool(device, queueFamilyIndex, true)]
  {
    pool := driver.Create(CommandPool(device, queueFamilyIndex, true));
  }

  /** `create_command_buffers`: `MAX_FRAMES_IN_FLIGHT` primary buffers from
      the pool. */
  method CreateCommandBuffers(driver: Driver, pool: Handle) returns (buffers: seq<Handle>)
    requires driver.Valid() && IsLive(driver.live, pool, CommandPoolKind)
    modifies driver
    ensures driver.Valid() && driver.events == old(driver.events)
    ensures |buffers| == MAX_FRAMES_IN_FLIGHT && Distinct(buffers)
    ensures Extends(old(driver.live), driver.live, Elems(buffers))
    ensures forall h :: h in buffers ==> driver.live[h] == CommandBuffer(pool, true)
  {
    buffers := driver.CreateMany(CommandBuffer(pool, true), MAX_FRAMES_IN_FLIGHT);
  }

  /** One slot of `create_sync_objects`: two semaphores and a signalled
      fence. */
  method CreateSlotSyncObjects(driver: Driver, device: Handle)
    returns (imageAvailable: Handle, renderFinished: Handle, inFlight: Handle)
    requires driver.Valid() && IsLive(driver.live, device, DeviceKind)
    modifies driver
    ensures driver.Valid() && driver.events == old(driver.events)
    ensures imageAvailable != renderFinished && imageAvailable != inFlight && renderFinished != inFlight
    ensures Extends(old(driver.live), driver.live, {imageAvailable, renderFinished, inFlight})
    ensures driver.live[imageAvailable] == Semaphore(device) && driver.live[renderFinished] == Semaphore(device)
    ensures driver.live[inFlight] == Fence(device, true)
  {
    imageAvailable := driver.Create(Semaphore(device));
    renderFinished := driver.Create(Semaphore(device));
    inFlight := driver.Create(Fence(device, true));
  }

  /** The state `create_sync_objects` builds: three duplicate-free lists
      of fresh objects, the two semaphore lists disjoint, every semaphore
      and every signalled fence on `device`. */
  ghost predicate SyncObjectsCreated(before: map<Handle, VkObject>, after: map<Handle, VkObject>, device: Handle,
                                     imageAvailable: seq<Handle>, renderFinished: seq<Handle>, inFlight: seq<Handle>)
  {
    && Distinct(imageAvailable) && Distinct(renderFinished) && Distinct(inFlight)
    && Elems(imageAvailable) !! Elems(renderFinished)
    && Extends(before, after, Elems(imageAvailable) + Elems(renderFinished) + Elems(inFlight))
    && (forall h :: h in imageAvailable ==> after[h] == Semaphore(device))
    && (forall h :: h in renderFinished ==> after[h] == Semaphore(device))
    && (forall h :: h in inFlight ==> after[h] == Fence(device, true))
  }

  /** One more slot keeps the lists in that shape. */
  lemma SyncObjectsAppend(before: map<Handle, VkObject>, mid: map<Handle, VkObject>, after: map<Handle, VkObject>,
                          device: Handle, imageAvailable: seq<Handle>, renderFinished: seq<Handle>, inFlight: seq<Handle>,
                          a: Handle, b: Handle, c: Handle)
    requires SyncObjectsCreated(before, mid, device, imageAvailable, renderFinished, inFlight)
    requires a != b && a != c && b != c && Extends(mid, after, {a, b, c})
    requires after[a] == Semaphore(device) && after[b] == Semaphore(device) && after[c] == Fence(device, true)
    ensures SyncObjectsCreated(before, after, device, imageAvailable + [a], renderFinished + [b], inFlight + [c])
  {
    AppendFresh(imageAvailable, a);
    AppendFresh(renderFinished, b);
    AppendFresh(inFlight, c);
    ExtendsTrans(before, mid, after, Elems(imageAvailable) + Elems(renderFinished) + Elems(inFlight), {a, b, c});
    assert Elems(imageAvailable + [a]) + Elems(renderFinished + [b]) + Elems(inFlight + [c])
        == Elems(imageAvailable) + Elems(renderFinished) + Elems(inFlight) + {a, b, c};
  }

  /** `create_sync_objects`: for each of the `MAX_FRAMES_IN_FLIGHT` slots an
      image-available semaphore, a render-finished semaphore and a fence
      created signalled, as three parallel lists. */
  method CreateSyncObjects(driver: Driver, device: Handle)
    returns (imageAvailable: seq<Handle>, renderFinished: seq<Handle>, inFlight: seq<Handle>)
    requires driver.Valid() && IsLive(driver.live, device, DeviceKind)
    modifies driver
    ensures driver.Valid() && driver.events == old(driver.events)
    ensures |imageAvailable| == |renderFinished| == |inFlight| == MAX_FRAMES_IN_FLIGHT
    ensures SyncObjectsCreated(old(driver.live), driver.live, device, imageAvailable, renderFinished, inFlight)
  {
    imageAvailable, renderFinished, inFlight := [], [], [];
    for i := 0 to MAX_FRAMES_IN_FLIGHT
      invariant driver.Valid() && driver.events == old(driver.events)
      invariant |imageAvailable| == |renderFinished| == |inFlight| == i
      invariant SyncObjectsCreated(old(driver.live), driver.live, device, imageAvailable, renderFinished, inFlight)
    {
      LiveAfterExtends(old(driver.live), driver.live,
                       Elems(imageAvailable) + Elems(renderFinished) + Elems(inFlight), device, DeviceKind);
      ghost var mid := driver.live;
      var imageSemaphore, renderSemaphore, fence := CreateSlotSyncObjects(driver, device);
      SyncObjectsAppend(old(driver.live), mid, driver.live, device, imageAvailable, renderFinished, inFlight,
                        imageSemaphore, renderSemaphore, fence);
      imageAvailable := imageAvailable + [imageSemaphore];
      renderFinished := renderFinished + [renderSemaphore];
      inFlight := inFlight + [fence];
    }
  }
}
