/** The Vulkan implementation as the device code sees it: a table of live
    objects keyed by opaque handles, which creation calls extend and
    destruction calls shrink, and a log of the destruction-side calls
    (`device_wait_idle` and every `destroy_*`). */
module VkDriver {
  import opened VkTypes
  import opened SwapchainSetup
  import opened VertexLayout

  /** A live Vulkan object with the creation parameters the device code
      passes. */
  datatype VkObject =
    | Instance
    | DebugMessenger(instance: Handle)
    | Surface(instance: Handle)
    | Device(instance: Handle, physicalDevice: Handle, queueFamilyIndex: nat, queueCount: nat,
             extensions: seq<string>)
    | Swapchain(device: Handle, info: SwapchainCreateInfo)
    | SwapchainImage(swapchain: Handle)
    | ImageView(device: Handle, image: Handle, format: Format)
    | RenderPass(device: Handle, format: Format)
    | ShaderModule(device: Handle)
    | PipelineLayout(device: Handle)
    | Pipeline(device: Handle, layout: Handle, renderPass: Handle,
               binding: BindingDescription, attributes: seq<AttributeDescription>)
    | Framebuffer(device: Handle, renderPass: Handle, attachment: Handle,
                  width: u32, height: u32, layers: nat)
    | CommandPool(device: Handle, queueFamilyIndex: nat, resettable: bool)
    | CommandBuffer(pool: Handle, primary: bool)
    | Semaphore(device: Handle)
    | Fence(device: Handle, signaled: bool)

  datatype ObjectKind =
    | InstanceKind | DebugMessengerKind | SurfaceKind | DeviceKind
    | SwapchainKind | SwapchainImageKind | ImageViewKind | RenderPassKind
    | ShaderModuleKind | PipelineLayoutKind | PipelineKind | FramebufferKind
    | CommandPoolKind | CommandBufferKind | SemaphoreKind | FenceKind

  function KindOf(o: VkObject): ObjectKind {
    match o
    case Instance => InstanceKind
    case DebugMessenger(_) => DebugMessengerKind
    case Surface(_) => SurfaceKind
    case Device(_, _, _, _, _) => DeviceKind
    case Swapchain(_, _) => SwapchainKind
    case SwapchainImage(_) => SwapchainImageKind
    case ImageView(_, _, _) => ImageViewKind
    case RenderPass(_, _) => RenderPassKind
    case ShaderModule(_) => ShaderModuleKind
    case PipelineLayout(_) => PipelineLayoutKind
    case Pipeline(_, _, _, _, _) => PipelineKind
    case Framebuffer(_, _, _, _, _, _) => FramebufferKind
    case CommandPool(_, _, _) => CommandPoolKind
    case CommandBuffer(_, _) => CommandBufferKind
    case Semaphore(_) => SemaphoreKind
    case Fence(_, _) => FenceKind
  }

  /** A reference from one object to another it was created from or uses,
      with the kind the referenced object must have. */
  datatype Ref = Ref(handle: Handle, kind: ObjectKind)

  /** The objects an object refers to: its parent in Vulkan's object
      hierarchy and the objects its create-info names. */
  function Refs(o: VkObject): set<Ref> {
    match o
    case Instance => {}
    case DebugMessenger(i) => {Ref(i, InstanceKind)}
    case Surface(i) => {Ref(i, InstanceKind)}
    case Device(i, _, _, _, _) => {Ref(i, InstanceKind)}
    case Swapchain(d, info) => {Ref(d, DeviceKind), Ref(info.surface, SurfaceKind)}
    case SwapchainImage(s) => {Ref(s, SwapchainKind)}
    case ImageView(d, image, _) => {Ref(d, DeviceKind), Ref(image, SwapchainImageKind)}
    case RenderPass(d, _) => {Ref(d, DeviceKind)}
    case ShaderModule(d) => {Ref(d, DeviceKind)}
    case PipelineLayout(d) => {Ref(d, DeviceKind)}
    case Pipeline(d, layout, renderPass, _, _) =>
      {Ref(d, DeviceKind), Ref(layout, PipelineLayoutKind), Ref(renderPass, RenderPassKind)}
    case Framebuffer(d, renderPass, attachment, _, _, _) =>
      {Ref(d, DeviceKind), Ref(renderPass, RenderPassKind), Ref(attachment, ImageViewKind)}
    case CommandPool(d, _, _) => {Ref(d, DeviceKind)}
    case CommandBuffer(pool, _) => {Ref(pool, CommandPoolKind)}
    case Semaphore(d) => {Ref(d, DeviceKind)}
    case Fence(d, _) => {Ref(d, DeviceKind)}
  }

  /** Position of a kind in a destruction order that Vulkan's hierarchy
      admits: every object is ranked below everything it refers to. */
  function TeardownRank(k: ObjectKind): nat {
    match k
    case SemaphoreKind => 0
    case FenceKind => 1
    case CommandBufferKind => 2
    case CommandPoolKind => 3
    case FramebufferKind => 4
    case PipelineKind => 5
    case PipelineLayoutKind => 6
    case ShaderModuleKind => 6
    case RenderPassKind => 7
    case ImageViewKind => 8
    case SwapchainImageKind => 9
    case SwapchainKind => 10
    case DeviceKind => 11
    case SurfaceKind => 12
    case DebugMessengerKind => 13
    case InstanceKind => 14
  }

  /** Every reference points strictly up the rank order, so destroying in
      ascending rank never leaves a reference dangling. */
  lemma RefsPointUpward(o: VkObject, r: Ref)
    requires r in Refs(o)
    ensures TeardownRank(KindOf(o)) < TeardownRank(r.kind)
  {
  }

  /** No object ever refers to a shader module: a pipeline records no
      shader stages, so destroying a shader module is always allowed. */
  lemma NothingRefersToShaderModules(o: VkObject, r: Ref)
    requires r in Refs(o)
    ensures r.kind != ShaderModuleKind
  {
  }

  /** Objects that Vulkan releases together with another one: command
      buffers with their pool, presentable images with their swapchain. */
  predicate FreedWith(o: VkObject, h: Handle) {
    (o.CommandBuffer? && o.pool == h) || (o.SwapchainImage? && o.swapchain == h)
  }

  datatype Event =
    | DeviceWaitIdle(device: Handle, succeeded: bool)
    | Destroyed(handle: Handle, kind: ObjectKind)

  /** `h` names a live object of kind `k`. */
  ghost predicate IsLive(live: map<Handle, VkObject>, h: Handle, k: ObjectKind) {
    h in live && KindOf(live[h]) == k
  }

  /** Every object `o` refers to is live and of the expected kind. */
  ghost predicate WellFormed(live: map<Handle, VkObject>, o: VkObject) {
    forall r :: r in Refs(o) ==> IsLive(live, r.handle, r.kind)
  }

  /** No live object refers to a destroyed one. */
  ghost predicate Closed(live: map<Handle, VkObject>) {
    forall h {:trigger WellFormed(live, live[h])} :: h in live ==> WellFormed(live, live[h])
  }

  /** Adding a well-formed object under a fresh handle keeps the table
      closed. */
  lemma ClosedExtend(live: map<Handle, VkObject>, h: Handle, obj: VkObject)
    requires Closed(live) && h !in live && WellFormed(live, obj)
    ensures Closed(live[h := obj])
  {
    var after := live[h := obj];
    forall k | k in after
      ensures WellFormed(after, after[k])
    {
      if k != h {
        assert WellFormed(live, live[k]);
      }
    }
  }

  /** Removing a set of objects that no survivor refers to keeps the table
      closed. */
  lemma ClosedRemove(live: map<Handle, VkObject>, gone: set<Handle>)
    requires Closed(live)
    requires forall k, r :: k in live && k !in gone && r in Refs(live[k]) ==> r.handle !in gone
    ensures Closed(map k | k in live && k !in gone :: live[k])
  {
    var after := map k | k in live && k !in gone :: live[k];
    forall k | k in after
      ensures WellFormed(after, after[k])
    {
      assert WellFormed(live, live[k]);
    }
  }

  /** What destroying `h` removes: `h` and the objects freed with it. */
  function Gone(live: map<Handle, VkObject>, h: Handle): set<Handle> {
    {h} + set k | k in live && FreedWith(live[k], h)
  }

  /** Vulkan's rule for `vkDestroy*`: no object that survives the call
      refers to anything the call removes. */
  ghost predicate Destroyable(live: map<Handle, VkObject>, h: Handle) {
    forall k, r :: k in live && k !in Gone(live, h) && r in Refs(live[k]) ==>
      r.handle !in Gone(live, h)
  }

  /** Destroying an object of the lowest live rank is always allowed. */
  lemma DestroyableAtLowestRank(live: map<Handle, VkObject>, h: Handle)
    requires Closed(live) && h in live
    requires forall k :: k in live && k !in Gone(live, h) ==>
               TeardownRank(KindOf(live[h])) <= TeardownRank(KindOf(live[k]))
    ensures Destroyable(live, h)
  {
    forall k, r | k in live && k !in Gone(live, h) && r in Refs(live[k])
      ensures r.handle !in Gone(live, h)
    {
      assert WellFormed(live, live[k]);
      RefsPointUpward(live[k], r);
      if r.handle in Gone(live, h) && r.handle != h {
        var c := r.handle;
        assert WellFormed(live, live[c]);
        var ref := if live[c].CommandBuffer? then Ref(live[c].pool, CommandPoolKind)
                   else Ref(live[c].swapchain, SwapchainKind);
        RefsPointUpward(live[c], ref);
      }
    }
  }

  /** An object freed with `h` ranks below it. */
  lemma FreedChildRank(live: map<Handle, VkObject>, k: Handle, h: Handle)
    requires Closed(live) && k in live && FreedWith(live[k], h)
    ensures h in live && TeardownRank(KindOf(live[k])) < TeardownRank(KindOf(live[h]))
  {
    assert WellFormed(live, live[k]);
    var r := if live[k].CommandBuffer? then Ref(h, CommandPoolKind) else Ref(h, SwapchainKind);
    RefsPointUpward(live[k], r);
  }

  /** Only pools and swapchains free other objects with them. */
  lemma FreesNothingElse(live: map<Handle, VkObject>, h: Handle)
    requires Closed(live) && h in live
    requires KindOf(live[h]) != CommandPoolKind && KindOf(live[h]) != SwapchainKind
    ensures Gone(live, h) == {h}
  {
    forall k | k in live
      ensures !FreedWith(live[k], h)
    {
      assert WellFormed(live, live[k]);
      if live[k].CommandBuffer? {
        assert Ref(live[k].pool, CommandPoolKind) in Refs(live[k]);
      } else if live[k].SwapchainImage? {
        assert Ref(live[k].swapchain, SwapchainKind) in Refs(live[k]);
      }
    }
  }

  /** Destroying an object of a kind nothing refers to is always allowed,
      and frees nothing else. */
  lemma DestroyableWhenUnreferenced(live: map<Handle, VkObject>, h: Handle)
    requires Closed(live) && h in live
    requires forall k, r :: k in live && r in Refs(live[k]) ==> r.kind != KindOf(live[h])
    ensures Gone(live, h) == {h} && Destroyable(live, h)
  {
    forall k | k in live
      ensures !FreedWith(live[k], h)
    {
      assert WellFormed(live, live[k]);
      if live[k].CommandBuffer? {
        assert Ref(live[k].pool, CommandPoolKind) in Refs(live[k]);
      } else if live[k].SwapchainImage? {
        assert Ref(live[k].swapchain, SwapchainKind) in Refs(live[k]);
      }
    }
    forall k, r | k in live && k !in Gone(live, h) && r in Refs(live[k])
      ensures r.handle !in Gone(live, h)
    {
      assert WellFormed(live, live[k]);
    }
  }

  /** `after` is `before` plus the objects named by `created`, none of which
      was live before; nothing that was live changed. */
  ghost predicate Extends(before: map<Handle, VkObject>, after: map<Handle, VkObject>, created: set<Handle>) {
    && (forall h :: h in created ==> h !in before)
    && after.Keys == before.Keys + created
    && (forall h :: h in before ==> after[h] == before[h])
  }

  /** `before` without the handles in `gone`, nothing else changed. */
  ghost predicate Removes(before: map<Handle, VkObject>, after: map<Handle, VkObject>, gone: set<Handle>) {
    && after.Keys == before.Keys - gone
    && (forall h :: h in after ==> after[h] == before[h])
  }

  /** Two extensions in a row are one extension. */
  lemma ExtendsTrans(a: map<Handle, VkObject>, b: map<Handle, VkObject>, c: map<Handle, VkObject>,
                     x: set<Handle>, y: set<Handle>)
    requires Extends(a, b, x) && Extends(b, c, y)
    ensures Extends(a, c, x + y)
  {
  }

  /** Two removals in a row are one removal. */
  lemma RemovesTrans(a: map<Handle, VkObject>, b: map<Handle, VkObject>, c: map<Handle, VkObject>,
                     x: set<Handle>, y: set<Handle>)
    requires Removes(a, b, x) && Removes(b, c, y)
    ensures Removes(a, c, x + y)
  {
  }

  /** Creating temporaries, then the objects to keep, then destroying the
      temporaries is an extension by the objects kept. */
  lemma ExtendsAroundTemporaries(a: map<Handle, VkObject>, b: map<Handle, VkObject>, c: map<Handle, VkObject>,
                                 d: map<Handle, VkObject>, temporaries: set<Handle>, kept: set<Handle>)
    requires Extends(a, b, temporaries) && Extends(b, c, kept) && Removes(c, d, temporaries)
    ensures Extends(a, d, kept)
  {
  }

  /** An object live before an extension is still live, unchanged. */
  lemma LiveAfterExtends(before: map<Handle, VkObject>, after: map<Handle, VkObject>, created: set<Handle>,
                         h: Handle, k: ObjectKind)
    requires Extends(before, after, created) && IsLive(before, h, k)
    ensures IsLive(after, h, k) && after[h] == before[h]
  {
  }

  class Driver {
    /** The live objects. */
    var live: map<Handle, VkObject>
    /** The next handle the implementation hands out. */
    var next: Handle
    /** The destruction-side calls made so far, in order. */
    var events: seq<Event>

    /** Handles are never reused, no live object refers to a dead one, and
        no handle is ever destroyed twice: a destroyed handle is no longer
        live, and the log names it once. */
    ghost predicate Valid()
      reads this
    {
      && (forall h :: h in live ==> h < next)
      && Closed(live)
      && (forall i :: 0 <= i < |events| && events[i].Destroyed? ==>
            events[i].handle < next && events[i].handle !in live)
      && (forall i, j :: 0 <= i < j < |events| && events[i].Destroyed? && events[j].Destroyed? ==>
            events[i].handle != events[j].handle)
    }

    constructor ()
      ensures Valid() && live == map[] && events == []
    {
      live, next, events := map[], 0, [];
    }

    /** A `create_*` call: a fresh handle names the new object, whose
        references must be live. */
    method Create(obj: VkObject) returns (h: Handle)
      requires Valid() && WellFormed(live, obj)
      modifies this
      ensures Valid()
      ensures h !in old(live) && live == old(live)[h := obj]
      ensures events == old(events)
    {
      h := next;
      ClosedExtend(live, h, obj);
      live := live[h := obj];
      next := next + 1;
    }

    /** An allocation call that returns `count` objects at once
      (`allocate_command_buffers`, `get_swapchain_images`). */
    method CreateMany(obj: VkObject, count: nat) returns (hs: seq<Handle>)
      requires Valid() && WellFormed(live, obj)
      modifies this
      ensures Valid()
      ensures |hs| == count && Distinct(hs)
      ensures Extends(old(live), live, Elems(hs))
      ensures forall h :: h in hs ==> live[h] == obj
      ensures events == old(events)
    {
      hs := [];
      while |hs| < count
        invariant Valid() && WellFormed(live, obj) && events == old(events)
        invariant |hs| <= count && Distinct(hs)
        invariant Extends(old(live), live, Elems(hs))
        invariant forall h :: h in hs ==> live[h] == obj
      {
        var h := Create(obj);
        AppendFresh(hs, h);
        hs := hs + [h];
      }
    }

    /** A `destroy_*` call on a live object that nothing surviving refers
        to; the objects freed with it go too. */
    method Destroy(h: Handle)
      requires Valid() && h in live && Destroyable(live, h)
      modifies this
      ensures Valid()
      ensures Removes(old(live), live, Gone(old(live), h))
      ensures events == old(events) + [Destroyed(h, KindOf(old(live)[h]))]
    {
      events := events + [Destroyed(h, KindOf(live[h]))];
      ClosedRemove(live, Gone(live, h));
      live := map k | k in live && k !in Gone(live, h) :: live[k];
    }

    /** `device_wait_idle`; its outcome is reported by the implementation. */
    method WaitIdle(device: Handle, succeeded: bool)
      requires Valid()
      modifies this
      ensures Valid()
      ensures live == old(live) && next == old(next)
      ensures events == old(events) + [DeviceWaitIdle(device, succeeded)]
    {
      events := events + [DeviceWaitIdle(device, succeeded)];
    }
  }
}
