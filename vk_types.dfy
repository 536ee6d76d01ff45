/** Plain-value types shared by the Vulkan device model: opaque handles,
    the fields of the Vulkan structures the device code reads, the
    format constants it compares against and the error type of its
    `Result`s. */
module VkTypes {

  /** `u32::MAX`, which Vulkan uses as the "undefined" sentinel of a
      surface's current extent. */
  const U32_MAX: int := 0xFFFF_FFFF

  type u32 = x: int | 0 <= x <= U32_MAX

  /** Every Vulkan object is an opaque, non-dispatchable identifier here. */
  type Handle = nat

  /** `MAX_FRAMES_IN_FLIGHT` at device.rs line 8. */
  const MAX_FRAMES_IN_FLIGHT: nat := 3

  /** `VkPhysicalDeviceType`. */
  datatype PhysicalDeviceType = Other | IntegratedGpu | DiscreteGpu | VirtualGpu | Cpu

  /** `VkFormat`, kept as its numeric value. */
  type Format = int

  const FORMAT_R32G32_SFLOAT: Format := 103
  const FORMAT_R32G32B32_SFLOAT: Format := 106
  const FORMAT_B8G8R8A8_SRGB: Format := 50

  /** `VkColorSpaceKHR`, kept as its numeric value. */
  type ColorSpace = int

  const COLOR_SPACE_SRGB_NONLINEAR: ColorSpace := 0

  datatype Extent2D = Extent2D(width: u32, height: u32)

  datatype SurfaceFormat = SurfaceFormat(format: Format, colorSpace: ColorSpace)

  /** The fields of `VkSurfaceCapabilitiesKHR` that the swapchain set-up reads. */
  datatype SurfaceCapabilities = SurfaceCapabilities(
    minImageCount: u32,
    maxImageCount: u32,
    currentExtent: Extent2D,
    minImageExtent: Extent2D,
    maxImageExtent: Extent2D,
    currentTransform: nat)

  /** `VkQueueFlags` is a 32-bit mask; bit 0 is `VK_QUEUE_GRAPHICS_BIT`. */
  const QUEUE_GRAPHICS_BIT: bv32 := 1

  datatype QueueFamilyProperties = QueueFamilyProperties(queueFlags: bv32, queueCount: u32)

  /** `queue_flags.contains(vk::QueueFlags::GRAPHICS)`: every bit of the
      argument is set in the mask. */
  predicate SupportsGraphics(family: QueueFamilyProperties) {
    family.queueFlags & QUEUE_GRAPHICS_BIT == QUEUE_GRAPHICS_BIT
  }

  datatype Option<T> = None | Some(value: T)

  /** The `Box<dyn Error>` results of the device code; the message is the
      string the source builds its error from. */
  datatype Result<T> = Ok(value: T) | Err(message: string)

  const NO_VULKAN_GPU: string := "No Vulkan-capable GPU found"
  const NO_SUITABLE_GPU: string := "No suitable GPU found"
  const NO_GRAPHICS_QUEUE: string := "No graphics queue family found"

  /** The elements of a sequence, as a set. */
  function Elems<T>(s: seq<T>): set<T> {
    set x | x in s
  }

  /** No element occurs twice. */
  predicate Distinct<T(==)>(s: seq<T>) {
    forall i, j :: 0 <= i < j < |s| ==> s[i] != s[j]
  }

  /** Appending an element not yet present keeps a sequence duplicate-free
      and adds exactly that element to its set. */
  lemma AppendFresh<T>(s: seq<T>, x: T)
    requires Distinct(s) && x !in s
    ensures Distinct(s + [x])
    ensures Elems(s + [x]) == Elems(s) + {x}
  {
  }
}
