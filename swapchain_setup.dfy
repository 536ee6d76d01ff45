/** The negotiation in `create_swapchain`: surface format, image extent and
    image count, chosen from what the surface reports
    (`VkSurfaceCapabilitiesKHR` and the surface-format list of the Vulkan
    1.3 specification, chapter "Window System Integration"). */
module SwapchainSetup {
  import opened VkTypes

  const PREFERRED_FORMAT: SurfaceFormat :=
    SurfaceFormat(FORMAT_B8G8R8A8_SRGB, COLOR_SPACE_SRGB_NONLINEAR)

  /** The predicate given to `find`: 8-bit BGRA sRGB in the non-linear sRGB
      colour space, which is exactly the pair `PREFERRED_FORMAT`. */
  predicate IsPreferred(f: SurfaceFormat): (b: bool)
    ensures b <==> f == PREFERRED_FORMAT
  {
    f.format == FORMAT_B8G8R8A8_SRGB && f.colorSpace == COLOR_SPACE_SRGB_NONLINEAR
  }

  /** `iter().find(..)`: the position of the first preferred entry. */
  function FindPreferred(formats: seq<SurfaceFormat>): (r: Option<nat>)
    ensures r.Some? ==> r.value < |formats| && IsPreferred(formats[r.value])
    ensures r.Some? ==> forall j :: 0 <= j < r.value ==> !IsPreferred(formats[j])
    ensures r.None? <==> forall j :: 0 <= j < |formats| ==> !IsPreferred(formats[j])
  {
    if formats == [] then None
    else if IsPreferred(formats[0]) then Some(0)
    else
      match FindPreferred(formats[1..])
      case None => None
      case Some(k) => Some(k + 1)
  }

  /** The surface format: the preferred one when the surface lists it,
      otherwise the first listed. Indexing `[0]` panics on an empty list. */
  function ChooseSurfaceFormat(formats: seq<SurfaceFormat>): (r: SurfaceFormat)
    requires |formats| > 0
    ensures r in formats
    ensures r == if PREFERRED_FORMAT in formats then PREFERRED_FORMAT else formats[0]
  {
    match FindPreferred(formats)
    case Some(k) => formats[k]
    case None => formats[0]
  }

  /** `Ord::clamp`, which panics unless `lo <= hi`. */
  function Clamp(v: u32, lo: u32, hi: u32): (r: u32)
    requires lo <= hi
    ensures lo <= r <= hi
    ensures lo <= v <= hi ==> r == v
    ensures v < lo ==> r == lo
    ensures hi < v ==> r == hi
  {
    if v < lo then lo else if v > hi then hi else v
  }

  function Distance(a: int, b: int): nat {
    if a < b then b - a else a - b
  }

  /** The clamped value is the point of `[lo, hi]` nearest to `v`. */
  lemma ClampIsNearest(v: u32, lo: u32, hi: u32, w: u32)
    requires lo <= w <= hi
    ensures Distance(Clamp(v, lo, hi), v) <= Distance(w, v)
  {
  }

  /** `currentExtent.width == u32::MAX` means the surface lets the
      application choose the size. */
  predicate ApplicationChoosesExtent(caps: SurfaceCapabilities) {
    caps.currentExtent.width == U32_MAX
  }

  /** What the two `clamp` calls need of the surface's extent bounds. */
  predicate ExtentBoundsOrdered(caps: SurfaceCapabilities) {
    caps.minImageExtent.width <= caps.maxImageExtent.width
    && caps.minImageExtent.height <= caps.maxImageExtent.height
  }

  predicate WithinExtentBounds(e: Extent2D, caps: SurfaceCapabilities) {
    caps.minImageExtent.width <= e.width <= caps.maxImageExtent.width
    && caps.minImageExtent.height <= e.height <= caps.maxImageExtent.height
  }

  /** The swapchain extent: the surface's current extent verbatim when it is
      defined, otherwise the window size clamped componentwise into the
      surface's bounds. */
  function ChooseExtent(caps: SurfaceCapabilities, width: u32, height: u32): (r: Extent2D)
    requires ApplicationChoosesExtent(caps) ==> ExtentBoundsOrdered(caps)
    ensures !ApplicationChoosesExtent(caps) ==> r == caps.currentExtent
    ensures ApplicationChoosesExtent(caps) ==> WithinExtentBounds(r, caps)
    ensures ApplicationChoosesExtent(caps) && caps.minImageExtent.width <= width <= caps.maxImageExtent.width ==>
              r.width == width
    ensures ApplicationChoosesExtent(caps) && caps.minImageExtent.height <= height <= caps.maxImageExtent.height ==>
              r.height == height
    ensures ApplicationChoosesExtent(caps) && width < caps.minImageExtent.width ==>
              r.width == caps.minImageExtent.width
    ensures ApplicationChoosesExtent(caps) && caps.maxImageExtent.width < width ==>
              r.width == caps.maxImageExtent.width
    ensures ApplicationChoosesExtent(caps) && height < caps.minImageExtent.height ==>
              r.height == caps.minImageExtent.height
    ensures ApplicationChoosesExtent(caps) && caps.maxImageExtent.height < height ==>
              r.height == caps.maxImageExtent.height
  {
    if caps.currentExtent.width != U32_MAX then caps.currentExtent
    else
      Extent2D(
        Clamp(width, caps.minImageExtent.width, caps.maxImageExtent.width),
        Clamp(height, caps.minImageExtent.height, caps.maxImageExtent.height))
  }

  /** A surface that lets the application choose, with bounds (100,100) to
      (4000,4000), turns a requested (50,6000) into (100,4000). */
  lemma ChooseExtentClampsBothWays(transform: nat)
    ensures ChooseExtent(
              SurfaceCapabilities(2, 0, Extent2D(U32_MAX, U32_MAX),
                Extent2D(100, 100), Extent2D(4000, 4000), transform),
              50, 6000) == Extent2D(100, 4000)
  {
  }

  /** Each dimension is clamped on its own: with the same bounds, a requested
      (500,6000) keeps its fitting width and becomes (500,4000). */
  lemma ChooseExtentPerDimension(transform: nat)
    ensures ChooseExtent(
              SurfaceCapabilities(2, 0, Extent2D(U32_MAX, U32_MAX),
                Extent2D(100, 100), Extent2D(4000, 4000), transform),
              500, 6000) == Extent2D(500, 4000)
  {
  }

  /** `min`. */
  function Min(a: int, b: int): int {
    if a <= b then a else b
  }

  /** The requested image count: one more than the surface's minimum, capped
      by its maximum unless that is 0, which means no limit. `+ 1` on a
      `u32` must not overflow. */
  function ChooseImageCount(caps: SurfaceCapabilities): (r: u32)
    requires caps.minImageCount < U32_MAX
    ensures caps.maxImageCount == 0 ==> r == caps.minImageCount + 1
    ensures r <= caps.minImageCount + 1
    ensures caps.maxImageCount > 0 ==> r <= caps.maxImageCount
    ensures r == caps.minImageCount + 1 || r == caps.maxImageCount
  {
    Min(caps.minImageCount + 1, if caps.maxImageCount > 0 then caps.maxImageCount else U32_MAX)
  }

  /** Within the limits Vulkan guarantees for a surface (at least one image,
      a nonzero maximum no smaller than the minimum), the count never drops
      below the minimum, never exceeds a nonzero maximum, and is one above
      the minimum exactly when the maximum leaves room. */
  lemma ImageCountWithinSurfaceLimits(caps: SurfaceCapabilities)
    requires 1 <= caps.minImageCount < U32_MAX
    requires caps.maxImageCount == 0 || caps.minImageCount <= caps.maxImageCount
    ensures caps.minImageCount <= ChooseImageCount(caps)
    ensures caps.maxImageCount == 0 || ChooseImageCount(caps) <= caps.maxImageCount
    ensures ChooseImageCount(caps) == caps.minImageCount + 1 <==>
              caps.maxImageCount == 0 || caps.minImageCount < caps.maxImageCount
  {
  }

  /** min=2, max=0 gives 3; min=2, max=2 gives 2. */
  lemma ImageCountExamples(e: Extent2D, transform: nat)
    ensures ChooseImageCount(SurfaceCapabilities(2, 0, e, e, e, transform)) == 3
    ensures ChooseImageCount(SurfaceCapabilities(2, 2, e, e, e, transform)) == 2
  {
  }

  /** `VK_PRESENT_MODE_FIFO_KHR`. */
  const PRESENT_MODE_FIFO: nat := 2

  /** The fields of `VkSwapchainCreateInfoKHR` that the negotiation decides;
      the rest (colour-attachment usage, exclusive sharing, opaque alpha) are
      fixed. */
  datatype SwapchainCreateInfo = SwapchainCreateInfo(
    surface: Handle,
    minImageCount: u32,
    imageFormat: Format,
    imageColorSpace: ColorSpace,
    imageExtent: Extent2D,
    imageArrayLayers: nat,
    preTransform: nat,
    presentMode: nat,
    clipped: bool)

  /** Whether the surface's report meets what the negotiation needs not to
      panic: a non-empty format list, ordered clamp bounds when the
      application chooses the extent, and a minimum count that `+ 1` does
      not overflow. */
  predicate Negotiable(caps: SurfaceCapabilities, formats: seq<SurfaceFormat>) {
    |formats| > 0
    && (ApplicationChoosesExtent(caps) ==> ExtentBoundsOrdered(caps))
    && caps.minImageCount < U32_MAX
  }

  /** The create-info built by `create_swapchain`. */
  function SwapchainCreateInfoFor(
    surface: Handle, caps: SurfaceCapabilities, formats: seq<SurfaceFormat>,
    width: u32, height: u32): (info: SwapchainCreateInfo)
    requires Negotiable(caps, formats)
    ensures info.surface == surface && info.imageArrayLayers == 1 && info.clipped
    ensures info.presentMode == PRESENT_MODE_FIFO
    ensures SurfaceFormat(info.imageFormat, info.imageColorSpace) == ChooseSurfaceFormat(formats)
    ensures SurfaceFormat(info.imageFormat, info.imageColorSpace) in formats
    ensures info.minImageCount == ChooseImageCount(caps)
    ensures info.imageExtent == ChooseExtent(caps, width, height)
    ensures info.preTransform == caps.currentTransform
  {
    var format := ChooseSurfaceFormat(formats);
    SwapchainCreateInfo(
      surface,
      ChooseImageCount(caps),
      format.format,
      format.colorSpace,
      ChooseExtent(caps, width, height),
      1,
      caps.currentTransform,
      PRESENT_MODE_FIFO,
      true)
  }
}
