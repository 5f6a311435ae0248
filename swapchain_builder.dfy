/**
 * Vulkanize/SwapchainBuilder.cs: validates the desired present mode and
 * surface format against what the surface supports, clamps the extent and
 * the image count as VkSurfaceCapabilitiesKHR prescribes, chooses the
 * sharing mode, creates the swapchain and one image view per image. Driver
 * answers (swapchain creation, the image list, image-view creation) are
 * inputs.
 */
module Swapchain {
  import opened Wrappers
  import opened VkTypes
  import opened Vulkanize
  import opened Device

  const IMAGE_USAGE_COLOR_ATTACHMENT_BIT: bv32 := 0x10
  const COMPOSITE_ALPHA_OPAQUE_BIT: bv32 := 0x1
  const IMAGE_VIEW_TYPE_2D: nat := 1
  const NULL_HANDLE: Handle := 0

  datatype SharingMode = Exclusive | Concurrent

  /** VkSwapchainCreateInfoKHR as handed to vkCreateSwapchainKHR. */
  datatype SwapchainCreateInfo = SwapchainCreateInfo(
    surface: Handle,
    minImageCount: uint32,
    imageFormat: Format,
    imageColorSpace: ColorSpace,
    imageExtent: Extent2D,
    imageArrayLayers: nat,
    imageUsage: bv32,
    imageSharingMode: SharingMode,
    queueFamilyIndices: seq<nat>,
    preTransform: nat,
    compositeAlpha: bv32,
    presentMode: PresentMode,
    clipped: bool)

  /** VkImageViewCreateInfo for one image. */
  datatype ImageViewCreateInfo = ImageViewCreateInfo(
    image: Handle,
    viewType: nat,
    format: Format,
    aspectMask: bv32,
    baseMipLevel: nat,
    levelCount: nat,
    baseArrayLayer: nat,
    layerCount: nat)

  /** A created view: the driver's handle and the request it was created from. */
  datatype ImageView = ImageView(handle: Handle, createInfo: ImageViewCreateInfo)

  datatype SwapchainInfo = SwapchainInfo(
    swapchain: Handle,
    images: seq<Handle>,
    imageViews: seq<ImageView>,
    format: Format)

  // ---------------------------------------------------------------------------
  // The extent

  /** System.Math.Clamp on unsigned integers: None where it throws, because min > max. */
  function Clamp(value: uint32, min: uint32, max: uint32): (r: Option<uint32>)
    ensures r.None? <==> min > max
    ensures r.Some? ==> min <= r.value <= max
    ensures r.Some? && min <= value <= max ==> r.value == value
  {
    if min > max then None
    else if value < min then Some(min)
    else if value > max then Some(max)
    else Some(value)
  }

  function Distance(a: int, b: int): nat
  {
    if a < b then b - a else a - b
  }

  /** The clamped value is the point of [min, max] nearest to the requested one. */
  lemma ClampIsNearest(value: uint32, min: uint32, max: uint32, x: uint32)
    requires min <= x <= max
    ensures Clamp(value, min, max).Some?
    ensures Distance(Clamp(value, min, max).value, value) <= Distance(x, value)
  {
  }

  /**
   * The extent the swapchain gets. A current width other than UINT32_MAX
   * fixes the extent to the current one; otherwise the desired width and
   * height are clamped independently into the surface's bounds, which fails
   * when a minimum exceeds its maximum.
   */
  function ValidateSwapExtent(capabilities: SurfaceCapabilities, desired: Extent2D): (r: Result<Extent2D, Failure>)
    ensures capabilities.currentExtent.width != UINT32_MAX ==> r == Ok(capabilities.currentExtent)
    ensures capabilities.currentExtent.width == UINT32_MAX ==>
              (r.Err? <==> capabilities.minImageExtent.width > capabilities.maxImageExtent.width ||
                           capabilities.minImageExtent.height > capabilities.maxImageExtent.height)
    ensures r.Err? ==> r.error == ExtentBoundsInverted
    ensures capabilities.currentExtent.width == UINT32_MAX && r.Ok? ==>
              var (lo, hi, e) := (capabilities.minImageExtent, capabilities.maxImageExtent, r.value);
              lo.width <= e.width <= hi.width && lo.height <= e.height <= hi.height &&
              (lo.width <= desired.width <= hi.width ==> e.width == desired.width) &&
              (lo.height <= desired.height <= hi.height ==> e.height == desired.height)
  {
    if capabilities.currentExtent.width != UINT32_MAX then Ok(capabilities.currentExtent)
    else
      var width := Clamp(desired.width, capabilities.minImageExtent.width, capabilities.maxImageExtent.width);
      var height := Clamp(desired.height, capabilities.minImageExtent.height, capabilities.maxImageExtent.height);
      if width.None? || height.None? then Err(ExtentBoundsInverted)
      else Ok(Extent2D(width.value, height.value))
  }

  // ---------------------------------------------------------------------------
  // The image count

  /**
   * One more than the minimum, in 32-bit unsigned arithmetic, lowered to the
   * maximum when there is one (maximum 0 means no limit) and it is exceeded.
   */
  function ImageCount(capabilities: SurfaceCapabilities): (count: uint32)
    ensures capabilities.minImageCount < UINT32_MAX && capabilities.maxImageCount == 0 ==>
              count == capabilities.minImageCount + 1
    ensures capabilities.minImageCount < UINT32_MAX && 0 < capabilities.maxImageCount &&
            capabilities.minImageCount <= capabilities.maxImageCount ==>
              capabilities.minImageCount <= count <= capabilities.maxImageCount
    ensures 0 < capabilities.maxImageCount ==> count <= capabilities.maxImageCount
  {
    var requested := (capabilities.minImageCount + 1) % 0x1_0000_0000;
    if capabilities.maxImageCount > 0 && requested > capabilities.maxImageCount then capabilities.maxImageCount
    else requested
  }

  /** A surface asking for at least two images gets three unless it allows only two. */
  lemma ThreeImagesFromMinimumTwo(capabilities: SurfaceCapabilities)
    requires capabilities.minImageCount == 2
    requires capabilities.maxImageCount == 0 || capabilities.maxImageCount >= 2
    ensures ImageCount(capabilities) == if capabilities.maxImageCount == 2 then 2 else 3
  {
  }

  /**
   * The count is computed in 32 bits: a minimum of UINT32_MAX wraps to 0,
   * below the minimum, even though the maximum allows UINT32_MAX.
   */
  lemma ImageCountWrapsAtUint32Max(capabilities: SurfaceCapabilities)
    requires capabilities.minImageCount == UINT32_MAX && capabilities.maxImageCount == UINT32_MAX
    ensures ImageCount(capabilities) == 0
  {
  }

  // ---------------------------------------------------------------------------
  // Sharing mode and image views

  /**
   * Distinct graphics and present families share the images concurrently
   * between both; one family owns them exclusively and lists none.
   */
  function SharingFor(graphics: nat, present: nat): (sharing: (SharingMode, seq<nat>))
    ensures sharing.0 == Concurrent <==> graphics != present
    ensures sharing.0 == Concurrent ==> sharing.1 == [graphics, present]
    ensures sharing.0 == Exclusive ==> sharing.1 == []
    ensures sharing.0 == Concurrent ==>
              |sharing.1| >= 2 && forall i, j :: 0 <= i < j < |sharing.1| ==> sharing.1[i] != sharing.1[j]
  {
    if graphics != present then (Concurrent, [graphics, present]) else (Exclusive, [])
  }

  /** The request CreateImageView makes: a 2D view of one image, `mipLevels` levels from 0, one layer. */
  function ViewCreateInfo(image: Handle, format: Format, aspectFlags: bv32, mipLevels: nat): ImageViewCreateInfo
  {
    ImageViewCreateInfo(image, IMAGE_VIEW_TYPE_2D, format, aspectFlags, 0, mipLevels, 0, 1)
  }

  /** What the builder asks for image i: a colour view of the image, in the chosen format, one level. */
  predicate IsSwapchainView(view: ImageView, image: Handle, format: Format)
  {
    view.createInfo == ViewCreateInfo(image, format, IMAGE_ASPECT_COLOR_BIT, 1)
  }

  /**
   * The first check of CreateSwapchain that fails, in source order, for a
   * builder holding `presentMode`, `surfaceFormat` and the desired `extent`;
   * None when the swapchain is created.
   */
  function SwapchainFailure(deviceInfo: DeviceInfo, presentMode: PresentMode, surfaceFormat: SurfaceFormat,
                            extent: Extent2D, created: Option<Handle>): Option<Failure>
  {
    var support := QuerySwapChainSupport(deviceInfo.physicalDevice);
    if presentMode !in support.presentModes then Some(PresentModeUnsupported)
    else if surfaceFormat !in support.formats then Some(FormatUnsupported)
    else if ValidateSwapExtent(support.capabilities, extent).Err? then Some(ExtentBoundsInverted)
    else if !deviceInfo.queueFamilies.IsComplete() then Some(MissingQueueFamily)
    else if created.None? then Some(SwapchainCreationFailed)
    else None
  }

  class SwapchainBuilder {
    const deviceInfo: DeviceInfo
    var extent: Extent2D
    var presentMode: PresentMode
    var surfaceFormat: SurfaceFormat
    var swapchain: Handle
    var images: seq<Handle>
    var imageViews: seq<ImageView>

    /** Fields hold the zero values of their C# types until a setter runs. */
    constructor (info: DeviceInfo)
      ensures deviceInfo == info
      ensures extent == Extent2D(0, 0) && presentMode == PRESENT_MODE_IMMEDIATE
      ensures surfaceFormat == SurfaceFormat(FORMAT_UNDEFINED, COLOR_SPACE_SRGB_NONLINEAR)
      ensures swapchain == NULL_HANDLE && images == [] && imageViews == []
    {
      deviceInfo := info;
      extent := Extent2D(0, 0);
      presentMode := PRESENT_MODE_IMMEDIATE;
      surfaceFormat := SurfaceFormat(FORMAT_UNDEFINED, COLOR_SPACE_SRGB_NONLINEAR);
      swapchain := NULL_HANDLE;
      images := [];
      imageViews := [];
    }

    method SetDesiredExtent(desired: Extent2D)
      modifies this
      ensures extent == desired
      ensures presentMode == old(presentMode) && surfaceFormat == old(surfaceFormat)
      ensures swapchain == old(swapchain) && images == old(images) && imageViews == old(imageViews)
    {
      extent := desired;
    }

    /** The `(int, int)` overload: each value goes through an unchecked cast to uint. */
    method SetDesiredExtentFromInts(width: int32, height: int32)
      modifies this
      ensures extent == Extent2D(width % 0x1_0000_0000, height % 0x1_0000_0000)
      ensures 0 <= width && 0 <= height ==> extent == Extent2D(width, height)
      ensures presentMode == old(presentMode) && surfaceFormat == old(surfaceFormat)
      ensures swapchain == old(swapchain) && images == old(images) && imageViews == old(imageViews)
    {
      SetDesiredExtent(Extent2D(width % 0x1_0000_0000, height % 0x1_0000_0000));
    }

    method SetDesiredPresentMode(mode: PresentMode)
      modifies this
      ensures presentMode == mode
      ensures extent == old(extent) && surfaceFormat == old(surfaceFormat)
      ensures swapchain == old(swapchain) && images == old(images) && imageViews == old(imageViews)
    {
      presentMode := mode;
    }

    method UseFormat(format: SurfaceFormat)
      modifies this
      ensures surfaceFormat == format
      ensures extent == old(extent) && presentMode == old(presentMode)
      ensures swapchain == old(swapchain) && images == old(images) && imageViews == old(imageViews)
    {
      surfaceFormat := format;
    }

    /** B8G8R8A8 sRGB in the sRGB non-linear colour space. */
    method UseDefaultFormat()
      modifies this
      ensures surfaceFormat == SurfaceFormat(FORMAT_B8G8R8A8_SRGB, COLOR_SPACE_SRGB_NONLINEAR)
      ensures extent == old(extent) && presentMode == old(presentMode)
      ensures swapchain == old(swapchain) && images == old(images) && imageViews == old(imageViews)
    {
      surfaceFormat := surfaceFormat.(format := FORMAT_B8G8R8A8_SRGB);
      surfaceFormat := surfaceFormat.(colorSpace := COLOR_SPACE_SRGB_NONLINEAR);
    }

    /** True iff some supported entry matches both the format and the colour space. */
    method ValidFormat(formats: seq<SurfaceFormat>) returns (valid: bool)
      ensures valid <==> exists i :: 0 <= i < |formats| && formats[i] == surfaceFormat
    {
      for i := 0 to |formats|
        invariant forall k :: 0 <= k < i ==> formats[k] != surfaceFormat
      {
        if formats[i].format == surfaceFormat.format && formats[i].colorSpace == surfaceFormat.colorSpace {
          return true;
        }
      }
      return false;
    }

    /**
     * Checks the present mode, then the format, stores the validated extent,
     * then builds the request (requires both queue families) and creates the
     * swapchain. `created` is the driver's swapchain (None: failure) and
     * `driverImages` the images it reports for it.
     */
    method CreateSwapchain(created: Option<Handle>, driverImages: seq<Handle>)
      returns (createInfo: Option<SwapchainCreateInfo>, failure: Option<Failure>)
      modifies this
      ensures var support := QuerySwapChainSupport(deviceInfo.physicalDevice);
              var caps := support.capabilities;
              var families := deviceInfo.queueFamilies;
              var extentChoice := ValidateSwapExtent(caps, old(extent));
              failure == SwapchainFailure(deviceInfo, presentMode, surfaceFormat, old(extent), created) &&
              (createInfo.Some? <==> failure.None? || failure == Some(SwapchainCreationFailed)) &&
              ((extentChoice.Ok? && presentMode in support.presentModes && surfaceFormat in support.formats) ==>
                 extent == extentChoice.value) &&
              (createInfo.Some? ==>
                 var sharing := SharingFor(families.graphicsFamily.value, families.presentFamily.value);
                 createInfo.value == SwapchainCreateInfo(
                   deviceInfo.surface, ImageCount(caps), surfaceFormat.format, surfaceFormat.colorSpace,
                   extentChoice.value, 1, IMAGE_USAGE_COLOR_ATTACHMENT_BIT, sharing.0, sharing.1,
                   caps.currentTransform, COMPOSITE_ALPHA_OPAQUE_BIT, presentMode, true))
      ensures failure.None? ==> swapchain == created.value && images == driverImages
      ensures failure.Some? ==> swapchain == old(swapchain) && images == old(images)
      ensures presentMode == old(presentMode) && surfaceFormat == old(surfaceFormat) && imageViews == old(imageViews)
    {
      createInfo := None;
      var support := QuerySwapChainSupport(deviceInfo.physicalDevice);
      if presentMode !in support.presentModes {
        return None, Some(PresentModeUnsupported);
      }
      var formatOk := ValidFormat(support.formats);
      if !formatOk {
        return None, Some(FormatUnsupported);
      }
      var extentChoice := ValidateSwapExtent(support.capabilities, extent);
      if extentChoice.Err? {
        return None, Some(ExtentBoundsInverted);
      }
      extent := extentChoice.value;
      var imgCount := ImageCount(support.capabilities);
      var indices := deviceInfo.queueFamilies;
      if !indices.IsComplete() {
        return None, Some(MissingQueueFamily);
      }
      var sharing := SharingFor(indices.graphicsFamily.value, indices.presentFamily.value);
      var request := SwapchainCreateInfo(
        deviceInfo.surface, imgCount, surfaceFormat.format, surfaceFormat.colorSpace, extent, 1,
        IMAGE_USAGE_COLOR_ATTACHMENT_BIT, sharing.0, sharing.1,
        support.capabilities.currentTransform, COMPOSITE_ALPHA_OPAQUE_BIT, presentMode, true);
      createInfo := Some(request);
      if created.None? {
        return createInfo, Some(SwapchainCreationFailed);
      }
      swapchain := created.value;
      images := driverImages;
      failure := None;
    }

    /**
     * One view per swapchain image, in image order; `createdView(i)` is the
     * driver's answer for image i (None: creation failed, which aborts).
     */
    method CreateImageViews(createdView: nat -> Option<Handle>) returns (failure: Option<Failure>)
      modifies this
      ensures failure.None? <==> forall i :: 0 <= i < |images| ==> createdView(i).Some?
      ensures failure.Some? ==> failure.value == ImageViewCreationFailed && imageViews == old(imageViews)
      ensures failure.None? ==>
                |imageViews| == |images| &&
                forall i :: 0 <= i < |images| ==>
                  imageViews[i].handle == createdView(i).value && IsSwapchainView(imageViews[i], images[i], surfaceFormat.format)
      ensures images == old(images) && swapchain == old(swapchain) && extent == old(extent)
      ensures presentMode == old(presentMode) && surfaceFormat == old(surfaceFormat)
    {
      var views := new ImageView[|images|](_ => ImageView(NULL_HANDLE, ViewCreateInfo(NULL_HANDLE, FORMAT_UNDEFINED, 0, 0)));
      for i := 0 to |images|
        modifies views
        invariant forall k :: 0 <= k < i ==> createdView(k).Some?
        invariant forall k :: 0 <= k < i ==>
                    views[k].handle == createdView(k).value && IsSwapchainView(views[k], images[k], surfaceFormat.format)
      {
        var handle := createdView(i);
        if handle.None? {
          return Some(ImageViewCreationFailed);
        }
        views[i] := ImageView(handle.value, ViewCreateInfo(images[i], surfaceFormat.format, IMAGE_ASPECT_COLOR_BIT, 1));
      }
      imageViews := views[..];
      failure := None;
    }

    /** CreateSwapchain, then CreateImageViews, then the summary; the first failure aborts. */
    method Build(created: Option<Handle>, driverImages: seq<Handle>, createdView: nat -> Option<Handle>)
      returns (createInfo: Option<SwapchainCreateInfo>, r: Result<SwapchainInfo, Failure>)
      modifies this
      ensures var support := QuerySwapChainSupport(deviceInfo.physicalDevice);
              r.Ok? ==> presentMode in support.presentModes && surfaceFormat in support.formats &&
                        ValidateSwapExtent(support.capabilities, old(extent)).Ok? &&
                        deviceInfo.queueFamilies.IsComplete() && created.Some? &&
                        createInfo.Some? && createInfo.value.minImageCount == ImageCount(support.capabilities) &&
                        createInfo.value.imageExtent == ValidateSwapExtent(support.capabilities, old(extent)).value
      ensures var failure := SwapchainFailure(deviceInfo, presentMode, surfaceFormat, old(extent), created);
              r.Ok? <==> failure.None? && forall i :: 0 <= i < |driverImages| ==> createdView(i).Some?
      ensures var failure := SwapchainFailure(deviceInfo, presentMode, surfaceFormat, old(extent), created);
              r.Err? ==> r.error == if failure.Some? then failure.value else ImageViewCreationFailed
      ensures var support := QuerySwapChainSupport(deviceInfo.physicalDevice);
              presentMode !in support.presentModes ==> r == Err(PresentModeUnsupported)
      ensures var support := QuerySwapChainSupport(deviceInfo.physicalDevice);
              presentMode in support.presentModes && surfaceFormat !in support.formats ==> r == Err(FormatUnsupported)
      ensures r.Ok? ==>
                r.value.swapchain == created.value && r.value.images == driverImages &&
                r.value.format == surfaceFormat.format && |r.value.imageViews| == |driverImages| &&
                forall i :: 0 <= i < |driverImages| ==>
                  createdView(i) == Some(r.value.imageViews[i].handle) &&
                  IsSwapchainView(r.value.imageViews[i], driverImages[i], surfaceFormat.format)
      ensures r.Ok? ==> swapchain == r.value.swapchain && images == r.value.images && imageViews == r.value.imageViews
      ensures presentMode == old(presentMode) && surfaceFormat == old(surfaceFormat)
    {
      var failure;
      createInfo, failure := CreateSwapchain(created, driverImages);
      if failure.Some? {
        return createInfo, Err(failure.value);
      }
      failure := CreateImageViews(createdView);
      if failure.Some? {
        return createInfo, Err(failure.value);
      }
      r := Ok(SwapchainInfo(swapchain, images, imageViews, surfaceFormat.format));
    }
  }
}
