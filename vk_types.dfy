/**
 * Vulkan vocabulary used by the builders and the engine: fixed-width integers,
 * enumerant codes as the Vulkan headers number them, and the records the
 * driver reports. Handles are opaque naturals chosen by the driver.
 */
module VkTypes {
  import opened Wrappers

  type uint32 = x: int | 0 <= x < 0x1_0000_0000
  type int32 = x: int | -0x8000_0000 <= x < 0x8000_0000

  /** `uint.MaxValue`, the "extent is chosen by the swapchain" marker. */
  const UINT32_MAX: uint32 := 0xFFFF_FFFF

  /** A driver-created object, opaque to the application. */
  type Handle = nat

  // VkFormat codes
  type Format = nat
  const FORMAT_UNDEFINED: Format := 0
  const FORMAT_B8G8R8A8_SRGB: Format := 50
  const FORMAT_R32G32_SFLOAT: Format := 103
  const FORMAT_R32G32B32_SFLOAT: Format := 106

  // VkColorSpaceKHR codes
  type ColorSpace = nat
  const COLOR_SPACE_SRGB_NONLINEAR: ColorSpace := 0

  // VkPresentModeKHR codes
  type PresentMode = nat
  const PRESENT_MODE_IMMEDIATE: PresentMode := 0
  const PRESENT_MODE_MAILBOX: PresentMode := 1
  const PRESENT_MODE_FIFO: PresentMode := 2
  const PRESENT_MODE_FIFO_RELAXED: PresentMode := 3

  // VkQueueFlagBits
  const QUEUE_GRAPHICS_BIT: bv32 := 0x1
  const QUEUE_COMPUTE_BIT: bv32 := 0x2
  const QUEUE_TRANSFER_BIT: bv32 := 0x4

  // VkImageAspectFlagBits
  const IMAGE_ASPECT_COLOR_BIT: bv32 := 0x1

  datatype PhysicalDeviceType = Other | IntegratedGpu | DiscreteGpu | VirtualGpu | Cpu

  datatype Extent2D = Extent2D(width: uint32, height: uint32)

  datatype SurfaceFormat = SurfaceFormat(format: Format, colorSpace: ColorSpace)

  /** VkSurfaceCapabilitiesKHR, the fields the swapchain builder reads. */
  datatype SurfaceCapabilities = SurfaceCapabilities(
    minImageCount: uint32,
    maxImageCount: uint32,      // 0: no upper limit
    currentExtent: Extent2D,    // width UINT32_MAX: the swapchain decides
    minImageExtent: Extent2D,
    maxImageExtent: Extent2D,
    currentTransform: nat)

  /**
   * One queue family of a physical device: its VkQueueFlags, and whether
   * vkGetPhysicalDeviceSurfaceSupportKHR reports that it can present to the
   * surface in use.
   */
  datatype QueueFamily = QueueFamily(queueFlags: bv32, presentSupport: bool)

  predicate HasGraphics(family: QueueFamily)
  {
    family.queueFlags & QUEUE_GRAPHICS_BIT != 0
  }

  /** Index of a Bool32 member of VkPhysicalDeviceFeatures. */
  type Feature = nat

  /**
   * Everything the selector learns about one physical device through the
   * Vulkan queries it makes (properties, queue families, extension names,
   * surface support, features).
   */
  datatype Gpu = Gpu(
    handle: Handle,
    deviceType: PhysicalDeviceType,
    queueFamilies: seq<QueueFamily>,
    extensions: seq<string>,
    surfaceCapabilities: SurfaceCapabilities,
    surfaceFormats: seq<SurfaceFormat>,     // every format the surface query can report
    presentModes: seq<PresentMode>,         // every present mode the surface query can report
    features: set<Feature>)

  /** The exceptions the C# code throws, one constructor per cause. */
  datatype Failure =
    | NoCurrentInstance          // "Create Instance first!"
    | NoVulkanDevice             // "Failed to find GPU with Vulkan support"
    | MissingQueueFamily         // `!.Value` on a null queue family index
    | DeviceCreationFailed       // "failed to create logical device!"
    | PresentModeUnsupported     // "Selected present mode is not supported ..."
    | FormatUnsupported          // "Selected format is not supported ..."
    | ExtentBoundsInverted       // Math.Clamp with min > max
    | SwapchainCreationFailed    // "Failed to create swapchain"
    | ImageViewCreationFailed    // "failed to create image view!"
    | WindowWithoutVulkanSurface // ArgumentNullException on window.VkSurface
    | ValidationLayersUnsupported
    | InstanceCreationFailed     // "Could not create vulkan instance"
    | DebugUtilsUnavailable      // "Could not get instance extension debugUtils"
    | MessengerCreationFailed    // "Failed to set up debug messenger"
    | IndexOutOfRange            // an array read past its end
}
