/**
 * VkGuide/Engine.cs: the engine's lifecycle as a state machine. Every
 * Vulkan, GLFW or window call the engine itself makes is recorded as an
 * event in `trace`, in call order; the handles those calls return, and the
 * answers the builders get from the driver, are inputs. Fences and
 * semaphores exist only as handles named by events: their state is
 * recovered by replaying the trace.
 */
module VkEngine {
  import opened Wrappers
  import opened VkTypes
  import opened Vulkanize
  import opened PhysicalDevice
  import opened Device
  import opened Swapchain
  import opened Instance

  const WINDOW_TITLE: string := "Vulkan Engine"
  const APPLICATION_NAME: string := "Example Vulkan Application"
  const API_VERSION_1_1: Version32 := Version32(1, 1, 0)
  const WINDOW_EXTENT: Extent2D := Extent2D(1440, 900)
  const FRAG_SHADER_PATH: string := "triangle.frag.spv"
  const VERT_SHADER_PATH: string := "triangle.vert.spv"

  /** The timeout of the fence wait and of the image acquisition, one second in nanoseconds. */
  const TIMEOUT: nat := 1000000000

  const PIPELINE_STAGE_COLOR_ATTACHMENT_OUTPUT_BIT: bv32 := 0x400

  const INT32_MIN: int := -0x8000_0000
  const INT32_MAX: int := 0x7FFF_FFFF

  // ---------------------------------------------------------------------------
  // The frame counter

  /** Two's-complement wrap-around of an integer into `int`, as unchecked C# arithmetic does. */
  function Wrap32(x: int): (w: int32)
    ensures INT32_MIN <= x <= INT32_MAX ==> w == x
    ensures (w - x) % 0x1_0000_0000 == 0
  {
    (x + 0x8000_0000) % 0x1_0000_0000 - 0x8000_0000
  }

  /** Wrapping after every step is wrapping once at the end. */
  lemma Wrap32Add(x: int, n: int)
    ensures Wrap32(Wrap32(x) + n) == Wrap32(x + n)
  {
    var q := (x + 0x8000_0000) / 0x1_0000_0000;
    assert Wrap32(x) + n + 0x8000_0000 == (x + n + 0x8000_0000) - q * 0x1_0000_0000;
    ModOfShift(x + n + 0x8000_0000, q);
  }

  lemma ModOfShift(a: int, q: int)
    ensures (a - q * 0x1_0000_0000) % 0x1_0000_0000 == a % 0x1_0000_0000
  {
    var r := a % 0x1_0000_0000;
    assert a == (a / 0x1_0000_0000) * 0x1_0000_0000 + r;
    assert a - q * 0x1_0000_0000 == (a / 0x1_0000_0000 - q) * 0x1_0000_0000 + r;
  }

  /** `_frameNumber++` at the largest int wraps to the smallest. */
  lemma FrameNumberWraps()
    ensures Wrap32(INT32_MAX + 1) == INT32_MIN
  {
  }

  // ---------------------------------------------------------------------------
  // Events

  datatype ObjectKind =
    | CommandPoolObject | ImageViewObject | FramebufferObject | PipelineObject | PipelineLayoutObject
    | FenceObject | SemaphoreObject | SwapchainObject | RenderPassObject
    | DeviceObject | SurfaceObject | MessengerObject | InstanceObject | WindowObject

  /** One call the engine makes, with the handles and parameters that matter. */
  datatype Event =
    | WindowCreated(title: string, size: Extent2D)
    | VulkanInitialized(instance: Handle, surface: Handle, device: Handle, swapchain: Handle)
    | CommandPoolCreated(pool: Handle, queueFamily: nat, resettableBuffers: bool)
    | CommandBufferAllocated(pool: Handle, cmd: Handle)
    | RenderPassCreated(pass: Handle, format: Format)
    | FramebufferCreated(pass: Handle, attachment: Handle, size: Extent2D, framebuffer: Handle)
    | FenceCreated(fence: Handle, signaled: bool)
    | SemaphoreCreated(semaphore: Handle)
    | ShaderLoadFailed(path: string)
    | PipelineLayoutCreated(layout: Handle)
    | PipelineCreated(pipeline: Handle, layout: Handle, pass: Handle)
    | WaitForFence(fence: Handle, timeout: nat)
    | ResetFence(fence: Handle)
    | AcquireNextImage(swapchain: Handle, timeout: nat, signal: Handle)
    | ResetCommandBuffer(cmd: Handle)
    | BeginCommandBuffer(cmd: Handle, oneTimeSubmit: bool)
    | BeginRenderPass(cmd: Handle, pass: Handle, framebuffer: Handle, area: Extent2D)
    | BindPipeline(cmd: Handle, pipeline: Handle)
    | DrawCall(cmd: Handle, vertexCount: nat, instanceCount: nat)
    | EndRenderPass(cmd: Handle)
    | EndCommandBuffer(cmd: Handle)
    | Submit(queue: QueueRef, cmd: Handle, wait: Handle, waitStage: bv32, signal: Handle, fence: Handle)
    | Present(queue: QueueRef, swapchain: Handle, wait: Handle, imageIndex: nat)
    | DeviceWaitIdle(device: Handle)
    | Destroy(kind: ObjectKind, handle: Handle)

  // ---------------------------------------------------------------------------
  // The fence, replayed from the trace

  /**
   * Absent: not created or destroyed. A wait on a Pending fence returns once
   * the GPU finishes the submission; a wait on an Unsignaled one can only end
   * by timing out.
   */
  datatype FenceState = Absent | Unsignaled | Signaled | Pending

  predicate WaitReady(s: FenceState)
  {
    s == Signaled || s == Pending
  }

  function FenceStep(s: FenceState, fence: Handle, e: Event): FenceState
  {
    match e
    case FenceCreated(f, signaled) => if f != fence then s else if signaled then Signaled else Unsignaled
    case ResetFence(f) => if f == fence then Unsignaled else s
    case Submit(_, _, _, _, _, f) => if f == fence then Pending else s
    case WaitForFence(f, _) => if f == fence && s == Pending then Signaled else s
    case Destroy(kind, h) => if kind == FenceObject && h == fence then Absent else s
    case _ => s
  }

  function FenceReplay(s: FenceState, fence: Handle, events: seq<Event>): FenceState
    decreases |events|
  {
    if |events| == 0 then s else FenceReplay(FenceStep(s, fence, events[0]), fence, events[1..])
  }

  /** No wait on the fence in `events` finds it unsignaled with nothing submitted. */
  predicate WaitsNeverStall(s: FenceState, fence: Handle, events: seq<Event>)
    decreases |events|
  {
    |events| == 0 ||
    ((events[0].WaitForFence? && events[0].fence == fence ==> WaitReady(s)) &&
     WaitsNeverStall(FenceStep(s, fence, events[0]), fence, events[1..]))
  }

  lemma {:induction false} ReplayAppend(s: FenceState, fence: Handle, a: seq<Event>, b: seq<Event>)
    ensures FenceReplay(s, fence, a + b) == FenceReplay(FenceReplay(s, fence, a), fence, b)
    ensures WaitsNeverStall(s, fence, a + b) <==>
              WaitsNeverStall(s, fence, a) && WaitsNeverStall(FenceReplay(s, fence, a), fence, b)
    decreases |a|
  {
    if |a| > 0 {
      assert (a + b)[0] == a[0];
      assert (a + b)[1..] == a[1..] + b;
      ReplayAppend(FenceStep(s, fence, a[0]), fence, a[1..], b);
    } else {
      assert a + b == b;
    }
  }

  lemma ReplayCons(s: FenceState, fence: Handle, e: Event, rest: seq<Event>)
    ensures FenceReplay(s, fence, [e] + rest) == FenceReplay(FenceStep(s, fence, e), fence, rest)
    ensures WaitsNeverStall(s, fence, [e] + rest) <==>
              (e.WaitForFence? && e.fence == fence ==> WaitReady(s)) &&
              WaitsNeverStall(FenceStep(s, fence, e), fence, rest)
  {
    assert ([e] + rest)[0] == e;
    assert ([e] + rest)[1..] == rest;
  }

  lemma {:induction false} NoFenceEventsKeepState(s: FenceState, fence: Handle, events: seq<Event>)
    requires forall k :: 0 <= k < |events| ==> FenceStep(s, fence, events[k]) == s && !events[k].WaitForFence?
    ensures FenceReplay(s, fence, events) == s && WaitsNeverStall(s, fence, events)
    decreases |events|
  {
    if |events| > 0 {
      NoFenceEventsKeepState(s, fence, events[1..]);
    }
  }

  // ---------------------------------------------------------------------------
  // One frame

  /** The objects Draw uses: one set, whatever the frame number. */
  datatype FrameObjects = FrameObjects(
    swapchain: Handle,
    presentSemaphore: Handle,
    renderSemaphore: Handle,
    renderFence: Handle,
    commandBuffer: Handle,
    renderPass: Handle,
    pipeline: Handle,
    queue: QueueRef,
    renderArea: Extent2D)

  /** Wait for the previous frame, reset the fence, acquire an image, reset and begin the command buffer. */
  function FrameStart(o: FrameObjects): seq<Event>
  {
    [WaitForFence(o.renderFence, TIMEOUT), ResetFence(o.renderFence),
     AcquireNextImage(o.swapchain, TIMEOUT, o.presentSemaphore),
     ResetCommandBuffer(o.commandBuffer), BeginCommandBuffer(o.commandBuffer, true)]
  }

  /** Record the render pass into `framebuffer`, submit, present image `imageIndex`. */
  function FrameFinish(o: FrameObjects, framebuffer: Handle, imageIndex: nat): seq<Event>
  {
    [BeginRenderPass(o.commandBuffer, o.renderPass, framebuffer, o.renderArea),
     BindPipeline(o.commandBuffer, o.pipeline),
     DrawCall(o.commandBuffer, 3, 1),
     EndRenderPass(o.commandBuffer),
     EndCommandBuffer(o.commandBuffer),
     Submit(o.queue, o.commandBuffer, o.presentSemaphore, PIPELINE_STAGE_COLOR_ATTACHMENT_OUTPUT_BIT,
            o.renderSemaphore, o.renderFence),
     Present(o.queue, o.swapchain, o.renderSemaphore, imageIndex)]
  }

  /** Every submission waits on a semaphore an earlier acquisition signals. */
  predicate SubmitsWaitForAcquire(events: seq<Event>)
  {
    forall j :: 0 <= j < |events| && events[j].Submit? ==>
      exists i :: 0 <= i < j && events[i].AcquireNextImage? && events[i].signal == events[j].wait
  }

  /** Every presentation waits on a semaphore an earlier submission signals. */
  predicate PresentsWaitForSubmit(events: seq<Event>)
  {
    forall j :: 0 <= j < |events| && events[j].Present? ==>
      exists i :: 0 <= i < j && events[i].Submit? && events[i].signal == events[j].wait
  }

  /** A submission comes after the recording of its command buffer has ended. */
  predicate SubmitsRecordedBuffers(events: seq<Event>)
  {
    forall j :: 0 <= j < |events| && events[j].Submit? ==>
      exists i :: 0 <= i < j && events[i] == EndCommandBuffer(events[j].cmd)
  }

  /**
   * The frame is chained: acquire, then submit waiting on the acquire's
   * semaphore once recording ended, then present waiting on the submit's.
   */
  lemma FrameIsChained(o: FrameObjects, framebuffer: Handle, imageIndex: nat)
    ensures var frame := FrameStart(o) + FrameFinish(o, framebuffer, imageIndex);
            SubmitsWaitForAcquire(frame) && PresentsWaitForSubmit(frame) && SubmitsRecordedBuffers(frame)
  {
    var frame := FrameStart(o) + FrameFinish(o, framebuffer, imageIndex);
    assert frame[2].AcquireNextImage? && frame[9] == EndCommandBuffer(o.commandBuffer) && frame[10].Submit?;
    forall j | 0 <= j < |frame| && frame[j].Submit?
      ensures exists i :: 0 <= i < j && frame[i].AcquireNextImage? && frame[i].signal == frame[j].wait
      ensures exists i :: 0 <= i < j && frame[i] == EndCommandBuffer(frame[j].cmd)
    {
      assert j == 10;
    }
    forall j | 0 <= j < |frame| && frame[j].Present?
      ensures exists i :: 0 <= i < j && frame[i].Submit? && frame[i].signal == frame[j].wait
    {
      assert j == 11;
    }
  }

  /** A frame started with the fence signaled or pending never stalls, and leaves it pending. */
  lemma FrameKeepsFenceReady(s: FenceState, o: FrameObjects, framebuffer: Handle, imageIndex: nat)
    requires WaitReady(s)
    ensures var frame := FrameStart(o) + FrameFinish(o, framebuffer, imageIndex);
            WaitsNeverStall(s, o.renderFence, frame) && FenceReplay(s, o.renderFence, frame) == Pending
  {
    var f := o.renderFence;
    var frame := FrameStart(o) + FrameFinish(o, framebuffer, imageIndex);
    var recording := frame[2..10];
    var submit := frame[10];
    var present := frame[11..];
    assert frame == [frame[0]] + ([frame[1]] + (recording + ([submit] + present)));
    ReplayCons(s, f, frame[0], [frame[1]] + (recording + ([submit] + present)));
    ReplayCons(Signaled, f, frame[1], recording + ([submit] + present));
    NoFenceEventsKeepState(Unsignaled, f, recording);
    ReplayAppend(Unsignaled, f, recording, [submit] + present);
    ReplayCons(Unsignaled, f, submit, present);
    NoFenceEventsKeepState(Pending, f, present);
  }

  /** A frame cut off after beginning the command buffer leaves the fence reset with nothing submitted. */
  lemma InterruptedFrameLeavesFenceUnsignaled(s: FenceState, o: FrameObjects)
    requires WaitReady(s)
    ensures WaitsNeverStall(s, o.renderFence, FrameStart(o))
    ensures FenceReplay(s, o.renderFence, FrameStart(o)) == Unsignaled
    ensures !WaitsNeverStall(s, o.renderFence, FrameStart(o) + FrameStart(o))
  {
    var f := o.renderFence;
    var start := FrameStart(o);
    var rest := start[2..];
    assert start == [start[0]] + ([start[1]] + rest);
    ReplayCons(s, f, start[0], [start[1]] + rest);
    ReplayCons(Signaled, f, start[1], rest);
    NoFenceEventsKeepState(Unsignaled, f, rest);
    ReplayAppend(s, f, start, start);
    ReplayCons(Unsignaled, f, start[0], [start[1]] + rest);
  }

  // ---------------------------------------------------------------------------
  // Initialization

  /** What the window system and the driver answer while InitVulkan runs. */
  datatype SetupAnswers = SetupAnswers(
    window: Option<WindowSurface>,           // None: the window has no Vulkan surface
    availableLayers: seq<string>,
    instanceCreated: Option<Handle>,
    debugUtilsLoaded: bool,
    messengerCreated: Option<Handle>,
    devices: seq<Gpu>,
    deviceCreated: Option<Handle>,
    swapchainCreated: Option<Handle>,
    swapchainImages: seq<Handle>,
    createdView: nat -> Option<Handle>)

  /** The window's Vulkan surface: the instance extensions it needs and the surface it creates. */
  datatype WindowSurface = WindowSurface(requiredExtensions: seq<string>, surface: Handle)

  /** What InitVulkan stores in the engine's fields. */
  datatype VulkanObjects = VulkanObjects(
    instance: Handle,
    debugMessenger: Handle,
    surface: Handle,
    physicalDevice: Gpu,
    device: Handle,
    graphicsQueueFamily: nat,
    graphicsQueue: QueueRef,
    swapchain: Handle,
    swapchainImages: seq<Handle>,
    swapchainImageViews: seq<Handle>,
    swapchainImageFormat: Format)

  datatype InstanceObjects = InstanceObjects(instance: Handle, debugMessenger: Handle, surface: Handle)

  /** What the engine's selector requires: the swapchain extension, no features. */
  const SETUP_REQUIREMENTS: Requirements := Requirements(true, [KHR_SWAPCHAIN_EXTENSION_NAME], {})

  /** The surface format UseDefaultFormat asks for. */
  const DEFAULT_SURFACE_FORMAT: SurfaceFormat := SurfaceFormat(FORMAT_B8G8R8A8_SRGB, COLOR_SPACE_SRGB_NONLINEAR)

  /**
   * The first step of InitVulkan that throws, and what it throws, for the
   * given answers; None when InitVulkan completes. Steps, in source order:
   * the instance and its messenger, the surface, the selector's pick (the
   * first suitable device, or device 0), the logical device, the swapchain
   * and its image views.
   */
  function SetUpFailure(answers: SetupAnswers, windowExtent: Extent2D): Option<Failure>
  {
    if answers.window.None? then Some(WindowWithoutVulkanSurface)
    else if answers.instanceCreated.None? then Some(InstanceCreationFailed)
    else if !answers.debugUtilsLoaded then Some(DebugUtilsUnavailable)
    else if answers.messengerCreated.None? then Some(MessengerCreationFailed)
    else if |answers.devices| == 0 then Some(NoVulkanDevice)
    else
      var gpu := answers.devices[PickFrom(Any, Suitability(SETUP_REQUIREMENTS), answers.devices, 0, 0)];
      var found := QueueFamiliesFound(gpu.queueFamilies);
      if !found.IsComplete() then Some(MissingQueueFamily)
      else if answers.deviceCreated.None? then Some(DeviceCreationFailed)
      else
        var device := answers.deviceCreated.value;
        var deviceInfo := DeviceInfo(device, gpu, answers.window.value.surface, found,
                                     QueueRef(device, found.graphicsFamily.value, 0));
        var swapchainFailure := SwapchainFailure(deviceInfo, PRESENT_MODE_FIFO_RELAXED, DEFAULT_SURFACE_FORMAT,
                                                 windowExtent, answers.swapchainCreated);
        if swapchainFailure.Some? then swapchainFailure
        else if exists i :: 0 <= i < |answers.swapchainImages| && answers.createdView(i).None? then
          Some(ImageViewCreationFailed)
        else None
  }

  /**
   * The first suitable device decides: when it presents FIFO-relaxed in the
   * default format, its extent validates and every driver call succeeds,
   * InitVulkan completes, whatever the devices after it are.
   */
  lemma SetUpSucceedsOnFirstSuitableDevice(answers: SetupAnswers, windowExtent: Extent2D, k: nat)
    requires answers.window.Some? && answers.instanceCreated.Some? && answers.debugUtilsLoaded &&
             answers.messengerCreated.Some?
    requires k < |answers.devices| && IsSuitable(SETUP_REQUIREMENTS, answers.devices[k])
    requires forall j :: 0 <= j < k ==> !IsSuitable(SETUP_REQUIREMENTS, answers.devices[j])
    requires PRESENT_MODE_FIFO_RELAXED in QuerySwapChainSupport(answers.devices[k]).presentModes
    requires DEFAULT_SURFACE_FORMAT in QuerySwapChainSupport(answers.devices[k]).formats
    requires ValidateSwapExtent(answers.devices[k].surfaceCapabilities, windowExtent).Ok?
    requires answers.deviceCreated.Some? && answers.swapchainCreated.Some?
    requires forall i :: 0 <= i < |answers.swapchainImages| ==> answers.createdView(i).Some?
    ensures SetUpFailure(answers, windowExtent) == None
  {
    var devices := answers.devices;
    PickFromStartIsPick(Any, SETUP_REQUIREMENTS, devices);
    assert IsPick(Any, SETUP_REQUIREMENTS, devices, k);
    PickIsUnique(Any, SETUP_REQUIREMENTS, devices, PickFrom(Any, Suitability(SETUP_REQUIREMENTS), devices, 0, 0), k);
  }

  /**
   * The instance part of InitVulkan: "Example Vulkan Application", the
   * window's extensions, validation, API 1.1 and the default messenger;
   * then the window's surface for the new instance.
   */
  method CreateInstanceAndSurface(answers: SetupAnswers) returns (r: Result<InstanceObjects, Failure>)
    ensures answers.window.None? ==> r == Err(WindowWithoutVulkanSurface)
    ensures answers.window.Some? && answers.instanceCreated.None? ==> r == Err(InstanceCreationFailed)
    ensures r.Ok? <==> answers.window.Some? && answers.instanceCreated.Some? && answers.debugUtilsLoaded &&
                       answers.messengerCreated.Some?
    ensures r.Ok? ==> r.value == InstanceObjects(answers.instanceCreated.value, answers.messengerCreated.value,
                                                 answers.window.value.surface)
    ensures r.Err? ==> r.error == (if answers.window.None? then WindowWithoutVulkanSurface
                                   else if answers.instanceCreated.None? then InstanceCreationFailed
                                   else if !answers.debugUtilsLoaded then DebugUtilsUnavailable
                                   else MessengerCreationFailed)
  {
    var builder := new InstanceBuilder();
    builder.SetAppName(APPLICATION_NAME);
    var windowExtensions := if answers.window.Some? then Some(answers.window.value.requiredExtensions) else None;
    var failure := builder.UseRequiredWindowExtensions(windowExtensions);
    if failure.Some? {
      return Err(failure.value);
    }
    builder.EnableValidationLayers(true);
    builder.RequireApiVersion(API_VERSION_1_1);
    builder.UseDebugCallback(DefaultCallback);
    var _, _, instanceInfo := builder.Build(answers.availableLayers, answers.instanceCreated,
                                             answers.debugUtilsLoaded, answers.messengerCreated);
    if instanceInfo.Err? {
      return Err(instanceInfo.error);
    }
    // `DebugMessenger!.Value`: present, because validation is on.
    r := Ok(InstanceObjects(instanceInfo.value.instance, instanceInfo.value.debugMessenger.value,
                            answers.window.value.surface));
  }

  /** The selector part of InitVulkan: the surface set, the swapchain required, any device type. */
  method SelectPhysicalDevice(instance: Handle, surface: Handle, devices: seq<Gpu>) returns (r: Result<PhysicalDeviceInfo, Failure>)
    ensures r.Err? <==> |devices| == 0
    ensures r.Err? ==> r.error == NoVulkanDevice
    ensures r.Ok? ==>
              exists i: nat :: IsPick(Any, SETUP_REQUIREMENTS, devices, i) &&
                               r.value == PhysicalDeviceInfo(devices[i], surface, [KHR_SWAPCHAIN_EXTENSION_NAME], {})
    ensures r.Ok? ==> r.value.physicalDevice == devices[PickFrom(Any, Suitability(SETUP_REQUIREMENTS), devices, 0, 0)]
  {
    var selectorOrFailure := NewSelector(Some(instance));
    var selector := selectorOrFailure.value;
    selector.SetSurface(surface);
    selector.RequireSwapChain();
    r := selector.Select(devices);
  }

  /** The device part of InitVulkan: validation layers on; queue 0 of the graphics family. */
  method CreateLogicalDevice(physicalDeviceInfo: PhysicalDeviceInfo, deviceCreated: Option<Handle>) returns (r: Result<DeviceInfo, Failure>)
    ensures r.Ok? <==> QueueFamiliesFound(physicalDeviceInfo.physicalDevice.queueFamilies).IsComplete() && deviceCreated.Some?
    ensures r.Ok? ==>
              var families := r.value.physicalDevice.queueFamilies;
              var graphics := r.value.queueFamilies.graphicsFamily;
              r.value.device == deviceCreated.value && r.value.physicalDevice == physicalDeviceInfo.physicalDevice &&
              r.value.surface == physicalDeviceInfo.surface && r.value.queueFamilies.IsComplete() &&
              graphics.value < |families| && HasGraphics(families[graphics.value]) &&
              r.value.queue == QueueRef(deviceCreated.value, graphics.value, 0)
    ensures r.Ok? ==> r.value.queueFamilies == QueueFamiliesFound(physicalDeviceInfo.physicalDevice.queueFamilies)
    ensures r.Err? ==> r.error == if QueueFamiliesFound(physicalDeviceInfo.physicalDevice.queueFamilies).IsComplete()
                                  then DeviceCreationFailed else MissingQueueFamily
  {
    var builder := new DeviceBuilder(physicalDeviceInfo);
    builder.EnableValidationLayers(true);
    var _, deviceInfo := builder.Build(deviceCreated);
    if deviceInfo.Ok? {
      FoundFamiliesAreCapable(physicalDeviceInfo.physicalDevice.queueFamilies);
    }
    r := deviceInfo;
  }

  /** InitSwapchain: FIFO-relaxed presentation, the window's extent, the default format. */
  method InitSwapchain(deviceInfo: DeviceInfo, windowExtent: Extent2D, swapchainCreated: Option<Handle>,
                       images: seq<Handle>, createdView: nat -> Option<Handle>) returns (r: Result<SwapchainInfo, Failure>)
    ensures var support := QuerySwapChainSupport(deviceInfo.physicalDevice);
            PRESENT_MODE_FIFO_RELAXED !in support.presentModes ==> r == Err(PresentModeUnsupported)
    ensures var failure := SwapchainFailure(deviceInfo, PRESENT_MODE_FIFO_RELAXED, DEFAULT_SURFACE_FORMAT,
                                            windowExtent, swapchainCreated);
            r.Ok? <==> failure.None? && forall i :: 0 <= i < |images| ==> createdView(i).Some?
    ensures var failure := SwapchainFailure(deviceInfo, PRESENT_MODE_FIFO_RELAXED, DEFAULT_SURFACE_FORMAT,
                                            windowExtent, swapchainCreated);
            r.Err? ==> r.error == if failure.Some? then failure.value else ImageViewCreationFailed
    ensures r.Ok? ==>
              var support := QuerySwapChainSupport(deviceInfo.physicalDevice);
              PRESENT_MODE_FIFO_RELAXED in support.presentModes &&
              SurfaceFormat(FORMAT_B8G8R8A8_SRGB, COLOR_SPACE_SRGB_NONLINEAR) in support.formats &&
              swapchainCreated.Some? && r.value.swapchain == swapchainCreated.value && r.value.images == images &&
              r.value.format == FORMAT_B8G8R8A8_SRGB && |r.value.imageViews| == |images| &&
              forall i :: 0 <= i < |images| ==>
                createdView(i) == Some(r.value.imageViews[i].handle) &&
                IsSwapchainView(r.value.imageViews[i], images[i], FORMAT_B8G8R8A8_SRGB)
  {
    var builder := new SwapchainBuilder(deviceInfo);
    builder.SetDesiredPresentMode(PRESENT_MODE_FIFO_RELAXED);
    builder.SetDesiredExtent(windowExtent);
    builder.UseDefaultFormat();
    var _, swapchainInfo := builder.Build(swapchainCreated, images, createdView);
    r := swapchainInfo;
  }

  /** InitVulkan as a whole; the first builder that throws aborts it. */
  method SetUpVulkan(answers: SetupAnswers, windowExtent: Extent2D) returns (r: Result<VulkanObjects, Failure>)
    ensures r.Ok? <==> SetUpFailure(answers, windowExtent).None?
    ensures r.Err? ==> SetUpFailure(answers, windowExtent) == Some(r.error)
    ensures answers.window.None? ==> r == Err(WindowWithoutVulkanSurface)
    ensures answers.window.Some? && answers.instanceCreated.None? ==> r == Err(InstanceCreationFailed)
    ensures (answers.window.Some? && answers.instanceCreated.Some? && answers.debugUtilsLoaded &&
             answers.messengerCreated.Some? && answers.devices == []) ==> r == Err(NoVulkanDevice)
    ensures r.Ok? ==>
              answers.window.Some? && answers.instanceCreated.Some? && answers.debugUtilsLoaded &&
              answers.messengerCreated.Some? && answers.deviceCreated.Some? && answers.swapchainCreated.Some?
    ensures r.Ok? ==>
              var v := r.value;
              v.instance == answers.instanceCreated.value && v.debugMessenger == answers.messengerCreated.value &&
              v.surface == answers.window.value.surface && v.device == answers.deviceCreated.value &&
              v.swapchain == answers.swapchainCreated.value && v.swapchainImages == answers.swapchainImages
    ensures r.Ok? ==>
              var v := r.value;
              v.physicalDevice in answers.devices &&
              PRESENT_MODE_FIFO_RELAXED in QuerySwapChainSupport(v.physicalDevice).presentModes &&
              SurfaceFormat(FORMAT_B8G8R8A8_SRGB, COLOR_SPACE_SRGB_NONLINEAR) in QuerySwapChainSupport(v.physicalDevice).formats
    ensures r.Ok? ==>
              var v := r.value;
              v.graphicsQueueFamily < |v.physicalDevice.queueFamilies| &&
              HasGraphics(v.physicalDevice.queueFamilies[v.graphicsQueueFamily]) &&
              v.graphicsQueue == QueueRef(v.device, v.graphicsQueueFamily, 0)
    ensures r.Ok? ==>
              var v := r.value;
              v.swapchainImageFormat == FORMAT_B8G8R8A8_SRGB &&
              |v.swapchainImageViews| == |v.swapchainImages| &&
              forall i :: 0 <= i < |v.swapchainImages| ==> answers.createdView(i) == Some(v.swapchainImageViews[i])
  {
    var instanceObjects := CreateInstanceAndSurface(answers);
    if instanceObjects.Err? {
      return Err(instanceObjects.error);
    }
    var io := instanceObjects.value;
    var physicalDeviceInfo := SelectPhysicalDevice(io.instance, io.surface, answers.devices);
    if physicalDeviceInfo.Err? {
      return Err(physicalDeviceInfo.error);
    }
    var deviceInfo := CreateLogicalDevice(physicalDeviceInfo.value, answers.deviceCreated);
    if deviceInfo.Err? {
      return Err(deviceInfo.error);
    }
    var d := deviceInfo.value;
    var swapchainInfo := InitSwapchain(d, windowExtent, answers.swapchainCreated, answers.swapchainImages, answers.createdView);
    if swapchainInfo.Err? {
      return Err(swapchainInfo.error);
    }
    var sc := swapchainInfo.value;
    var views := seq(|sc.imageViews|, i requires 0 <= i < |sc.imageViews| => sc.imageViews[i].handle);
    r := Ok(VulkanObjects(io.instance, io.debugMessenger, io.surface, d.physicalDevice, d.device,
                          d.queueFamilies.graphicsFamily.value, d.queue, sc.swapchain, sc.images, views, sc.format));
  }

  /** The handles the engine's own create calls return (their results are never checked). */
  datatype ObjectHandles = ObjectHandles(
    commandPool: Handle,
    commandBuffer: Handle,
    renderPass: Handle,
    firstFramebuffer: Handle,         // framebuffer i gets firstFramebuffer + i
    renderFence: Handle,
    presentSemaphore: Handle,
    renderSemaphore: Handle,
    fragShaderLoaded: bool,
    vertShaderLoaded: bool,
    pipelineLayout: Handle,
    pipeline: Handle)

  /** One framebuffer per image: framebuffer i attaches view i and has the given size. */
  function FramebufferEvents(pass: Handle, views: seq<Handle>, size: Extent2D, first: Handle, n: nat): (events: seq<Event>)
    requires n <= |views|
    ensures |events| == n
    ensures forall i :: 0 <= i < n ==> events[i] == FramebufferCreated(pass, views[i], size, first + i)
  {
    if n == 0 then [] else FramebufferEvents(pass, views, size, first, n - 1) + [FramebufferCreated(pass, views[n - 1], size, first + n - 1)]
  }

  /**
   * InitFrameBuffers' loop: framebuffer i of `count` is created with view i
   * as its one attachment, at the given size.
   */
  method CreateFramebuffers(pass: Handle, views: seq<Handle>, count: nat, size: Extent2D, first: Handle)
    returns (framebuffers: array<Handle>, events: seq<Event>)
    requires count <= |views|
    ensures framebuffers.Length == count
    ensures forall i :: 0 <= i < count ==> framebuffers[i] == first + i
    ensures events == FramebufferEvents(pass, views, size, first, count)
  {
    framebuffers := new Handle[count];
    events := [];
    for i := 0 to count
      invariant events == FramebufferEvents(pass, views, size, first, i)
      invariant forall k :: 0 <= k < i ==> framebuffers[k] == first + k
    {
      framebuffers[i] := first + i;
      events := events + [FramebufferCreated(pass, views[i], size, framebuffers[i])];
    }
  }

  /** InitPipelines: a log line per shader that failed to load, then the layout and the pipeline. */
  function PipelineEvents(h: ObjectHandles, pass: Handle): seq<Event>
  {
    (if h.fragShaderLoaded then [] else [ShaderLoadFailed(FRAG_SHADER_PATH)]) +
    (if h.vertShaderLoaded then [] else [ShaderLoadFailed(VERT_SHADER_PATH)]) +
    [PipelineLayoutCreated(h.pipelineLayout), PipelineCreated(h.pipeline, h.pipelineLayout, pass)]
  }

  /** InitSyncStructures: the fence, created signaled, then the present and render semaphores. */
  function SyncEvents(h: ObjectHandles): seq<Event>
  {
    [FenceCreated(h.renderFence, true), SemaphoreCreated(h.presentSemaphore), SemaphoreCreated(h.renderSemaphore)]
  }

  /** Because the fence is created signaled, the first frame's wait returns at once. */
  lemma FenceReadyAfterSync(h: ObjectHandles, pass: Handle)
    ensures var events := SyncEvents(h) + PipelineEvents(h, pass);
            WaitsNeverStall(Absent, h.renderFence, events) && FenceReplay(Absent, h.renderFence, events) == Signaled
  {
    var f := h.renderFence;
    var rest := [SemaphoreCreated(h.presentSemaphore), SemaphoreCreated(h.renderSemaphore)] + PipelineEvents(h, pass);
    assert SyncEvents(h) + PipelineEvents(h, pass) == [FenceCreated(f, true)] + rest;
    ReplayCons(Absent, f, FenceCreated(f, true), rest);
    forall k | 0 <= k < |rest|
      ensures FenceStep(Signaled, f, rest[k]) == Signaled && !rest[k].WaitForFence?
    {
    }
    NoFenceEventsKeepState(Signaled, f, rest);
  }

  // ---------------------------------------------------------------------------
  // Teardown

  /** Vulkan's destruction order: `child` must be destroyed before `parent`. */
  predicate MustOutlive(parent: ObjectKind, child: ObjectKind)
  {
    match parent
    case DeviceObject =>
      child in {CommandPoolObject, ImageViewObject, FramebufferObject, PipelineObject, PipelineLayoutObject,
                FenceObject, SemaphoreObject, SwapchainObject, RenderPassObject}
    case SurfaceObject => child == SwapchainObject
    case InstanceObject => child in {DeviceObject, SurfaceObject, MessengerObject}
    case WindowObject => child == SurfaceObject
    case _ => false
  }

  /** Every object is destroyed before anything it depends on. */
  predicate DestroysChildrenFirst(events: seq<Event>)
  {
    forall i, j :: (0 <= i < |events| && 0 <= j < |events| && events[i].Destroy? && events[j].Destroy? &&
                    MustOutlive(events[j].kind, events[i].kind)) ==> i < j
  }

  /** A layering of the kinds in which every dependency points strictly upward. */
  function Layer(kind: ObjectKind): nat
  {
    match kind
    case DeviceObject => 1
    case SurfaceObject => 2
    case MessengerObject => 2
    case InstanceObject => 3
    case WindowObject => 4
    case _ => 0
  }

  function EventLayer(e: Event): nat
  {
    if e.Destroy? then Layer(e.kind) else 0
  }

  lemma LayerRespectsDependencies(parent: ObjectKind, child: ObjectKind)
    requires MustOutlive(parent, child)
    ensures Layer(child) < Layer(parent)
  {
  }

  /** A destruction sequence whose layers never decrease destroys children first. */
  lemma LayeredDestroysChildrenFirst(events: seq<Event>)
    requires forall i, j :: 0 <= i <= j < |events| ==> EventLayer(events[i]) <= EventLayer(events[j])
    ensures DestroysChildrenFirst(events)
  {
    forall i, j | 0 <= i < |events| && 0 <= j < |events| && events[i].Destroy? && events[j].Destroy? &&
                  MustOutlive(events[j].kind, events[i].kind)
      ensures i < j
    {
      LayerRespectsDependencies(events[j].kind, events[i].kind);
    }
  }

  /** The loop of Terminate: view i, then framebuffer i, for each view. */
  function ImageTeardown(views: seq<Handle>, framebuffers: seq<Handle>, n: nat): (events: seq<Event>)
    requires n <= |views| && n <= |framebuffers|
    ensures |events| == 2 * n
    ensures forall i :: 0 <= i < n ==>
              events[2 * i] == Destroy(ImageViewObject, views[i]) &&
              events[2 * i + 1] == Destroy(FramebufferObject, framebuffers[i])
  {
    if n == 0 then []
    else ImageTeardown(views, framebuffers, n - 1) +
         [Destroy(ImageViewObject, views[n - 1]), Destroy(FramebufferObject, framebuffers[n - 1])]
  }

  /** The objects Terminate destroys besides the per-image ones. */
  datatype OwnedObjects = OwnedObjects(
    commandPool: Handle,
    pipeline: Handle,
    pipelineLayout: Handle,
    renderFence: Handle,
    presentSemaphore: Handle,
    renderSemaphore: Handle,
    swapchain: Handle,
    renderPass: Handle,
    device: Handle,
    surface: Handle,
    debugMessenger: Handle,
    instance: Handle)

  const WINDOW_HANDLE: Handle := 0

  /** Everything after the per-image loop, ending with the instance and the window. */
  function TeardownTail(o: OwnedObjects): seq<Event>
  {
    [Destroy(PipelineObject, o.pipeline), Destroy(PipelineLayoutObject, o.pipelineLayout),
     Destroy(FenceObject, o.renderFence), Destroy(SemaphoreObject, o.presentSemaphore),
     Destroy(SemaphoreObject, o.renderSemaphore), Destroy(SwapchainObject, o.swapchain),
     Destroy(RenderPassObject, o.renderPass), Destroy(DeviceObject, o.device),
     Destroy(SurfaceObject, o.surface), Destroy(MessengerObject, o.debugMessenger),
     Destroy(InstanceObject, o.instance), Destroy(WindowObject, WINDOW_HANDLE)]
  }

  function TeardownEvents(o: OwnedObjects, views: seq<Handle>, framebuffers: seq<Handle>): seq<Event>
    requires |views| <= |framebuffers|
  {
    [Destroy(CommandPoolObject, o.commandPool)] + ImageTeardown(views, framebuffers, |views|) + TeardownTail(o)
  }

  /**
   * Terminate destroys every object before what it depends on; the device
   * goes just before the surface and the messenger, the instance is the last
   * Vulkan object destroyed and the window goes after it.
   */
  lemma TeardownDestroysChildrenFirst(o: OwnedObjects, views: seq<Handle>, framebuffers: seq<Handle>)
    requires |views| <= |framebuffers|
    ensures var t := TeardownEvents(o, views, framebuffers);
            DestroysChildrenFirst(t) &&
            t[|t| - 5] == Destroy(DeviceObject, o.device) && t[|t| - 4] == Destroy(SurfaceObject, o.surface) &&
            t[|t| - 3] == Destroy(MessengerObject, o.debugMessenger) &&
            t[|t| - 2] == Destroy(InstanceObject, o.instance) && t[|t| - 1] == Destroy(WindowObject, WINDOW_HANDLE)
  {
    var head := [Destroy(CommandPoolObject, o.commandPool)] + ImageTeardown(views, framebuffers, |views|);
    var tail := TeardownTail(o);
    assert forall k :: 0 <= k < |head| ==> EventLayer(head[k]) == 0 by {
      var images := ImageTeardown(views, framebuffers, |views|);
      forall k | 0 <= k < |head|
        ensures EventLayer(head[k]) == 0
      {
        if k > 0 {
          var m := k - 1;
          assert head[k] == images[m];
          assert images[2 * (m / 2)] == Destroy(ImageViewObject, views[m / 2]);
          assert images[2 * (m / 2) + 1] == Destroy(FramebufferObject, framebuffers[m / 2]);
        }
      }
    }
    var layers := [0, 0, 0, 0, 0, 0, 0, 1, 2, 2, 3, 4];
    assert forall k :: 0 <= k < |tail| ==> EventLayer(tail[k]) == layers[k];
    var t := head + tail;
    forall i, j | 0 <= i <= j < |t|
      ensures EventLayer(t[i]) <= EventLayer(t[j])
    {
      if j >= |head| {
        assert t[j] == tail[j - |head|];
        if i >= |head| {
          assert t[i] == tail[i - |head|];
        }
      }
    }
    LayeredDestroysChildrenFirst(t);
  }

  /**
   * Terminate leaves `_isInitialized` set, so a second call destroys the
   * device (and everything else) a second time.
   */
  lemma SecondTerminateDestroysDeviceAgain(o: OwnedObjects, views: seq<Handle>, framebuffers: seq<Handle>)
    requires |views| <= |framebuffers|
    ensures var t := TeardownEvents(o, views, framebuffers);
            var twice := t + t;
            exists i, j :: 0 <= i < j < |twice| && twice[i] == twice[j] == Destroy(DeviceObject, o.device)
  {
    var t := TeardownEvents(o, views, framebuffers);
    var k := 1 + 2 * |views| + 7;
    assert t[k] == Destroy(DeviceObject, o.device);
    assert (t + t)[k] == t[k] && (t + t)[|t| + k] == t[k];
  }

  // ---------------------------------------------------------------------------
  // The engine

  class Engine {
    const windowExtent: Extent2D
    var instance: Handle
    var debugMessenger: Handle
    var surface: Handle
    var physicalDevice: Handle
    var device: Handle
    var swapchain: Handle
    var swapchainImages: seq<Handle>
    var swapchainImageViews: seq<Handle>
    var swapchainImageFormat: Format
    var graphicsQueue: QueueRef
    var graphicsQueueFamily: nat
    var commandPool: Handle
    var mainCommandBuffer: Handle
    var renderPass: Handle
    var framebuffers: array<Handle>
    var presentSemaphore: Handle
    var renderSemaphore: Handle
    var renderFence: Handle
    var trianglePipeline: Handle
    var trianglePipelineLayout: Handle
    var frameNumber: int32
    var isInitialized: bool
    /** Every call made so far, oldest first. */
    var trace: seq<Event>
    /** Where in `trace` the render fence was created. */
    ghost var fenceCreatedAt: nat

    /** Once initialized: one framebuffer per image and one view per image. */
    predicate Valid()
      reads this
    {
      isInitialized ==> framebuffers.Length == |swapchainImages| == |swapchainImageViews|
    }

    /** The render fence's state, replayed from its creation on. */
    ghost function RenderFenceState(): FenceState
      reads this
    {
      if fenceCreatedAt <= |trace| then FenceReplay(Absent, renderFence, trace[fenceCreatedAt..]) else Absent
    }

    /** Since its creation, no wait on the fence stalled, and the next one will not. */
    ghost predicate FenceReady()
      reads this
    {
      fenceCreatedAt <= |trace| && WaitsNeverStall(Absent, renderFence, trace[fenceCreatedAt..]) && WaitReady(RenderFenceState())
    }

    function Frame(): FrameObjects
      reads this
    {
      FrameObjects(swapchain, presentSemaphore, renderSemaphore, renderFence, mainCommandBuffer, renderPass,
                   trianglePipeline, graphicsQueue, windowExtent)
    }

    function Owned(): OwnedObjects
      reads this
    {
      OwnedObjects(commandPool, trianglePipeline, trianglePipelineLayout, renderFence, presentSemaphore,
                   renderSemaphore, swapchain, renderPass, device, surface, debugMessenger, instance)
    }

    /** A new engine: nothing created, nothing recorded, the window extent 1440 by 900. */
    constructor ()
      ensures windowExtent == WINDOW_EXTENT
      ensures !isInitialized && frameNumber == 0 && trace == [] && framebuffers.Length == 0
      ensures Valid()
    {
      windowExtent := WINDOW_EXTENT;
      instance, debugMessenger, surface, physicalDevice, device, swapchain := 0, 0, 0, 0, 0, 0;
      swapchainImages, swapchainImageViews, swapchainImageFormat := [], [], FORMAT_UNDEFINED;
      graphicsQueue, graphicsQueueFamily := QueueRef(0, 0, 0), 0;
      commandPool, mainCommandBuffer, renderPass := 0, 0, 0;
      framebuffers := new Handle[0];
      presentSemaphore, renderSemaphore, renderFence := 0, 0, 0;
      trianglePipeline, trianglePipelineLayout := 0, 0;
      frameNumber := 0;
      isInitialized := false;
      trace := [];
      fenceCreatedAt := 0;
    }

    /**
     * Creates the window, then runs InitVulkan, InitCommands,
     * InitDefaultRenderPass, InitFrameBuffers, InitSyncStructures and
     * InitPipelines in that order, and only then sets `isInitialized`. Only
     * InitVulkan can fail; the engine's own create calls are not checked.
     */
    method Init(answers: SetupAnswers, handles: ObjectHandles) returns (failure: Option<Failure>)
      modifies this
      ensures failure.Some? ==> isInitialized == old(isInitialized) &&
                                trace == old(trace) + [WindowCreated(WINDOW_TITLE, windowExtent)]
      ensures answers.window.None? ==> failure == Some(WindowWithoutVulkanSurface)
      ensures failure == SetUpFailure(answers, windowExtent)
      ensures failure.None? ==>
                isInitialized && Valid() &&
                (forall i :: 0 <= i < framebuffers.Length ==> framebuffers[i] == handles.firstFramebuffer + i) &&
                trace == old(trace) + [WindowCreated(WINDOW_TITLE, windowExtent)] +
                                      [VulkanInitialized(instance, surface, device, swapchain)] +
                                      [CommandPoolCreated(handles.commandPool, graphicsQueueFamily, true),
                                       CommandBufferAllocated(handles.commandPool, handles.commandBuffer)] +
                                      [RenderPassCreated(handles.renderPass, swapchainImageFormat)] +
                                      FramebufferEvents(handles.renderPass, swapchainImageViews, windowExtent,
                                                        handles.firstFramebuffer, |swapchainImages|) +
                                      SyncEvents(handles) + PipelineEvents(handles, handles.renderPass)
      ensures failure.None? ==>
                commandPool == handles.commandPool && mainCommandBuffer == handles.commandBuffer &&
                renderPass == handles.renderPass && renderFence == handles.renderFence &&
                presentSemaphore == handles.presentSemaphore && renderSemaphore == handles.renderSemaphore &&
                trianglePipeline == handles.pipeline && trianglePipelineLayout == handles.pipelineLayout
      ensures failure.None? ==> FenceReady() && RenderFenceState() == Signaled
      ensures failure.None? ==>
                swapchainImageFormat == FORMAT_B8G8R8A8_SRGB && graphicsQueue.familyIndex == graphicsQueueFamily
      ensures frameNumber == old(frameNumber)
    {
      trace := trace + [WindowCreated(WINDOW_TITLE, windowExtent)];
      failure := InitVulkan(answers);
      if failure.Some? {
        return;
      }
      InitObjects(handles);
    }

    /**
     * The rest of Init once InitVulkan succeeded: InitCommands,
     * InitDefaultRenderPass, InitFrameBuffers, InitSyncStructures and
     * InitPipelines, then `isInitialized`.
     */
    method InitObjects(handles: ObjectHandles)
      requires |swapchainImageViews| == |swapchainImages|
      modifies this`commandPool, this`mainCommandBuffer, this`renderPass, this`framebuffers, this`renderFence,
               this`presentSemaphore, this`renderSemaphore, this`trianglePipeline, this`trianglePipelineLayout,
               this`trace, this`fenceCreatedAt, this`isInitialized
      ensures isInitialized && Valid()
      ensures forall i :: 0 <= i < framebuffers.Length ==> framebuffers[i] == handles.firstFramebuffer + i
      ensures trace == old(trace) + [CommandPoolCreated(handles.commandPool, graphicsQueueFamily, true),
                                     CommandBufferAllocated(handles.commandPool, handles.commandBuffer)] +
                                    [RenderPassCreated(handles.renderPass, swapchainImageFormat)] +
                                    FramebufferEvents(handles.renderPass, swapchainImageViews, windowExtent,
                                                      handles.firstFramebuffer, |swapchainImages|) +
                                    SyncEvents(handles) + PipelineEvents(handles, handles.renderPass)
      ensures commandPool == handles.commandPool && mainCommandBuffer == handles.commandBuffer &&
              renderPass == handles.renderPass && renderFence == handles.renderFence &&
              presentSemaphore == handles.presentSemaphore && renderSemaphore == handles.renderSemaphore &&
              trianglePipeline == handles.pipeline && trianglePipelineLayout == handles.pipelineLayout
      ensures FenceReady() && RenderFenceState() == Signaled
    {
      InitCommands(handles);
      InitDefaultRenderPass(handles);
      InitFrameBuffers(handles);
      InitSyncAndPipelines(handles);
      isInitialized := true;
    }

    /** InitSyncStructures then InitPipelines: afterwards the render fence is signaled and no wait stalls. */
    method InitSyncAndPipelines(handles: ObjectHandles)
      modifies this`renderFence, this`presentSemaphore, this`renderSemaphore, this`trianglePipeline,
               this`trianglePipelineLayout, this`trace, this`fenceCreatedAt
      ensures renderFence == handles.renderFence && presentSemaphore == handles.presentSemaphore &&
              renderSemaphore == handles.renderSemaphore
      ensures trianglePipeline == handles.pipeline && trianglePipelineLayout == handles.pipelineLayout
      ensures trace == old(trace) + SyncEvents(handles) + PipelineEvents(handles, renderPass)
      ensures FenceReady() && RenderFenceState() == Signaled
    {
      InitSyncStructures(handles);
      InitPipelines(handles);
      assert trace[fenceCreatedAt..] == SyncEvents(handles) + PipelineEvents(handles, renderPass);
      FenceReadyAfterSync(handles, renderPass);
    }

    /** InitVulkan: keeps what SetUpVulkan created and logs it. */
    method InitVulkan(answers: SetupAnswers) returns (failure: Option<Failure>)
      modifies this
      ensures isInitialized == old(isInitialized) && frameNumber == old(frameNumber)
      ensures failure.Some? ==> trace == old(trace)
      ensures answers.window.None? ==> failure == Some(WindowWithoutVulkanSurface)
      ensures failure == SetUpFailure(answers, windowExtent)
      ensures failure.None? ==>
                trace == old(trace) + [VulkanInitialized(instance, surface, device, swapchain)] &&
                |swapchainImageViews| == |swapchainImages| &&
                swapchainImageFormat == FORMAT_B8G8R8A8_SRGB && graphicsQueue.familyIndex == graphicsQueueFamily
    {
      var setup := SetUpVulkan(answers, windowExtent);
      if setup.Err? {
        return Some(setup.error);
      }
      KeepVulkanObjects(setup.value);
      failure := None;
    }

    /** The success path of InitVulkan: the fields take the created objects, and the trace logs them. */
    method KeepVulkanObjects(v: VulkanObjects)
      modifies this`instance, this`debugMessenger, this`surface, this`physicalDevice, this`device,
               this`graphicsQueueFamily, this`graphicsQueue, this`swapchain, this`swapchainImages,
               this`swapchainImageViews, this`swapchainImageFormat, this`trace
      ensures instance == v.instance && debugMessenger == v.debugMessenger && surface == v.surface
      ensures physicalDevice == v.physicalDevice.handle && device == v.device
      ensures graphicsQueueFamily == v.graphicsQueueFamily && graphicsQueue == v.graphicsQueue
      ensures swapchain == v.swapchain && swapchainImages == v.swapchainImages &&
              swapchainImageViews == v.swapchainImageViews && swapchainImageFormat == v.swapchainImageFormat
      ensures trace == old(trace) + [VulkanInitialized(v.instance, v.surface, v.device, v.swapchain)]
    {
      instance, debugMessenger, surface := v.instance, v.debugMessenger, v.surface;
      physicalDevice, device := v.physicalDevice.handle, v.device;
      graphicsQueueFamily, graphicsQueue := v.graphicsQueueFamily, v.graphicsQueue;
      swapchain, swapchainImages, swapchainImageViews := v.swapchain, v.swapchainImages, v.swapchainImageViews;
      swapchainImageFormat := v.swapchainImageFormat;
      trace := trace + [VulkanInitialized(instance, surface, device, swapchain)];
    }

    /** InitCommands: a resettable pool on the graphics family, and one primary buffer from it. */
    method InitCommands(handles: ObjectHandles)
      modifies this`commandPool, this`mainCommandBuffer, this`trace
      ensures commandPool == handles.commandPool && mainCommandBuffer == handles.commandBuffer
      ensures trace == old(trace) + [CommandPoolCreated(handles.commandPool, graphicsQueueFamily, true),
                                     CommandBufferAllocated(handles.commandPool, handles.commandBuffer)]
    {
      commandPool, mainCommandBuffer := handles.commandPool, handles.commandBuffer;
      trace := trace + [CommandPoolCreated(commandPool, graphicsQueueFamily, true),
                        CommandBufferAllocated(commandPool, mainCommandBuffer)];
    }

    /** InitDefaultRenderPass: one colour attachment in the swapchain's format. */
    method InitDefaultRenderPass(handles: ObjectHandles)
      modifies this`renderPass, this`trace
      ensures renderPass == handles.renderPass
      ensures trace == old(trace) + [RenderPassCreated(handles.renderPass, swapchainImageFormat)]
    {
      renderPass := handles.renderPass;
      trace := trace + [RenderPassCreated(renderPass, swapchainImageFormat)];
    }

    /** InitFrameBuffers: one framebuffer per swapchain image, at the window's extent. */
    method InitFrameBuffers(handles: ObjectHandles)
      requires |swapchainImageViews| == |swapchainImages|
      modifies this`framebuffers, this`trace
      ensures framebuffers.Length == |swapchainImages|
      ensures forall i :: 0 <= i < framebuffers.Length ==> framebuffers[i] == handles.firstFramebuffer + i
      ensures trace == old(trace) + FramebufferEvents(renderPass, swapchainImageViews, windowExtent,
                                                      handles.firstFramebuffer, |swapchainImages|)
    {
      var created, events := CreateFramebuffers(renderPass, swapchainImageViews, |swapchainImages|,
                                                windowExtent, handles.firstFramebuffer);
      framebuffers := created;
      trace := trace + events;
    }

    /** InitSyncStructures: the render fence, created signaled, then the two semaphores. */
    method InitSyncStructures(handles: ObjectHandles)
      modifies this`renderFence, this`presentSemaphore, this`renderSemaphore, this`trace, this`fenceCreatedAt
      ensures renderFence == handles.renderFence && presentSemaphore == handles.presentSemaphore &&
              renderSemaphore == handles.renderSemaphore
      ensures fenceCreatedAt == |old(trace)| && trace == old(trace) + SyncEvents(handles)
    {
      renderFence, presentSemaphore, renderSemaphore := handles.renderFence, handles.presentSemaphore, handles.renderSemaphore;
      fenceCreatedAt := |trace|;
      trace := trace + SyncEvents(handles);
    }

    /** InitPipelines: the shader log lines, the empty layout, then the triangle pipeline. */
    method InitPipelines(handles: ObjectHandles)
      modifies this`trianglePipeline, this`trianglePipelineLayout, this`trace
      ensures trianglePipeline == handles.pipeline && trianglePipelineLayout == handles.pipelineLayout
      ensures trace == old(trace) + PipelineEvents(handles, renderPass)
    {
      trianglePipelineLayout, trianglePipeline := handles.pipelineLayout, handles.pipeline;
      trace := trace + PipelineEvents(handles, renderPass);
    }

    /**
     * One frame. `acquired` is the index the driver writes when acquisition
     * succeeds; on failure the index keeps its initial 0. Reading the
     * framebuffer at that index throws when it is out of range, after the
     * command buffer has begun.
     */
    method Draw(acquired: Option<nat>) returns (failure: Option<Failure>)
      requires isInitialized && Valid()
      modifies this
      ensures var imageIndex := if acquired.Some? then acquired.value else 0;
              if imageIndex < framebuffers.Length then
                failure.None? && frameNumber == Wrap32(old(frameNumber) + 1) &&
                trace == old(trace) + FrameStart(Frame()) + FrameFinish(Frame(), framebuffers[imageIndex], imageIndex)
              else
                failure == Some(IndexOutOfRange) && frameNumber == old(frameNumber) &&
                trace == old(trace) + FrameStart(Frame())
      ensures old(FenceReady()) ==> (FenceReady() <==> failure.None?)
      ensures old(FenceReady()) && failure.None? ==> RenderFenceState() == Pending
      ensures isInitialized && Valid() && Frame() == old(Frame()) && Owned() == old(Owned())
      ensures framebuffers == old(framebuffers) && swapchainImageViews == old(swapchainImageViews)
      ensures fenceCreatedAt == old(fenceCreatedAt)
    {
      var o := Frame();
      var imageIndex := if acquired.Some? then acquired.value else 0;
      trace := trace + FrameStart(o);
      if imageIndex >= framebuffers.Length {
        failure := Some(IndexOutOfRange);
      } else {
        trace := trace + FrameFinish(o, framebuffers[imageIndex], imageIndex);
        frameNumber := Wrap32(frameNumber + 1);
        failure := None;
      }
      if fenceCreatedAt <= |old(trace)| {
        FrameOutcome(old(trace), imageIndex, failure);
      }
    }

    /** How one Draw moves the fence, from the trace Draw leaves behind. */
    lemma FrameOutcome(before: seq<Event>, imageIndex: nat, failure: Option<Failure>)
      requires fenceCreatedAt <= |before|
      requires imageIndex < framebuffers.Length ==>
                 failure.None? && trace == before + FrameStart(Frame()) + FrameFinish(Frame(), framebuffers[imageIndex], imageIndex)
      requires imageIndex >= framebuffers.Length ==> failure.Some? && trace == before + FrameStart(Frame())
      ensures var prior := before[fenceCreatedAt..];
              var s := FenceReplay(Absent, renderFence, prior);
              WaitsNeverStall(Absent, renderFence, prior) && WaitReady(s) ==>
                (FenceReady() <==> failure.None?) && (failure.None? ==> RenderFenceState() == Pending)
    {
      var prior := before[fenceCreatedAt..];
      var s := FenceReplay(Absent, renderFence, prior);
      if WaitsNeverStall(Absent, renderFence, prior) && WaitReady(s) {
        var o := Frame();
        if imageIndex < framebuffers.Length {
          var frame := FrameStart(o) + FrameFinish(o, framebuffers[imageIndex], imageIndex);
          assert trace[fenceCreatedAt..] == prior + frame;
          FrameKeepsFenceReady(s, o, framebuffers[imageIndex], imageIndex);
          ReplayAppend(Absent, renderFence, prior, frame);
        } else {
          assert trace[fenceCreatedAt..] == prior + FrameStart(o);
          InterruptedFrameLeavesFenceUnsignaled(s, o);
          ReplayAppend(Absent, renderFence, prior, FrameStart(o));
        }
      }
    }

    /**
     * The window's render loop calls Draw once per frame in `frames` (the
     * acquired indices); an exception from Draw ends the loop and Run. When
     * the loop ends normally the device is waited on.
     */
    method Run(frames: seq<Option<nat>>) returns (failure: Option<Failure>)
      requires isInitialized && Valid()
      modifies this
      ensures failure.None? ==>
                frameNumber == Wrap32(old(frameNumber) + |frames|) &&
                |trace| > |old(trace)| && trace[|trace| - 1] == DeviceWaitIdle(device)
      ensures failure.None? && old(FenceReady()) ==> FenceReady()
      ensures |old(trace)| <= |trace| && trace[..|old(trace)|] == old(trace)
      ensures isInitialized && Valid() && Frame() == old(Frame()) && Owned() == old(Owned())
    {
      var n := 0;
      while n < |frames|
        invariant 0 <= n <= |frames|
        invariant isInitialized && Valid() && Frame() == old(Frame()) && Owned() == old(Owned())
        invariant frameNumber == Wrap32(old(frameNumber) + n)
        invariant old(FenceReady()) ==> FenceReady()
        invariant fenceCreatedAt == old(fenceCreatedAt)
        invariant |old(trace)| <= |trace| && trace[..|old(trace)|] == old(trace)
      {
        ghost var before := trace;
        failure := Draw(frames[n]);
        assert trace[..|before|] == before;
        if failure.Some? {
          return;
        }
        Wrap32Add(old(frameNumber) + n, 1);
        n := n + 1;
      }
      ghost var before := trace;
      trace := trace + [DeviceWaitIdle(device)];
      if old(FenceReady()) {
        assert trace[fenceCreatedAt..] == before[fenceCreatedAt..] + [DeviceWaitIdle(device)];
        ReplayAppend(Absent, renderFence, before[fenceCreatedAt..], [DeviceWaitIdle(device)]);
      }
      failure := None;
    }

    /**
     * Does nothing unless initialized; otherwise destroys the command pool,
     * view i and framebuffer i for every view, then the remaining objects
     * down to the instance and the window. `isInitialized` stays set.
     */
    method Terminate()
      requires Valid()
      modifies this
      ensures isInitialized == old(isInitialized) && Valid()
      ensures !old(isInitialized) ==> trace == old(trace)
      ensures old(isInitialized) ==> trace == old(trace) + TeardownEvents(Owned(), swapchainImageViews, framebuffers[..])
      ensures Owned() == old(Owned()) && framebuffers == old(framebuffers) && swapchainImageViews == old(swapchainImageViews)
    {
      if !isInitialized {
        return;
      }
      var events := [Destroy(CommandPoolObject, commandPool)];
      for i := 0 to |swapchainImageViews|
        invariant events == [Destroy(CommandPoolObject, commandPool)] + ImageTeardown(swapchainImageViews, framebuffers[..], i)
      {
        events := events + [Destroy(ImageViewObject, swapchainImageViews[i]), Destroy(FramebufferObject, framebuffers[i])];
      }
      trace := trace + events + TeardownTail(Owned());
    }
  }
}
