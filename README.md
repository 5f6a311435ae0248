# VkGuide engine and the Vulkanize builders, in Dafny

This project models the core of a small C# Vulkan renderer. The renderer is
a port of the "vkguide" tutorial engine, built on a helper library called
Vulkanize. The model covers:

- **Vulkanize.** These are fluent builders:
  - `InstanceBuilder` creates the Vulkan instance and the debug messenger.
  - `PhysicalDeviceSelector` filters the enumerated GPUs and picks one.
  - `DeviceBuilder` requests one queue per distinct queue family and creates the logical device.
  - `SwapchainBuilder` validates the present mode, format, extent and image count, then creates the swapchain and its image views.
  - `Vulkanize` holds the static helpers: queue-family discovery, the validation-layer check and the surface-support query.
- **The engine** (`VkGuide/Engine.cs`). Its lifecycle runs `Init`, `Run`/`Draw` and `Terminate`. It is modelled as a state machine that records every Vulkan, GLFW and window call it makes as an event in a trace.
- **The deletion queue**, a stack of teardown actions.
- **The vertex layout** and the vertex input description derived from it.

The driver, the window system and the GPU are not part of the model:
- What the driver reports about a physical device (type, queue families, extensions, surface formats and present modes, features) is a `Gpu` record.
- The answers to create calls are inputs: `Option<Handle>` values, where `None` means the call did not return success.
- The exceptions the C# code throws become `Failure` values in a `Result`.

The model follows the code as written, including places where it does
something other than what its names suggest:
- The feature test is inverted: a device passes when every feature it *supports* was *requested*.
- With a preferred device type, the *last* suitable device of that type is picked. When none qualifies, device 0 is picked, even if it is unsuitable.
- The validation-layer check compares the available layers with themselves, so it always succeeds.
- The present modes are read with the *format* count as the buffer capacity.
- The image count is computed in 32-bit unsigned arithmetic and can wrap.
- `Math.Clamp` throws when a surface's minimum extent exceeds its maximum.
- Framebuffers are sized to the window, not to the swapchain extent.
- `Terminate` leaves `_isInitialized` set, so a second call tears everything down again.
- The frame counter is a wrapping 32-bit `int`.
- `Draw` uses one set of per-frame objects.
- A failed image acquisition leaves the image index at 0.

Each of these is stated as a property of the model, and most have a concrete
witness lemma.

Modules: `Wrappers` (Option, Result), `VkTypes` (the Vulkan vocabulary),
`Deletion`, `Vulkanize`, `PhysicalDevice`, `Device`, `Swapchain`, `Instance`,
`VkEngine` and `VertexLayout`. There is one module per source file.

## Model

| member | source | states |
|---|---|---|
| Deletion.DeletionQueue.constructor | VkGuide/DeletionQueue.cs:6-9 | a new queue holds no actions and has invoked none |
| Deletion.DeletionQueue.Queue | VkGuide/DeletionQueue.cs:11 | pushes the action on top of the stack without invoking anything |
| Deletion.DeletionQueue.Flush | VkGuide/DeletionQueue.cs:14-21 | empties the stack and invokes the actions top first: the invocation record grows by exactly `Reversed(old stack)` |
| Deletion.ReversedAt | VkGuide/DeletionQueue.cs:14-21 | the k-th action a flush invokes is the k-th from the top of the stack |
| Deletion.ReversedMultiset | VkGuide/DeletionQueue.cs:14-21 | a flush invokes every queued action exactly as often as it was queued |
| Deletion.ReversedAppend | VkGuide/DeletionQueue.cs:11-21 | actions queued later are invoked earlier: the later batch is flushed first |
| Deletion.ReversedReversed | VkGuide/DeletionQueue.cs:14-21 | popping order reversed is pushing order |
| Deletion.QueueAndFlush | VkGuide/DeletionQueue.cs:11-21 | queueing a batch on an empty stack and then flushing tears down exactly that batch, last registered first, and leaves the stack empty |
| Vulkanize.FindQueueFamilies | Vulkanize/Vulkanize.cs:86-112 | the scan returns, within the families it visits before the early exit, the last with the graphics bit and the last that can present |
| Vulkanize.ScanLength | Vulkanize/Vulkanize.cs:98-110 | the scan visits between the families already visited and all of them |
| Vulkanize.LastMatchingSpec | Vulkanize/Vulkanize.cs:98-106 | an index that is overwritten on every match holds the last matching family, and stays null iff nothing matched |
| Vulkanize.ScanLengthSpec | Vulkanize/Vulkanize.cs:108-109 | the scan stops at the first prefix holding both kinds of family, or at the end |
| Vulkanize.FoundFamiliesAreCapable | Vulkanize/Vulkanize.cs:98-110 | a returned index names a family of the device that has the capability |
| Vulkanize.GraphicsFoundIff | Vulkanize/Vulkanize.cs:100-101 | the graphics index is set iff some family has the graphics bit |
| Vulkanize.PresentFoundIff | Vulkanize/Vulkanize.cs:103-106 | the present index is set iff some family can present |
| Vulkanize.FoundCompleteIff | Vulkanize/Vulkanize.cs:10-13 | `IsComplete` of the result holds iff the device has a graphics family and a presenting family |
| Vulkanize.ScanStopsAtFirstComplete | Vulkanize/Vulkanize.cs:108-109 | on an early exit, the scan stopped at the first index by which both kinds were seen, and each index is the last qualifying one up to there |
| Vulkanize.IncompleteScanVisitsAll | Vulkanize/Vulkanize.cs:98-110 | without an early exit, each index found is the last qualifying family of the whole device |
| Vulkanize.GraphicsIndexIsNotFirst | Vulkanize/Vulkanize.cs:100-101 | with a graphics-only family first and a graphics-and-present family second, family 1 is chosen for graphics, not family 0 |
| Vulkanize.CheckValidationLayerSupport | Vulkanize/Vulkanize.cs:38-50 | the check succeeds whatever layers are available |
| Vulkanize.PresentModesAsRead | Vulkanize/Vulkanize.cs:76-80 | one slot per reported mode; slots past the capacity keep IMMEDIATE |
| Vulkanize.QuerySwapChainSupport | Vulkanize/Vulkanize.cs:52-84 | capabilities as reported; one entry per reported format and mode; empty arrays when a count is 0 |
| Vulkanize.SupportReadBackExactly | Vulkanize/Vulkanize.cs:52-84 | formats are read back exactly, and modes are read back exactly when there are no more modes than formats |
| Vulkanize.PresentModesMisread | Vulkanize/Vulkanize.cs:79 | with one format and the modes [FIFO, MAILBOX], the engine reads [FIFO, IMMEDIATE] |
| PhysicalDevice.IsSuitableIff | Vulkanize/PhysicalDeviceSelector.cs:109-135 | suitable iff the device has a graphics and a presenting family, every requested extension, a non-empty surface report when a swapchain is required, and only requested features |
| PhysicalDevice.FeatureTestIsInverted | Vulkanize/PhysicalDeviceSelector.cs:131-135 | a device supporting the requested feature plus another fails the feature test; a device supporting nothing passes it |
| PhysicalDevice.PickFromAnyIsPick | Vulkanize/PhysicalDeviceSelector.cs:97-106 | with Any, the scan returns the first suitable device, or 0 when none is suitable |
| PhysicalDevice.PickFromPreferredIsPick | Vulkanize/PhysicalDeviceSelector.cs:97-106 | with a preference, the scan returns the last suitable device of the target type, or 0 when there is none |
| PhysicalDevice.PickFromStartIsPick | Vulkanize/PhysicalDeviceSelector.cs:87-107 | PickDevice's scan from the start satisfies `IsPick` |
| PhysicalDevice.PickIsUnique | Vulkanize/PhysicalDeviceSelector.cs:87-107 | at most one index satisfies `IsPick`, so the pick is a function of the devices |
| PhysicalDevice.SoleSuitableDevicePicked | Vulkanize/PhysicalDeviceSelector.cs:97-106 | the only suitable device is picked when the preference is Any, matches its type, or it is first in line |
| PhysicalDevice.PreferenceFallsBackToUnsuitable | Vulkanize/PhysicalDeviceSelector.cs:104-106 | asking for high performance with an unsuitable discrete GPU first and a suitable integrated GPU second picks the unsuitable device 0 |
| PhysicalDevice.PhysicalDeviceSelector.constructor | Vulkanize/PhysicalDeviceSelector.cs:28-33 | no surface, no swapchain requirement, preference Any, no extensions, no features |
| PhysicalDevice.PhysicalDeviceSelector.SetPreferredDeviceType | Vulkanize/PhysicalDeviceSelector.cs:35-39 | sets the preference and changes nothing else |
| PhysicalDevice.PhysicalDeviceSelector.SetSurface | Vulkanize/PhysicalDeviceSelector.cs:41-45 | sets the surface and changes nothing else |
| PhysicalDevice.PhysicalDeviceSelector.AddExtension | Vulkanize/PhysicalDeviceSelector.cs:47-51 | appends the extension, keeping earlier ones and duplicates |
| PhysicalDevice.PhysicalDeviceSelector.SetDeviceFeatures | Vulkanize/PhysicalDeviceSelector.cs:53-57 | replaces the requested features and changes nothing else |
| PhysicalDevice.PhysicalDeviceSelector.RequireSwapChain | Vulkanize/PhysicalDeviceSelector.cs:59-64 | appends VK_KHR_swapchain and sets the swapchain requirement |
| PhysicalDevice.PhysicalDeviceSelector.PickDevice | Vulkanize/PhysicalDeviceSelector.cs:87-107 | the loop returns the index `IsPick` describes |
| PhysicalDevice.PhysicalDeviceSelector.Select | Vulkanize/PhysicalDeviceSelector.cs:66-85 | fails with "no GPU" iff no device is enumerated; otherwise returns the picked device (the one the source's scan ends on) with the surface, extensions and features |
| PhysicalDevice.NewSelector | Vulkanize/PhysicalDeviceSelector.cs:28-33 | fails iff no instance exists; otherwise returns a fresh selector with no requirements |
| Device.UniqueQueueFamilies | Vulkanize/DeviceBuilder.cs:36-37 | `Distinct()` of [graphics, present]: graphics first, no duplicates, exactly the two families |
| Device.BuildQueueCreateInfos | Vulkanize/DeviceBuilder.cs:43-52 | entry i requests one queue of family i |
| Device.DeviceBuilder.constructor | Vulkanize/DeviceBuilder.cs:15-19 | validation off, no pNext, no layers |
| Device.DeviceBuilder.EnableValidationLayers | Vulkanize/DeviceBuilder.cs:20-25 | sets the flag; `true` appends the validation layer on every call; `false` removes nothing |
| Device.DeviceBuilder.AddPNext | Vulkanize/DeviceBuilder.cs:27-31 | sets the pNext chain and changes nothing else |
| Device.DeviceBuilder.Build | Vulkanize/DeviceBuilder.cs:33-94 | a request is made iff both queue families exist. The request holds one queue per distinct family, the selected features and extensions, and the layers only when validation is on. It succeeds iff the driver creates the device, returning queue 0 of the graphics family |
| Swapchain.Clamp | Vulkanize/SwapchainBuilder.cs:182-183 | `Math.Clamp`: throws iff min > max; otherwise the result lies in the bounds and equals the value when it already does |
| Swapchain.ClampIsNearest | Vulkanize/SwapchainBuilder.cs:182-183 | the clamped value is the point of the range nearest the requested one |
| Swapchain.ValidateSwapExtent | Vulkanize/SwapchainBuilder.cs:175-185 | the current extent when its width is not UINT32_MAX. Otherwise width and height are each clamped into the surface's bounds, keeping a desired value that is within bounds, and it fails iff a minimum exceeds its maximum |
| Swapchain.ImageCount | Vulkanize/SwapchainBuilder.cs:80-82 | one more than the minimum, lowered to a non-zero maximum when that is exceeded; never above a non-zero maximum |
| Swapchain.ThreeImagesFromMinimumTwo | Vulkanize/SwapchainBuilder.cs:80-82 | a minimum of 2 gives 3 images unless the maximum is 2 |
| Swapchain.ImageCountWrapsAtUint32Max | Vulkanize/SwapchainBuilder.cs:80 | a minimum of UINT32_MAX wraps to 0 images |
| Swapchain.SharingFor | Vulkanize/SwapchainBuilder.cs:96-111 | concurrent sharing between both families iff they differ; exclusive with no family list otherwise |
| Swapchain.SwapchainBuilder.constructor | Vulkanize/SwapchainBuilder.cs:21-27 | every field holds its C# default until a setter runs |
| Swapchain.SwapchainBuilder.SetDesiredExtent | Vulkanize/SwapchainBuilder.cs:29-33 | sets the extent and changes nothing else |
| Swapchain.SwapchainBuilder.SetDesiredExtentFromInts | Vulkanize/SwapchainBuilder.cs:35-36 | each int goes through an unchecked cast to uint |
| Swapchain.SwapchainBuilder.SetDesiredPresentMode | Vulkanize/SwapchainBuilder.cs:39-43 | sets the present mode and changes nothing else |
| Swapchain.SwapchainBuilder.UseFormat | Vulkanize/SwapchainBuilder.cs:45-49 | sets the surface format and changes nothing else |
| Swapchain.SwapchainBuilder.UseDefaultFormat | Vulkanize/SwapchainBuilder.cs:51-56 | B8G8R8A8 sRGB in the sRGB non-linear colour space |
| Swapchain.SwapchainBuilder.ValidFormat | Vulkanize/SwapchainBuilder.cs:165-173 | true iff some supported entry matches both the format and the colour space |
| Swapchain.SwapchainBuilder.CreateSwapchain | Vulkanize/SwapchainBuilder.cs:71-129 | checks in source order: present mode, format, extent, queue families, creation (SwapchainFailure names the first that fails). The request carries the clamped extent, the image count, the sharing mode and the settings. The images are the driver's |
| Swapchain.SwapchainBuilder.CreateImageViews | Vulkanize/SwapchainBuilder.cs:131-162 | one 2D colour view per image, in image order, one mip level and one layer; the first failure aborts |
| Swapchain.SwapchainBuilder.Build | Vulkanize/SwapchainBuilder.cs:58-69 | succeeds iff every swapchain check passes, the swapchain is created and every image view is created; otherwise the error is that of the first step that throws. On success the request has the image count and extent, and the result holds the swapchain, its images and one view per image in the chosen format |
| Instance.DefaultDebugCallback | Vulkanize/InstanceBuilder.cs:238-246 | never asks to abort the call; logs unless the severity is exactly VERBOSE |
| Instance.DefaultMaskLogsWarningsAndErrors | Vulkanize/InstanceBuilder.cs:26-28 | of the single severities the default mask admits, only warnings and errors are logged |
| Instance.InstanceBuilder.constructor | Vulkanize/InstanceBuilder.cs:14-35 | the defaults: empty application name, version 1.0.0, "No Engine", API 1.2, verbose, warning and error severities, all three message types, no layers or extensions |
| Instance.InstanceBuilder.SetAppName | Vulkanize/InstanceBuilder.cs:37-41 | changes only the application name |
| Instance.InstanceBuilder.SetEngineName | Vulkanize/InstanceBuilder.cs:43-47 | changes only the engine name |
| Instance.InstanceBuilder.SetAppVersion | Vulkanize/InstanceBuilder.cs:49-56 | changes only the application version |
| Instance.InstanceBuilder.SetEngineVersion | Vulkanize/InstanceBuilder.cs:58-65 | changes only the engine version |
| Instance.InstanceBuilder.RequireApiVersion | Vulkanize/InstanceBuilder.cs:67-74 | changes only the API version |
| Instance.InstanceBuilder.EnableLayers | Vulkanize/InstanceBuilder.cs:76-86 | appends the layer names in order |
| Instance.InstanceBuilder.EnableExtensions | Vulkanize/InstanceBuilder.cs:88-98 | appends the extension names in order |
| Instance.InstanceBuilder.EnableValidationLayers | Vulkanize/InstanceBuilder.cs:100-109 | sets the flag; `true` appends VK_EXT_debug_utils and the Khronos validation layer on every call |
| Instance.InstanceBuilder.UseDebugCallback | Vulkanize/InstanceBuilder.cs:111-123 | turns the messenger on with the given callback (the default one for UseDefaultDebugMessenger) |
| Instance.InstanceBuilder.UseDebugMessageSeverity | Vulkanize/InstanceBuilder.cs:125-130 | turns the messenger on and replaces the severity mask |
| Instance.InstanceBuilder.AddDebugMessageSeverity | Vulkanize/InstanceBuilder.cs:132-137 | turns the messenger on and ORs into the severity mask |
| Instance.InstanceBuilder.UseDebugMessageType | Vulkanize/InstanceBuilder.cs:139-144 | turns the messenger on and replaces the type mask |
| Instance.InstanceBuilder.AddDebugMessageType | Vulkanize/InstanceBuilder.cs:146-151 | turns the messenger on and ORs into the type mask |
| Instance.InstanceBuilder.UseRequiredWindowExtensions | Vulkanize/InstanceBuilder.cs:153-161 | fails iff the window has no Vulkan surface; otherwise appends the window's extensions |
| Instance.InstanceBuilder.Build | Vulkanize/InstanceBuilder.cs:162-236 | the request carries the application info, extensions and layers. The messenger info is chained iff validation and the messenger are both on. With validation, the messenger is created after the instance. Each failure is reported in source order |
| Instance.ValidationOnlyRequest | Vulkanize/InstanceBuilder.cs:100-109 | a builder that only had validation switched on requests exactly the validation layer and VK_EXT_debug_utils, with nothing chained |
| VkEngine.Wrap32 | VkGuide/Engine.cs:334 | two's-complement wrap: identity within the int range, and congruent to the input mod 2^32 |
| VkEngine.Wrap32Add | VkGuide/Engine.cs:334 | wrapping after every increment equals wrapping once at the end |
| VkEngine.FrameNumberWraps | VkGuide/Engine.cs:334 | incrementing int.MaxValue gives int.MinValue |
| VkEngine.ReplayAppend | VkGuide/Engine.cs:266-267 | replaying the fence over two trace segments is replaying them one after the other |
| VkEngine.FrameIsChained | VkGuide/Engine.cs:264-335 | each frame acquires, then submits once recording ended and waiting on the acquire's semaphore, then presents waiting on the submit's semaphore |
| VkEngine.FrameKeepsFenceReady | VkGuide/Engine.cs:266-318 | a frame begun with the fence signaled or pending never stalls on its wait and leaves the fence pending |
| VkEngine.InterruptedFrameLeavesFenceUnsignaled | VkGuide/Engine.cs:266-293 | a frame cut off after resetting the fence leaves it unsignaled, so the next frame's wait stalls |
| VkEngine.FenceReadyAfterSync | VkGuide/Engine.cs:184-192 | the fence is created signaled, so the first frame's wait returns at once |
| VkEngine.CreateInstanceAndSurface | VkGuide/Engine.cs:75-84 | succeeds iff the window has a Vulkan surface and the instance, the debug-utils loader and the messenger all succeed; the error names the first that fails. On success it returns the instance, the messenger and the window's surface |
| VkEngine.SelectPhysicalDevice | VkGuide/Engine.cs:86-90 | fails iff no device is enumerated; otherwise the pick under "swapchain required, any type", which is the device the scan ends on |
| VkEngine.CreateLogicalDevice | VkGuide/Engine.cs:92-97 | succeeds iff both queue families exist and the device is created, and otherwise names which of the two failed. The families are the ones found; the graphics queue is queue 0 of a family with the graphics bit |
| VkEngine.InitSwapchain | VkGuide/Engine.cs:101-113 | succeeds iff the swapchain checks pass for FIFO-relaxed, the default format and the window's extent, and every view is created. Otherwise the error is the first check's that fails, so FIFO-relaxed missing gives "present mode unsupported" and B8G8R8A8 sRGB missing gives "format unsupported". On success: B8G8R8A8 sRGB, the driver's images and one colour view per image |
| VkEngine.SetUpVulkan | VkGuide/Engine.cs:73-113 | succeeds iff SetUpFailure finds no failing step, and on failure returns that step's error. On success the engine holds the created objects, one view per image, and the graphics family with queue 0 of it |
| VkEngine.SetUpSucceedsOnFirstSuitableDevice | VkGuide/Engine.cs:73-113 | when the first suitable device presents FIFO-relaxed in the default format, its extent validates and every driver call succeeds, InitVulkan completes whatever devices follow |
| VkEngine.FramebufferEvents | VkGuide/Engine.cs:173-181 | framebuffer i attaches view i, at the window's size |
| VkEngine.CreateFramebuffers | VkGuide/Engine.cs:161-182 | one framebuffer per swapchain image, created in image order |
| VkEngine.LayerRespectsDependencies | VkGuide/Engine.cs:337-360 | every destruction dependency points to a strictly higher layer |
| VkEngine.LayeredDestroysChildrenFirst | VkGuide/Engine.cs:337-360 | a destruction sequence whose layers never decrease destroys every object before what it depends on |
| VkEngine.ImageTeardown | VkGuide/Engine.cs:343-347 | for each view, view i is destroyed and then framebuffer i |
| VkEngine.TeardownDestroysChildrenFirst | VkGuide/Engine.cs:337-360 | Terminate destroys every object before its parent. The device goes just before the surface and then the messenger; the instance is the last Vulkan object and the window goes after it |
| VkEngine.SecondTerminateDestroysDeviceAgain | VkGuide/Engine.cs:339 | because `_isInitialized` stays set, two Terminate calls destroy the device twice |
| VkEngine.Engine.constructor | VkGuide/Engine.cs:18-52 | nothing created, window extent 1440 by 900, frame 0, not initialized |
| VkEngine.Engine.Init | VkGuide/Engine.cs:54-71 | creates the window and then runs the init steps in source order, and only then sets `_isInitialized`. It fails exactly when SetUpFailure names a failing step, and with that step's error. Afterwards the fence is signaled, and there is one framebuffer and one view per image |
| VkEngine.Engine.InitVulkan | VkGuide/Engine.cs:73-99 | its failure is exactly SetUpFailure's; on success it stores what SetUpVulkan created and logs it, and on failure the trace is unchanged |
| VkEngine.Engine.KeepVulkanObjects | VkGuide/Engine.cs:82-112 | the engine's fields take the created instance, messenger, surface, devices, queue and swapchain, and the trace logs them |
| VkEngine.Engine.InitCommands | VkGuide/Engine.cs:115-122 | a resettable pool on the graphics family, then one buffer from it |
| VkEngine.Engine.InitDefaultRenderPass | VkGuide/Engine.cs:124-160 | one render pass in the swapchain's format |
| VkEngine.Engine.InitFrameBuffers | VkGuide/Engine.cs:161-182 | one framebuffer per image, each attaching its view, at the window's size |
| VkEngine.Engine.InitSyncStructures | VkGuide/Engine.cs:184-202 | the render fence, created signaled, then the present and render semaphores |
| VkEngine.Engine.InitPipelines | VkGuide/Engine.cs:204-240 | a log line per shader that fails to load, then the layout and the pipeline |
| VkEngine.Engine.Draw | VkGuide/Engine.cs:264-335 | wait, reset, acquire, record into the acquired image's framebuffer, submit, present, then increment the counter with wrap-around. An out-of-range index throws after the command buffer began. From a ready fence, the fence stays ready iff the frame completes |
| VkEngine.Engine.Run | VkGuide/Engine.cs:257-262 | draws each frame until one throws. When no frame throws, the counter advances by the number of frames, the last call is a device wait, and fence readiness is kept |
| VkEngine.Engine.Terminate | VkGuide/Engine.cs:337-360 | does nothing unless initialized; otherwise emits exactly the teardown sequence and leaves `_isInitialized` set |
| VertexLayout.GetVertexDescription | VkGuide/Types/Vertex.cs:17-65 | one per-vertex binding 0 with the struct's size (44) as stride. Four attributes at locations 0 to 3 on binding 0, at the field offsets 0, 12, 24 and 36, each with a format whose size equals its field's |
| VertexLayout.VertexOffsets | VkGuide/Types/Vertex.cs:12-15 | Position at 0, Normal at 12, Color at 24, Uv at 36, 44 bytes in all |
| VertexLayout.OffsetsGrow | VkGuide/Types/Vertex.cs:12-15 | in a sequential layout, a field ends at or before the offset of every later field |
| VertexLayout.FieldWithinStruct | VkGuide/Types/Vertex.cs:12-15 | every field ends within the struct |
| VertexLayout.DescriptionFitsVertex | VkGuide/Types/Vertex.cs:17-65 | attribute offsets strictly increase, each attribute lies within the stride, and no two attributes overlap |

## Left out

- The Vulkan, GLFW and window calls themselves. Their answers are inputs: `Gpu` records, `Option<Handle>` create results, `SetupAnswers` and `ObjectHandles`. The calls the engine makes appear only as trace events.
- `CheckKhrSurfaceExtension` and `CheckKhrSwapchainExtension` (Vulkanize/Vulkanize.cs:18-36) only load driver extensions, and are treated as always succeeding.
- The macOS portability extension and flag are not modelled. Both are platform checks at run time.
- Version32 packing is not modelled: a version is kept as its three parts.
- The pipeline is not built. The pipeline builder's `Build` has no body in the source, so the pipeline handle is an input.
- `VkInit`, `VkUtil`, `Util`, the mesh, the camera and the other float types are left out.
- Floating point is not modelled: the clear colour computed from the frame number, the queue priority 1.0 and the viewport are left out.
- `LoaderShaderModule` is reduced to whether each shader loaded. The shader modules are never destroyed in the source, and the teardown trace reflects that by omission.
- The engine's own create calls (command pool, render pass, framebuffers, fence, semaphores, layout, pipeline) are unchecked in the source. Their handles are inputs, and framebuffer i gets the handle `firstFramebuffer + i`.
- Memory management (marshalled strings, pinned buffers, freeing) is left out.
- The "validation layers requested but not supported" exception is never produced, because the layer check cannot fail. It is kept as an unreachable branch.
- `Engine.cs` never uses the `FrameData` type or a deletion queue. `VkUtil.cs` refers to a deletion queue on the engine, but `VkUtil.cs` is not part of this model. The deletion queue is modelled on its own. It is a C# struct whose only field references a `Stack`, so copies share one stack. It is therefore modelled as a class.
- The list sharing of `DeviceExtensions` between the selector and the returned info is not modelled: the info holds a copy of the list at the time of the call.
- VkEngine.Engine.InitVulkan: on success, states the trace entry, one view per image, the format and the graphics family. SetUpVulkan's statements about the created objects are not restated.
- VkEngine.Engine.InitVulkan: on failure, the contract does not say which fields the source had already assigned before the exception (`_instance`, `_surface`, and so on).
- Struct padding is not modelled. Every field of the vertex is a vector of 4-byte floats, so the sequential layout without padding is the one .NET uses; `Marshal.OffsetOf` and `Unsafe.SizeOf` are computed from the field sizes.
- The render loop's timing (`deltaTime`) and the window's event pumping are left out. `Run` is given the sequence of acquired indices instead.
