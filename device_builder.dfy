/**
 * Vulkanize/DeviceBuilder.cs: assembles the logical-device request for the
 * selected physical device (one queue per distinct family, the extension
 * list, the layers) and hands it to the driver, whose answer is an input.
 */
module Device {
  import opened Wrappers
  import opened VkTypes
  import opened Vulkanize
  import opened PhysicalDevice

  const VALIDATION_LAYER_NAME: string := "VK_LAYER_KHRONOS_validation"

  /** VkDeviceQueueCreateInfo; every queue gets priority 1.0. */
  datatype QueueCreateInfo = QueueCreateInfo(queueFamilyIndex: nat, queueCount: nat)

  /** VkDeviceCreateInfo as passed to vkCreateDevice; no layer names when the layer count is 0. */
  datatype DeviceCreateInfo = DeviceCreateInfo(
    queueCreateInfos: seq<QueueCreateInfo>,
    enabledFeatures: set<Feature>,
    enabledExtensionNames: seq<string>,
    enabledLayerNames: seq<string>,
    pNext: Option<Handle>)

  /** The queue vkGetDeviceQueue hands out: queue `queueIndex` of a family of a device. */
  datatype QueueRef = QueueRef(device: Handle, familyIndex: nat, queueIndex: nat)

  datatype DeviceInfo = DeviceInfo(
    device: Handle,
    physicalDevice: Gpu,
    surface: Handle,
    queueFamilies: QueueFamilyIndices,
    queue: QueueRef)

  /** `Distinct()` of [graphics, present]: each family once, in first-seen order. */
  function UniqueQueueFamilies(graphics: nat, present: nat): (families: seq<nat>)
    ensures |families| > 0 && families[0] == graphics
    ensures forall i, j :: 0 <= i < j < |families| ==> families[i] != families[j]
    ensures forall f :: f in families <==> f == graphics || f == present
  {
    if graphics == present then [graphics] else [graphics, present]
  }

  /** Fills the queue-create buffer: entry i requests one queue of family i of the list. */
  method BuildQueueCreateInfos(families: seq<nat>) returns (infos: array<QueueCreateInfo>)
    ensures infos.Length == |families|
    ensures forall i :: 0 <= i < |families| ==> infos[i] == QueueCreateInfo(families[i], 1)
  {
    infos := new QueueCreateInfo[|families|](_ => QueueCreateInfo(0, 0));
    for i := 0 to |families|
      invariant forall k :: 0 <= k < i ==> infos[k] == QueueCreateInfo(families[k], 1)
    {
      infos[i] := QueueCreateInfo(families[i], 1);
    }
  }

  class DeviceBuilder {
    const physicalDeviceInfo: PhysicalDeviceInfo
    var enableValidationLayers: bool
    var pNext: Option<Handle>
    var layers: seq<string>

    constructor (info: PhysicalDeviceInfo)
      ensures physicalDeviceInfo == info
      ensures !enableValidationLayers && pNext.None? && layers == []
    {
      physicalDeviceInfo := info;
      enableValidationLayers := false;
      pNext := None;
      layers := [];
    }

    /** Sets the flag; `true` appends the validation layer once per call, `false` removes nothing. */
    method EnableValidationLayers(enableValidation: bool)
      modifies this
      ensures enableValidationLayers == enableValidation
      ensures layers == old(layers) + if enableValidation then [VALIDATION_LAYER_NAME] else []
      ensures pNext == old(pNext)
    {
      enableValidationLayers := enableValidation;
      if enableValidationLayers {
        layers := layers + [VALIDATION_LAYER_NAME];
      }
    }

    method AddPNext(next: Handle)
      modifies this
      ensures pNext == Some(next)
      ensures enableValidationLayers == old(enableValidationLayers) && layers == old(layers)
    {
      pNext := Some(next);
    }

    /**
     * Finds the queue families again, fails if either is missing, requests
     * one queue per distinct family, passes the selected extensions and, only
     * when validation is on, the layers; then creates the device and takes
     * queue 0 of the graphics family. `createdDevice` is the driver's answer
     * (None: creation did not return success); `createInfo` is the request
     * handed to it, None when the build failed before the call.
     */
    method Build(createdDevice: Option<Handle>) returns (createInfo: Option<DeviceCreateInfo>, r: Result<DeviceInfo, Failure>)
      ensures var found := QueueFamiliesFound(physicalDeviceInfo.physicalDevice.queueFamilies);
              createInfo.Some? <==> found.IsComplete()
      ensures var found := QueueFamiliesFound(physicalDeviceInfo.physicalDevice.queueFamilies);
              r.Ok? <==> found.IsComplete() && createdDevice.Some?
      ensures r.Err? ==> r.error == if createInfo.None? then MissingQueueFamily else DeviceCreationFailed
      ensures createInfo.Some? ==>
                var found := QueueFamiliesFound(physicalDeviceInfo.physicalDevice.queueFamilies);
                var families := UniqueQueueFamilies(found.graphicsFamily.value, found.presentFamily.value);
                var request := createInfo.value;
                |request.queueCreateInfos| == |families| &&
                (forall i :: 0 <= i < |families| ==> request.queueCreateInfos[i] == QueueCreateInfo(families[i], 1)) &&
                request.enabledFeatures == physicalDeviceInfo.preferredFeatures &&
                request.enabledExtensionNames == physicalDeviceInfo.deviceExtensions &&
                request.enabledLayerNames == (if enableValidationLayers then layers else []) &&
                request.pNext == pNext
      ensures r.Ok? ==>
                var found := QueueFamiliesFound(physicalDeviceInfo.physicalDevice.queueFamilies);
                r.value == DeviceInfo(createdDevice.value, physicalDeviceInfo.physicalDevice, physicalDeviceInfo.surface,
                                      found, QueueRef(createdDevice.value, found.graphicsFamily.value, 0))
    {
      var indices := FindQueueFamilies(physicalDeviceInfo.physicalDevice.queueFamilies);
      if !indices.IsComplete() {
        return None, Err(MissingQueueFamily);
      }
      var uniqueQueueFamilies := UniqueQueueFamilies(indices.graphicsFamily.value, indices.presentFamily.value);
      var queueCreateInfos := BuildQueueCreateInfos(uniqueQueueFamilies);
      var request := DeviceCreateInfo(queueCreateInfos[..], physicalDeviceInfo.preferredFeatures,
                                      physicalDeviceInfo.deviceExtensions, [], pNext);
      if enableValidationLayers {
        request := request.(enabledLayerNames := layers);
      }
      createInfo := Some(request);
      if createdDevice.None? {
        return createInfo, Err(DeviceCreationFailed);
      }
      var device := createdDevice.value;
      var queue := QueueRef(device, indices.graphicsFamily.value, 0);
      r := Ok(DeviceInfo(device, physicalDeviceInfo.physicalDevice, physicalDeviceInfo.surface, indices, queue));
    }
  }
}
