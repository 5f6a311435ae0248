/**
 * Vulkanize/PhysicalDeviceSelector.cs: a fluent selector that accumulates
 * requirements, filters the enumerated devices by suitability and picks one
 * according to a preferred device class. The enumerated devices are given
 * as Gpu records holding the driver's answers to the selector's queries.
 */
module PhysicalDevice {
  import opened Wrappers
  import opened VkTypes
  import opened Vulkanize

  const KHR_SWAPCHAIN_EXTENSION_NAME: string := "VK_KHR_swapchain"

  /** NULL handle: a surface that was never set. */
  const NULL_HANDLE: Handle := 0

  datatype PreferredDeviceType = Any | LowEnergy | HighPerformance

  /** The requirements a selector has accumulated through its setters. */
  datatype Requirements = Requirements(
    requireSwapchain: bool,
    deviceExtensions: seq<string>,
    deviceFeatures: set<Feature>)

  datatype PhysicalDeviceInfo = PhysicalDeviceInfo(
    physicalDevice: Gpu,
    surface: Handle,
    deviceExtensions: seq<string>,
    preferredFeatures: set<Feature>)

  /**
   * The feature test as written: every feature the device SUPPORTS must be
   * among the requested ones (supported is a subset of requested).
   */
  predicate SupportsRequestedFeatures(supported: set<Feature>, requested: set<Feature>)
  {
    forall f | f in supported :: f in requested
  }

  /** Every requested extension name is among the names the device reports. */
  predicate CheckDeviceExtensionsSupport(requested: seq<string>, available: seq<string>)
  {
    forall e | e in requested :: e in available
  }

  /**
   * IsSuitable as written: the queue families must be complete, every
   * requested extension present, some format and some present mode reported
   * if a swapchain is required, and the (inverted) feature test passed.
   */
  predicate IsSuitable(req: Requirements, gpu: Gpu)
  {
    var indices := QueueFamiliesFound(gpu.queueFamilies);
    if !indices.IsComplete() then false
    else
      var extensionsSupported := CheckDeviceExtensionsSupport(req.deviceExtensions, gpu.extensions);
      if !extensionsSupported then false
      else
        var support := QuerySwapChainSupport(gpu);
        var swapChainAdequate := |support.formats| > 0 && |support.presentModes| > 0;
        if req.requireSwapchain && !swapChainAdequate then false
        else SupportsRequestedFeatures(gpu.features, req.deviceFeatures)
  }

  /**
   * Suitability in terms of the device alone: a graphics family, a
   * presenting family, every requested extension, a non-empty surface report
   * when a swapchain is required, and supported features within the
   * requested ones.
   */
  lemma IsSuitableIff(req: Requirements, gpu: Gpu)
    ensures IsSuitable(req, gpu) <==>
              (exists g :: 0 <= g < |gpu.queueFamilies| && HasGraphics(gpu.queueFamilies[g])) &&
              (exists p :: 0 <= p < |gpu.queueFamilies| && gpu.queueFamilies[p].presentSupport) &&
              (forall e :: e in req.deviceExtensions ==> e in gpu.extensions) &&
              (req.requireSwapchain ==> |gpu.surfaceFormats| > 0 && |gpu.presentModes| > 0) &&
              gpu.features <= req.deviceFeatures
  {
    FoundCompleteIff(gpu.queueFamilies);
  }

  /** The device type a preference asks for; Any maps to Other, which the pick never compares. */
  function TargetType(preferred: PreferredDeviceType): PhysicalDeviceType
  {
    match preferred
    case LowEnergy => IntegratedGpu
    case HighPerformance => DiscreteGpu
    case Any => Other
  }

  /** Suitability under fixed requirements, as a predicate on devices. */
  function Suitability(req: Requirements): Gpu -> bool
  {
    g => IsSuitable(req, g)
  }

  /**
   * The index PickDevice returns. With Any, the first suitable device. With
   * LowEnergy or HighPerformance, the LAST suitable device of the target
   * type. When nothing qualifies, index 0, whether or not it is suitable.
   */
  ghost predicate IsPick(preferred: PreferredDeviceType, req: Requirements, devices: seq<Gpu>, i: nat)
  {
    IsPickBy(preferred, Suitability(req), devices, i)
  }

  /** IsPick for any suitability test `ok`. */
  ghost predicate IsPickBy(preferred: PreferredDeviceType, ok: Gpu -> bool, devices: seq<Gpu>, i: nat)
  {
    i < |devices| &&
    if preferred == Any then IsFirstOk(ok, devices, i) else IsLastOfType(ok, TargetType(preferred), devices, i)
  }

  /** The first device passing `ok`, or 0 when none does. */
  ghost predicate IsFirstOk(ok: Gpu -> bool, devices: seq<Gpu>, i: nat)
    requires i < |devices|
  {
    if exists j :: 0 <= j < |devices| && ok(devices[j]) then
      ok(devices[i]) && forall j :: 0 <= j < i ==> !ok(devices[j])
    else i == 0
  }

  /** Passes `ok` and has type `target`. */
  predicate OkOfType(ok: Gpu -> bool, target: PhysicalDeviceType, gpu: Gpu)
  {
    ok(gpu) && gpu.deviceType == target
  }

  /** The last device passing `ok` with type `target`, or 0 when there is none. */
  ghost predicate IsLastOfType(ok: Gpu -> bool, target: PhysicalDeviceType, devices: seq<Gpu>, i: nat)
    requires i < |devices|
  {
    if exists j :: 0 <= j < |devices| && OkOfType(ok, target, devices[j]) then
      OkOfType(ok, target, devices[i]) && forall j :: i < j < |devices| ==> !OkOfType(ok, target, devices[j])
    else i == 0
  }

  /**
   * PickDevice's scan from index i on, with `useGpu` the index remembered so
   * far: a device failing `ok` is skipped; with Any the first passing one is
   * returned at once; otherwise a passing device of the target type replaces
   * the remembered index.
   */
  function PickFrom(preferred: PreferredDeviceType, ok: Gpu -> bool, devices: seq<Gpu>, i: nat, useGpu: nat): (pick: nat)
    requires i <= |devices|
    ensures useGpu < |devices| ==> pick < |devices|
    decreases |devices| - i
  {
    if i == |devices| then useGpu
    else if !ok(devices[i]) then PickFrom(preferred, ok, devices, i + 1, useGpu)
    else if preferred == Any then i
    else if devices[i].deviceType == TargetType(preferred) then PickFrom(preferred, ok, devices, i + 1, i)
    else PickFrom(preferred, ok, devices, i + 1, useGpu)
  }

  /** With Any, the scan ends on the first passing device, or on 0 when there is none. */
  lemma {:induction false} PickFromAnyIsPick(ok: Gpu -> bool, devices: seq<Gpu>, i: nat)
    requires 0 < |devices| && i <= |devices|
    requires forall j :: 0 <= j < i ==> !ok(devices[j])
    ensures IsPickBy(Any, ok, devices, PickFrom(Any, ok, devices, i, 0))
    decreases |devices| - i
  {
    if i < |devices| && !ok(devices[i]) {
      PickFromAnyIsPick(ok, devices, i + 1);
    }
  }

  /**
   * With a preference, the scan ends on the last passing device of the
   * target type, or on 0 when there is none. `found` says whether one was
   * met before index i, and then `useGpu` is the last such.
   */
  lemma {:induction false} PickFromPreferredIsPick(preferred: PreferredDeviceType, ok: Gpu -> bool, devices: seq<Gpu>,
                                                   i: nat, useGpu: nat, found: bool)
    requires preferred != Any && 0 < |devices| && i <= |devices|
    requires found ==> useGpu < i && OkOfType(ok, TargetType(preferred), devices[useGpu]) &&
                       forall j :: useGpu < j < i ==> !OkOfType(ok, TargetType(preferred), devices[j])
    requires !found ==> useGpu == 0 && forall j :: 0 <= j < i ==> !OkOfType(ok, TargetType(preferred), devices[j])
    ensures IsPickBy(preferred, ok, devices, PickFrom(preferred, ok, devices, i, useGpu))
    decreases |devices| - i
  {
    if i < |devices| {
      if OkOfType(ok, TargetType(preferred), devices[i]) {
        PickFromPreferredIsPick(preferred, ok, devices, i + 1, i, true);
      } else {
        PickFromPreferredIsPick(preferred, ok, devices, i + 1, useGpu, found);
      }
    }
  }

  /** The index PickDevice returns satisfies IsPick. */
  lemma PickFromStartIsPick(preferred: PreferredDeviceType, req: Requirements, devices: seq<Gpu>)
    requires 0 < |devices|
    ensures IsPick(preferred, req, devices, PickFrom(preferred, Suitability(req), devices, 0, 0))
  {
    if preferred == Any {
      PickFromAnyIsPick(Suitability(req), devices, 0);
    } else {
      PickFromPreferredIsPick(preferred, Suitability(req), devices, 0, 0, false);
    }
  }

  /** The pick is a function of the devices: at most one index satisfies IsPick. */
  lemma PickIsUnique(preferred: PreferredDeviceType, req: Requirements, devices: seq<Gpu>, i: nat, k: nat)
    requires IsPick(preferred, req, devices, i) && IsPick(preferred, req, devices, k)
    ensures i == k
  {
  }

  /**
   * A device that is the only suitable one is picked when the preference is
   * Any, when its type is the preferred one, or when it is first in line.
   */
  lemma SoleSuitableDevicePicked(preferred: PreferredDeviceType, req: Requirements, devices: seq<Gpu>, k: nat)
    requires k < |devices| && IsSuitable(req, devices[k])
    requires forall j :: 0 <= j < |devices| && j != k ==> !IsSuitable(req, devices[j])
    requires preferred == Any || devices[k].deviceType == TargetType(preferred) || k == 0
    ensures IsPick(preferred, req, devices, k)
  {
    if preferred != Any && devices[k].deviceType == TargetType(preferred) {
      assert OkOfType(Suitability(req), TargetType(preferred), devices[k]);
    }
  }

  /**
   * The preference can override suitability: with an unsuitable device first
   * and a suitable integrated GPU second, asking for high performance picks
   * the unsuitable device 0.
   */
  lemma PreferenceFallsBackToUnsuitable(caps: SurfaceCapabilities)
    ensures var unsuitable := Gpu(1, DiscreteGpu, [], [], caps, [], [], {});
            var integrated := Gpu(2, IntegratedGpu, [QueueFamily(QUEUE_GRAPHICS_BIT, true)], [], caps, [], [], {});
            var req := Requirements(false, [], {});
            !IsSuitable(req, unsuitable) && IsSuitable(req, integrated) &&
            IsPick(HighPerformance, req, [unsuitable, integrated], 0)
  {
    var integrated := Gpu(2, IntegratedGpu, [QueueFamily(QUEUE_GRAPHICS_BIT, true)], [], caps, [], [], {});
    assert HasGraphics(integrated.queueFamilies[0]);
    IsSuitableIff(Requirements(false, [], {}), integrated);
  }

  /**
   * The feature test is inverted: a device that supports the requested
   * geometry-shader feature (index 7) and tessellation (index 8) fails it,
   * and a device that supports nothing passes it.
   */
  lemma FeatureTestIsInverted()
    ensures !SupportsRequestedFeatures({7, 8}, {7})
    ensures SupportsRequestedFeatures({}, {7})
  {
    assert 8 in {7, 8} && 8 !in {7};
  }

  class PhysicalDeviceSelector {
    const instance: Handle
    var surface: Handle
    var requireSwapchain: bool
    var preferredDeviceType: PreferredDeviceType
    var deviceExtensions: seq<string>
    var deviceFeatures: set<Feature>

    /** A selector over the current instance, with no requirements. */
    constructor (currentInstance: Handle)
      ensures instance == currentInstance && surface == NULL_HANDLE
      ensures !requireSwapchain && preferredDeviceType == Any
      ensures deviceExtensions == [] && deviceFeatures == {}
    {
      instance := currentInstance;
      surface := NULL_HANDLE;
      requireSwapchain := false;
      preferredDeviceType := Any;
      deviceExtensions := [];
      deviceFeatures := {};
    }

    function Reqs(): Requirements
      reads this
    {
      Requirements(requireSwapchain, deviceExtensions, deviceFeatures)
    }

    method SetPreferredDeviceType(deviceType: PreferredDeviceType)
      modifies this
      ensures preferredDeviceType == deviceType
      ensures surface == old(surface) && Reqs() == old(Reqs())
    {
      preferredDeviceType := deviceType;
    }

    method SetSurface(s: Handle)
      modifies this
      ensures surface == s
      ensures preferredDeviceType == old(preferredDeviceType) && Reqs() == old(Reqs())
    {
      surface := s;
    }

    /** Appends a required extension name, keeping earlier ones and duplicates. */
    method AddExtension(extension: string)
      modifies this
      ensures deviceExtensions == old(deviceExtensions) + [extension]
      ensures requireSwapchain == old(requireSwapchain) && deviceFeatures == old(deviceFeatures)
      ensures surface == old(surface) && preferredDeviceType == old(preferredDeviceType)
    {
      deviceExtensions := deviceExtensions + [extension];
    }

    method SetDeviceFeatures(features: set<Feature>)
      modifies this
      ensures deviceFeatures == features
      ensures requireSwapchain == old(requireSwapchain) && deviceExtensions == old(deviceExtensions)
      ensures surface == old(surface) && preferredDeviceType == old(preferredDeviceType)
    {
      deviceFeatures := features;
    }

    /** Requires the swapchain extension and an adequate surface. */
    method RequireSwapChain()
      modifies this
      ensures deviceExtensions == old(deviceExtensions) + [KHR_SWAPCHAIN_EXTENSION_NAME]
      ensures requireSwapchain
      ensures deviceFeatures == old(deviceFeatures)
      ensures surface == old(surface) && preferredDeviceType == old(preferredDeviceType)
    {
      deviceExtensions := deviceExtensions + [KHR_SWAPCHAIN_EXTENSION_NAME];
      requireSwapchain := true;
    }

    /**
     * Scans the devices in enumeration order. With Any it returns the first
     * suitable one; otherwise it remembers every suitable device of the target
     * type, so the last one wins; when nothing matched it returns device 0.
     */
    method PickDevice(devices: seq<Gpu>) returns (index: nat)
      requires |devices| > 0
      ensures index == PickFrom(preferredDeviceType, Suitability(Reqs()), devices, 0, 0)
      ensures IsPick(preferredDeviceType, Reqs(), devices, index)
    {
      var useGpu := 0;
      var deviceType := TargetType(preferredDeviceType);
      var req := Reqs();
      PickFromStartIsPick(preferredDeviceType, req, devices);
      for i := 0 to |devices|
        invariant PickFrom(preferredDeviceType, Suitability(req), devices, i, useGpu) ==
                  PickFrom(preferredDeviceType, Suitability(req), devices, 0, 0)
      {
        assert Suitability(req)(devices[i]) == IsSuitable(req, devices[i]);
        if !IsSuitable(req, devices[i]) {
          continue;
        }
        if preferredDeviceType == Any {
          return i;
        }
        if devices[i].deviceType == deviceType {
          useGpu := i;
        }
      }
      return useGpu;
    }

    /**
     * Fails only when no device is enumerated; otherwise returns the picked
     * device together with the surface, extension list and features.
     */
    method Select(devices: seq<Gpu>) returns (r: Result<PhysicalDeviceInfo, Failure>)
      ensures r.Err? <==> |devices| == 0
      ensures r.Err? ==> r.error == NoVulkanDevice
      ensures r.Ok? ==> exists i: nat :: IsPick(preferredDeviceType, Reqs(), devices, i) &&
                                    r.value == PhysicalDeviceInfo(devices[i], surface, deviceExtensions, deviceFeatures)
      ensures r.Ok? ==> r.value.physicalDevice == devices[PickFrom(preferredDeviceType, Suitability(Reqs()), devices, 0, 0)]
    {
      if |devices| == 0 {
        return Err(NoVulkanDevice);
      }
      var index := PickDevice(devices);
      r := Ok(PhysicalDeviceInfo(devices[index], surface, deviceExtensions, deviceFeatures));
    }
  }

  /** The selector's constructor: it fails when no instance has been created. */
  method NewSelector(currentInstance: Option<Handle>) returns (r: Result<PhysicalDeviceSelector, Failure>)
    ensures r.Err? <==> currentInstance.None?
    ensures r.Err? ==> r.error == NoCurrentInstance
    ensures r.Ok? ==> fresh(r.value) && r.value.instance == currentInstance.value &&
                      r.value.Reqs() == Requirements(false, [], {}) && r.value.preferredDeviceType == Any
  {
    if currentInstance.None? {
      return Err(NoCurrentInstance);
    }
    var selector := new PhysicalDeviceSelector(currentInstance.value);
    r := Ok(selector);
  }
}
