/**
 * Vulkanize/InstanceBuilder.cs: collects the application description, the
 * layer and extension lists and the debug-messenger settings, then creates
 * the Vulkan instance and, when validation is on, a debug messenger. The
 * driver's answers (instance creation, loading VK_EXT_debug_utils, messenger
 * creation, the layer list, the window's required extensions) are inputs.
 */
module Instance {
  import opened Wrappers
  import opened VkTypes
  import opened Vulkanize
  import opened Device

  const EXT_DEBUG_UTILS_EXTENSION_NAME: string := "VK_EXT_debug_utils"

  // VkDebugUtilsMessageSeverityFlagBitsEXT
  const SEVERITY_VERBOSE: bv32 := 0x1
  const SEVERITY_INFO: bv32 := 0x10
  const SEVERITY_WARNING: bv32 := 0x100
  const SEVERITY_ERROR: bv32 := 0x1000

  // VkDebugUtilsMessageTypeFlagBitsEXT
  const TYPE_GENERAL: bv32 := 0x1
  const TYPE_VALIDATION: bv32 := 0x2
  const TYPE_PERFORMANCE: bv32 := 0x4

  const VK_FALSE: uint32 := 0

  /** Silk.NET's Version32 as built from its three parts. */
  datatype Version32 = Version32(major: uint32, minor: uint32, patch: uint32)

  const VERSION_1_0: Version32 := Version32(1, 0, 0)
  const API_VERSION_1_2: Version32 := Version32(1, 2, 0)

  /** The messenger callback: the builder's own, or one the application supplies. */
  datatype Callback = DefaultCallback | UserCallback(id: nat)

  datatype ApplicationInfo = ApplicationInfo(
    applicationName: string,
    applicationVersion: Version32,
    engineName: string,
    engineVersion: Version32,
    apiVersion: Version32)

  /** VkDebugUtilsMessengerCreateInfoEXT; no callback when none was set. */
  datatype DebugMessengerCreateInfo = DebugMessengerCreateInfo(
    messageSeverity: bv32,
    messageType: bv32,
    userCallback: Option<Callback>)

  /** VkInstanceCreateInfo; `next` is the debug-messenger info chained through pNext. */
  datatype InstanceCreateInfo = InstanceCreateInfo(
    applicationInfo: ApplicationInfo,
    enabledExtensionNames: seq<string>,
    enabledLayerNames: seq<string>,
    next: Option<DebugMessengerCreateInfo>)

  datatype InstanceInfo = InstanceInfo(instance: Handle, debugMessenger: Option<Handle>)

  /**
   * The default callback: it never asks to abort the call (VK_FALSE) and
   * writes the message out unless its severity is exactly VERBOSE.
   */
  function DefaultDebugCallback(messageSeverity: bv32): (r: (uint32, bool))
    ensures r.0 == VK_FALSE
    ensures r.1 <==> messageSeverity != SEVERITY_VERBOSE
  {
    if messageSeverity == SEVERITY_VERBOSE then (VK_FALSE, false) else (VK_FALSE, true)
  }

  /**
   * Of the single severities the default mask lets through, only warnings and
   * errors reach the log: verbose messages are received and dropped.
   */
  lemma DefaultMaskLogsWarningsAndErrors(messageSeverity: bv32)
    requires messageSeverity in {SEVERITY_VERBOSE, SEVERITY_INFO, SEVERITY_WARNING, SEVERITY_ERROR}
    requires messageSeverity & (SEVERITY_VERBOSE | SEVERITY_WARNING | SEVERITY_ERROR) != 0
    ensures DefaultDebugCallback(messageSeverity).1 <==> messageSeverity in {SEVERITY_WARNING, SEVERITY_ERROR}
  {
  }

  class InstanceBuilder {
    var applicationName: string
    var appVersion: Version32
    var engineName: string
    var engineVersion: Version32
    var apiVersion: Version32
    var enableValidationLayers: bool
    var useDebugMessenger: bool
    var debugCallback: Option<Callback>
    var debugSeverityFlags: bv32
    var debugMessageTypeFlags: bv32
    var layers: seq<string>
    var extensions: seq<string>

    /**
     * Once validation is on, the validation layer and VK_EXT_debug_utils are
     * in the lists: nothing removes an entry.
     */
    predicate Valid()
      reads this
    {
      enableValidationLayers ==> VALIDATION_LAYER_NAME in layers && EXT_DEBUG_UTILS_EXTENSION_NAME in extensions
    }

    constructor ()
      ensures Valid()
      ensures applicationName == "" && appVersion == VERSION_1_0
      ensures engineName == "No Engine" && engineVersion == VERSION_1_0
      ensures apiVersion == API_VERSION_1_2
      ensures !enableValidationLayers && !useDebugMessenger && debugCallback.None?
      ensures debugSeverityFlags == SEVERITY_VERBOSE | SEVERITY_WARNING | SEVERITY_ERROR
      ensures debugMessageTypeFlags == TYPE_GENERAL | TYPE_PERFORMANCE | TYPE_VALIDATION
      ensures layers == [] && extensions == []
    {
      applicationName := "";
      appVersion := VERSION_1_0;
      engineName := "No Engine";
      engineVersion := VERSION_1_0;
      apiVersion := API_VERSION_1_2;
      enableValidationLayers := false;
      useDebugMessenger := false;
      debugCallback := None;
      debugSeverityFlags := SEVERITY_VERBOSE | SEVERITY_WARNING | SEVERITY_ERROR;
      debugMessageTypeFlags := TYPE_GENERAL | TYPE_PERFORMANCE | TYPE_VALIDATION;
      layers := [];
      extensions := [];
    }

    /** The request's application description, from the current fields. */
    function AppInfo(): ApplicationInfo
      reads this
    {
      ApplicationInfo(applicationName, appVersion, engineName, engineVersion, apiVersion)
    }

    /** The messenger request, from the current fields. */
    function DebugInfo(): DebugMessengerCreateInfo
      reads this
    {
      DebugMessengerCreateInfo(debugSeverityFlags, debugMessageTypeFlags, debugCallback)
    }

    /** Everything but the application description is left as it was. */
    twostate predicate OnlyAppInfoChanged()
      reads this
    {
      enableValidationLayers == old(enableValidationLayers) && useDebugMessenger == old(useDebugMessenger) &&
      DebugInfo() == old(DebugInfo()) && layers == old(layers) && extensions == old(extensions)
    }

    method SetAppName(name: string)
      requires Valid()
      modifies this
      ensures Valid() && OnlyAppInfoChanged()
      ensures AppInfo() == old(AppInfo()).(applicationName := name)
    {
      applicationName := name;
    }

    method SetEngineName(name: string)
      requires Valid()
      modifies this
      ensures Valid() && OnlyAppInfoChanged()
      ensures AppInfo() == old(AppInfo()).(engineName := name)
    {
      engineName := name;
    }

    method SetAppVersion(version: Version32)
      requires Valid()
      modifies this
      ensures Valid() && OnlyAppInfoChanged()
      ensures AppInfo() == old(AppInfo()).(applicationVersion := version)
    {
      appVersion := version;
    }

    method SetEngineVersion(version: Version32)
      requires Valid()
      modifies this
      ensures Valid() && OnlyAppInfoChanged()
      ensures AppInfo() == old(AppInfo()).(engineVersion := version)
    {
      engineVersion := version;
    }

    method RequireApiVersion(version: Version32)
      requires Valid()
      modifies this
      ensures Valid() && OnlyAppInfoChanged()
      ensures AppInfo() == old(AppInfo()).(apiVersion := version)
    {
      apiVersion := version;
    }

    /** EnableLayer and EnableLayers: the names are appended in order. */
    method EnableLayers(names: seq<string>)
      requires Valid()
      modifies this
      ensures Valid()
      ensures layers == old(layers) + names
      ensures AppInfo() == old(AppInfo()) && DebugInfo() == old(DebugInfo()) && extensions == old(extensions)
      ensures enableValidationLayers == old(enableValidationLayers) && useDebugMessenger == old(useDebugMessenger)
    {
      layers := layers + names;
    }

    /** EnableExtension and EnableExtensions: the names are appended in order. */
    method EnableExtensions(names: seq<string>)
      requires Valid()
      modifies this
      ensures Valid()
      ensures extensions == old(extensions) + names
      ensures AppInfo() == old(AppInfo()) && DebugInfo() == old(DebugInfo()) && layers == old(layers)
      ensures enableValidationLayers == old(enableValidationLayers) && useDebugMessenger == old(useDebugMessenger)
    {
      extensions := extensions + names;
    }

    /**
     * Sets the flag; turning it on also appends VK_EXT_debug_utils to the
     * extensions and the Khronos validation layer to the layers (again on
     * every call). Turning it off removes nothing.
     */
    method EnableValidationLayers(enableValidation: bool)
      requires Valid()
      modifies this
      ensures Valid()
      ensures enableValidationLayers == enableValidation
      ensures extensions == old(extensions) + (if enableValidation then [EXT_DEBUG_UTILS_EXTENSION_NAME] else [])
      ensures layers == old(layers) + (if enableValidation then [VALIDATION_LAYER_NAME] else [])
      ensures AppInfo() == old(AppInfo()) && DebugInfo() == old(DebugInfo()) && useDebugMessenger == old(useDebugMessenger)
    {
      enableValidationLayers := enableValidation;
      if enableValidationLayers {
        extensions := extensions + [EXT_DEBUG_UTILS_EXTENSION_NAME];
        layers := layers + [VALIDATION_LAYER_NAME];
      }
    }

    /** UseDefaultDebugMessenger and UseDebugCallback: the messenger is on, with this callback. */
    method UseDebugCallback(callback: Callback)
      requires Valid()
      modifies this
      ensures Valid()
      ensures useDebugMessenger && DebugInfo() == old(DebugInfo()).(userCallback := Some(callback))
      ensures AppInfo() == old(AppInfo()) && layers == old(layers) && extensions == old(extensions)
      ensures enableValidationLayers == old(enableValidationLayers)
    {
      useDebugMessenger := true;
      debugCallback := Some(callback);
    }

    method UseDebugMessageSeverity(flags: bv32)
      requires Valid()
      modifies this
      ensures Valid()
      ensures useDebugMessenger && DebugInfo() == old(DebugInfo()).(messageSeverity := flags)
      ensures AppInfo() == old(AppInfo()) && layers == old(layers) && extensions == old(extensions)
      ensures enableValidationLayers == old(enableValidationLayers)
    {
      useDebugMessenger := true;
      debugSeverityFlags := flags;
    }

    method AddDebugMessageSeverity(flags: bv32)
      requires Valid()
      modifies this
      ensures Valid()
      ensures useDebugMessenger && DebugInfo() == old(DebugInfo()).(messageSeverity := old(debugSeverityFlags) | flags)
      ensures AppInfo() == old(AppInfo()) && layers == old(layers) && extensions == old(extensions)
      ensures enableValidationLayers == old(enableValidationLayers)
    {
      useDebugMessenger := true;
      debugSeverityFlags := debugSeverityFlags | flags;
    }

    method UseDebugMessageType(flags: bv32)
      requires Valid()
      modifies this
      ensures Valid()
      ensures useDebugMessenger && DebugInfo() == old(DebugInfo()).(messageType := flags)
      ensures AppInfo() == old(AppInfo()) && layers == old(layers) && extensions == old(extensions)
      ensures enableValidationLayers == old(enableValidationLayers)
    {
      useDebugMessenger := true;
      debugMessageTypeFlags := flags;
    }

    method AddDebugMessageType(flags: bv32)
      requires Valid()
      modifies this
      ensures Valid()
      ensures useDebugMessenger && DebugInfo() == old(DebugInfo()).(messageType := old(debugMessageTypeFlags) | flags)
      ensures AppInfo() == old(AppInfo()) && layers == old(layers) && extensions == old(extensions)
      ensures enableValidationLayers == old(enableValidationLayers)
    {
      useDebugMessenger := true;
      debugMessageTypeFlags := debugMessageTypeFlags | flags;
    }

    /**
     * Appends the extensions the window system needs; `windowExtensions` is
     * None for a window without a Vulkan surface, which fails.
     */
    method UseRequiredWindowExtensions(windowExtensions: Option<seq<string>>) returns (failure: Option<Failure>)
      requires Valid()
      modifies this
      ensures Valid()
      ensures failure.Some? <==> windowExtensions.None?
      ensures failure.Some? ==> failure.value == WindowWithoutVulkanSurface
      ensures extensions == old(extensions) + (if windowExtensions.Some? then windowExtensions.value else [])
      ensures AppInfo() == old(AppInfo()) && DebugInfo() == old(DebugInfo()) && layers == old(layers)
      ensures enableValidationLayers == old(enableValidationLayers) && useDebugMessenger == old(useDebugMessenger)
    {
      if windowExtensions.None? {
        return Some(WindowWithoutVulkanSurface);
      }
      EnableExtensions(windowExtensions.value);
      failure := None;
    }

    /**
     * Creates the instance, then, only when validation is on, loads
     * VK_EXT_debug_utils and creates the messenger. `availableLayers` is the
     * driver's layer list, `instanceCreated` its answer to vkCreateInstance,
     * `debugUtilsLoaded` whether the extension could be loaded and
     * `messengerCreated` its answer to vkCreateDebugUtilsMessengerEXT.
     * Returns the two requests made (None: not made) and the outcome.
     */
    method Build(availableLayers: seq<string>, instanceCreated: Option<Handle>, debugUtilsLoaded: bool,
                 messengerCreated: Option<Handle>)
      returns (createInfo: InstanceCreateInfo, messengerInfo: Option<DebugMessengerCreateInfo>,
               r: Result<InstanceInfo, Failure>)
      requires Valid()
      ensures createInfo.applicationInfo == AppInfo()
      ensures createInfo.enabledExtensionNames == extensions && createInfo.enabledLayerNames == layers
      ensures createInfo.next.Some? <==> enableValidationLayers && useDebugMessenger
      ensures createInfo.next.Some? ==> createInfo.next.value == DebugInfo()
      ensures enableValidationLayers ==>
                VALIDATION_LAYER_NAME in createInfo.enabledLayerNames &&
                EXT_DEBUG_UTILS_EXTENSION_NAME in createInfo.enabledExtensionNames
      ensures messengerInfo.Some? <==> instanceCreated.Some? && enableValidationLayers && debugUtilsLoaded
      ensures messengerInfo.Some? ==> messengerInfo.value == DebugInfo()
      ensures r.Ok? <==> instanceCreated.Some? && (enableValidationLayers ==> debugUtilsLoaded && messengerCreated.Some?)
      ensures r.Ok? ==> r.value.instance == instanceCreated.value
      ensures r.Ok? ==> r.value.debugMessenger == if enableValidationLayers then messengerCreated else None
      ensures r.Err? ==> r.error == (if instanceCreated.None? then InstanceCreationFailed
                                    else if !debugUtilsLoaded then DebugUtilsUnavailable
                                    else MessengerCreationFailed)
    {
      messengerInfo := None;
      if enableValidationLayers && !CheckValidationLayerSupport(availableLayers) {
        // The check cannot fail, so "Validation layers requested but not supported" is never thrown.
        assert false;
      }
      var next := if enableValidationLayers && useDebugMessenger then Some(DebugInfo()) else None;
      createInfo := InstanceCreateInfo(AppInfo(), extensions, layers, next);
      if instanceCreated.None? {
        return createInfo, messengerInfo, Err(InstanceCreationFailed);
      }
      var instanceInfo := InstanceInfo(instanceCreated.value, None);
      if !enableValidationLayers {
        return createInfo, messengerInfo, Ok(instanceInfo);
      }
      if !debugUtilsLoaded {
        return createInfo, messengerInfo, Err(DebugUtilsUnavailable);
      }
      messengerInfo := Some(DebugInfo());
      if messengerCreated.None? {
        return createInfo, messengerInfo, Err(MessengerCreationFailed);
      }
      r := Ok(instanceInfo.(debugMessenger := messengerCreated));
    }
  }

  /**
   * A builder that only had validation switched on asks for the validation
   * layer and VK_EXT_debug_utils, and no messenger info is chained to the
   * instance request because no messenger setter ran.
   */
  method ValidationOnlyRequest(instanceCreated: Handle, messengerCreated: Handle)
    returns (createInfo: InstanceCreateInfo, r: Result<InstanceInfo, Failure>)
    ensures createInfo.enabledLayerNames == [VALIDATION_LAYER_NAME]
    ensures createInfo.enabledExtensionNames == [EXT_DEBUG_UTILS_EXTENSION_NAME]
    ensures createInfo.next.None?
    ensures r == Ok(InstanceInfo(instanceCreated, Some(messengerCreated)))
  {
    var builder := new InstanceBuilder();
    builder.EnableValidationLayers(true);
    var messengerInfo;
    createInfo, messengerInfo, r := builder.Build([], Some(instanceCreated), true, Some(messengerCreated));
  }
}
