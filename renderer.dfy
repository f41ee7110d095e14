/**
 * The decision logic of the renderer's later tutorial stage (graphics and presentation
 * queues, validation layers): queue-family resolution, device selection, the extension and
 * layer name checks, instance extension assembly and queue create-info deduplication.
 */
module Renderer {
  import opened Common
  import opened Vulkan
  import opened Utilities
  import opened Support
  import EarlyRenderer

  const LayersUnavailable: string := "Validation layers requested but unavailable"

  /** The validation layers the renderer requests, spelled exactly as it is configured. */
  const DefaultValidationLayers: seq<Name> := ["VK_LAYER_KHORNOS_validation"]

  /** The name of the Khronos validation layer as a Vulkan loader advertises it. */
  const KhronosValidationLayer: Name := "VK_LAYER_KHRONOS_validation"

  // ---------------------------------------------------------------------------
  // Queue-family resolution
  // ---------------------------------------------------------------------------

  /** Family `i` of `device` passes the graphics test and can present to the surface. */
  predicate Presentable(device: PhysicalDevice, i: nat) {
    GraphicsCapable(device.queueFamilies, i) && i in device.presentSupport
  }

  /** `i` is the lowest index of a family that is both graphics-capable and presentable. */
  predicate FirstPresentable(device: PhysicalDevice, i: nat) {
    Presentable(device, i) && forall j: nat :: j < i ==> !Presentable(device, j)
  }

  /** Some family of `device` serves both roles: what the resolver needs to report completeness. */
  predicate Suitable(device: PhysicalDevice) {
    exists i: nat :: i < |device.queueFamilies| && Presentable(device, i)
  }

  /**
   * Scans the device's queue families in order. A family that passes the graphics test
   * overwrites `graphicsFamily` and is the only kind whose presentation support is queried;
   * the scan stops as soon as both indices are set. `queried` lists, in order, the family
   * indices for which presentation support was asked of the driver.
   */
  method FindQueueFamilies(device: PhysicalDevice) returns (indices: QueueFamilyIndices, ghost queried: seq<nat>)
    ensures indices.IsComplete() <==> Suitable(device)
    ensures indices.IsComplete() ==>
      indices.presentFamily == indices.graphicsFamily && FirstPresentable(device, indices.graphicsFamily.value)
    ensures !indices.IsComplete() ==> indices.presentFamily.None?
    ensures !indices.IsComplete() ==>
      (indices.graphicsFamily.None? <==> forall j: nat :: !GraphicsCapable(device.queueFamilies, j))
    ensures !indices.IsComplete() && indices.graphicsFamily.Some? ==>
      var g := indices.graphicsFamily.value;
      GraphicsCapable(device.queueFamilies, g) &&
      forall j: nat :: g < j ==> !GraphicsCapable(device.queueFamilies, j)
    ensures device.queueFamilies == [] ==> indices == Unset() && queried == []
    ensures forall k :: 0 <= k < |queried| ==> GraphicsCapable(device.queueFamilies, queried[k])
    ensures forall k, m :: 0 <= k < m < |queried| ==> queried[k] < queried[m]
    ensures indices.IsComplete() ==> forall k :: 0 <= k < |queried| ==> queried[k] <= indices.graphicsFamily.value
    ensures forall j: nat ::
      (GraphicsCapable(device.queueFamilies, j) && (indices.IsComplete() ==> j <= indices.graphicsFamily.value)) ==>
      j in queried
  {
    var families := device.queueFamilies;
    indices := Unset();
    queried := [];
    var i := 0;
    while i < |families|
      invariant 0 <= i <= |families|
      invariant |queried| <= i
      invariant indices.presentFamily.None?
      invariant forall j: nat :: j < i ==> !Presentable(device, j)
      invariant indices.graphicsFamily.None? <==> forall j: nat :: j < i ==> !GraphicsCapable(families, j)
      invariant indices.graphicsFamily.Some? ==>
        var g := indices.graphicsFamily.value;
        g < i && GraphicsCapable(families, g) && forall j: nat :: g < j < i ==> !GraphicsCapable(families, j)
      invariant forall k :: 0 <= k < |queried| ==> queried[k] < i && GraphicsCapable(families, queried[k])
      invariant forall k, m :: 0 <= k < m < |queried| ==> queried[k] < queried[m]
      invariant forall j: nat :: j < i && GraphicsCapable(families, j) ==> j in queried
    {
      if HasGraphicsQueue(families[i]) {
        assert GraphicsCapable(families, i);
        indices := indices.(graphicsFamily := Some(i));
        queried := queried + [i];
        var presentSupport := i in device.presentSupport;
        if presentSupport {
          indices := indices.(presentFamily := Some(i));
        }
      } else {
        assert !GraphicsCapable(families, i);
      }
      if indices.IsComplete() {
        assert Presentable(device, i);
        break;
      }
      assert !Presentable(device, i);
      i := i + 1;
    }
  }

  /** A device is suitable exactly when the resolver reports a complete record. */
  method CheckDeviceSuitable(device: PhysicalDevice) returns (suitable: bool)
    ensures suitable == Suitable(device)
  {
    var indices, _ := FindQueueFamilies(device);
    suitable := indices.IsComplete();
  }

  /** A device with no queue families is never suitable. */
  lemma NoFamiliesNotSuitable(device: PhysicalDevice)
    requires device.queueFamilies == []
    ensures !Suitable(device)
  {
  }

  /** Every device this stage accepts, the earlier stage accepts too. */
  lemma EarlierStageAcceptsSuitableDevice(device: PhysicalDevice)
    requires Suitable(device)
    ensures EarlyRenderer.Suitable(device)
  {
  }

  // ---------------------------------------------------------------------------
  // Validation layers
  // ---------------------------------------------------------------------------

  /**
   * The validation layer check as written: it answers true as soon as a requested layer has no
   * exact match among the available layers, and false when every requested layer is found,
   * so it is the negation of the membership test its name suggests.
   */
  method CheckValidationLayerSupport(validationLayers: seq<Name>, availableLayers: seq<Name>) returns (supported: bool)
    ensures supported <==> !AllRequestedAdvertised(validationLayers, availableLayers)
    ensures supported <==> exists k :: 0 <= k < |validationLayers| && validationLayers[k] !in availableLayers
    ensures validationLayers == [] ==> !supported
  {
    var k := 0;
    while k < |validationLayers|
      invariant 0 <= k <= |validationLayers|
      invariant forall m :: 0 <= m < k ==> validationLayers[m] in availableLayers
    {
      var layerFound := false;
      var j := 0;
      while j < |availableLayers|
        invariant 0 <= j <= |availableLayers|
        invariant !layerFound
        invariant forall m :: 0 <= m < j ==> availableLayers[m] != validationLayers[k]
      {
        if Strcmp(validationLayers[k], availableLayers[j]) == 0 {
          layerFound := true;
          break;
        }
        j := j + 1;
      }
      if !layerFound {
        assert validationLayers[k] !in availableLayers;
        return true;
      }
      k := k + 1;
    }
    return false;
  }

  /**
   * With the configured (misspelled) layer name and a loader that advertises the Khronos layer
   * under its real name, the layer check as written reports support: the misspelling is never
   * found, and a missing layer is what makes the check pass.
   */
  lemma MisspelledLayerPassesLayerCheck(availableLayers: seq<Name>)
    requires DefaultValidationLayers[0] !in availableLayers
    ensures !AllRequestedAdvertised(DefaultValidationLayers, availableLayers)
    ensures DefaultValidationLayers[0] != KhronosValidationLayer
  {
  }

  // ---------------------------------------------------------------------------
  // Instance extensions and queue create-infos
  // ---------------------------------------------------------------------------

  /**
   * The instance extensions to enable: the names the windowing library requires, in its order,
   * followed by the debug-utils extension exactly when validation is enabled.
   */
  method GetRequiredExtensions(platformExtensions: seq<Name>, enableValidationLayers: bool) returns (extensions: seq<Name>)
    ensures |extensions| == |platformExtensions| + (if enableValidationLayers then 1 else 0)
    ensures extensions[..|platformExtensions|] == platformExtensions
    ensures enableValidationLayers ==> extensions[|platformExtensions|] == DebugUtilsExtensionName
    ensures DebugUtilsExtensionName !in platformExtensions ==>
      (DebugUtilsExtensionName in extensions <==> enableValidationLayers)
  {
    extensions := platformExtensions;
    if enableValidationLayers {
      extensions := extensions + [DebugUtilsExtensionName];
    }
  }

  /** The families held by a `std::set` built from the two indices: distinct and ascending. */
  function UniqueQueueFamilies(graphicsFamily: nat, presentFamily: nat): (families: seq<nat>)
    ensures |families| == if graphicsFamily == presentFamily then 1 else 2
    ensures forall k, m :: 0 <= k < m < |families| ==> families[k] < families[m]
    ensures forall k :: 0 <= k < |families| ==> families[k] == graphicsFamily || families[k] == presentFamily
    ensures graphicsFamily in families && presentFamily in families
  {
    if graphicsFamily == presentFamily then [graphicsFamily]
    else if graphicsFamily < presentFamily then [graphicsFamily, presentFamily]
    else [presentFamily, graphicsFamily]
  }

  /**
   * One queue create-info per distinct family among the graphics and present families,
   * in ascending family order, each asking for one queue.
   */
  method BuildQueueCreateInfos(graphicsFamily: nat, presentFamily: nat) returns (queueCreateInfos: seq<DeviceQueueCreateInfo>)
    ensures |queueCreateInfos| == if graphicsFamily == presentFamily then 1 else 2
    ensures forall k :: 0 <= k < |queueCreateInfos| ==> queueCreateInfos[k].queueCount == 1
    ensures forall k, m :: 0 <= k < m < |queueCreateInfos| ==>
      queueCreateInfos[k].queueFamilyIndex < queueCreateInfos[m].queueFamilyIndex
    ensures forall k :: 0 <= k < |queueCreateInfos| ==>
      queueCreateInfos[k].queueFamilyIndex == graphicsFamily || queueCreateInfos[k].queueFamilyIndex == presentFamily
    ensures exists k :: 0 <= k < |queueCreateInfos| && queueCreateInfos[k].queueFamilyIndex == graphicsFamily
    ensures exists k :: 0 <= k < |queueCreateInfos| && queueCreateInfos[k].queueFamilyIndex == presentFamily
  {
    var uniqueQueueFamilies := UniqueQueueFamilies(graphicsFamily, presentFamily);
    queueCreateInfos := [];
    for n := 0 to |uniqueQueueFamilies|
      invariant |queueCreateInfos| == n
      invariant forall k :: 0 <= k < n ==> queueCreateInfos[k] == DeviceQueueCreateInfo(uniqueQueueFamilies[k], 1)
    {
      queueCreateInfos := queueCreateInfos + [DeviceQueueCreateInfo(uniqueQueueFamilies[n], 1)];
    }
    assert forall k :: 0 <= k < |queueCreateInfos| ==> queueCreateInfos[k].queueFamilyIndex == uniqueQueueFamilies[k];
  }

  // ---------------------------------------------------------------------------
  // The renderer object
  // ---------------------------------------------------------------------------

  /**
   * The renderer's state. A handle field is None until the step that creates it succeeds;
   * a created instance or logical device is represented by the create-info it was made from.
   */
  class VulkanRenderer {
    const enableValidationLayers: bool
    const validationLayers: seq<Name>

    var instance: Option<InstanceCreateInfo>
    var physicalDevice: Option<PhysicalDevice>
    var logicalDevice: Option<DeviceCreateInfo>
    var graphicsQueue: Option<Queue>
    var presentQueue: Option<Queue>

    /** A renderer built with the given validation configuration; nothing is created yet. */
    constructor (enableValidationLayers: bool, validationLayers: seq<Name>)
      ensures this.enableValidationLayers == enableValidationLayers
      ensures this.validationLayers == validationLayers
      ensures instance.None? && physicalDevice.None? && logicalDevice.None?
      ensures graphicsQueue.None? && presentQueue.None?
    {
      this.enableValidationLayers := enableValidationLayers;
      this.validationLayers := validationLayers;
      instance := None;
      physicalDevice := None;
      logicalDevice := None;
      graphicsQueue := None;
      presentQueue := None;
    }

    /**
     * Creates the instance. With validation enabled the layer check runs first and a false
     * answer throws. The create-info's layer fields are written for validation and then reset,
     * so the instance is always made with no layers and with the required extensions.
     * `createSucceeds` is the driver's answer to `vkCreateInstance`.
     */
    method CreateInstance(availableLayers: seq<Name>, platformExtensions: seq<Name>, createSucceeds: bool)
      returns (outcome: Outcome)
      modifies this`instance
      ensures enableValidationLayers && AllRequestedAdvertised(validationLayers, availableLayers) ==>
        outcome == RuntimeError(LayersUnavailable) && instance == old(instance)
      ensures !(enableValidationLayers && AllRequestedAdvertised(validationLayers, availableLayers)) ==>
        outcome == (if createSucceeds then Pass else RuntimeError(InstanceCreationFailed))
      ensures outcome != Pass ==> instance == old(instance)
      ensures outcome == Pass ==>
        instance.Some? &&
        instance.value.enabledLayerCount == 0 && instance.value.enabledLayerNames == [] &&
        instance.value.enabledExtensionCount == |instance.value.enabledExtensionNames| &&
        |instance.value.enabledExtensionNames| == |platformExtensions| + (if enableValidationLayers then 1 else 0) &&
        instance.value.enabledExtensionNames[..|platformExtensions|] == platformExtensions &&
        (enableValidationLayers ==> instance.value.enabledExtensionNames[|platformExtensions|] == DebugUtilsExtensionName)
    {
      if enableValidationLayers {
        var layersSupported := CheckValidationLayerSupport(validationLayers, availableLayers);
        if !layersSupported {
          return RuntimeError(LayersUnavailable);
        }
      }

      var createInfo := InstanceCreateInfo(0, [], 0, []);
      if enableValidationLayers {
        // the layer list is stored in the extension-name field; both are overwritten below
        createInfo := createInfo.(enabledLayerCount := |validationLayers|, enabledExtensionNames := validationLayers);
      } else {
        createInfo := createInfo.(enabledLayerCount := 0);
      }

      var extensions := GetRequiredExtensions(platformExtensions, enableValidationLayers);
      createInfo := createInfo.(enabledExtensionCount := |extensions|, enabledExtensionNames := extensions);

      createInfo := createInfo.(enabledLayerCount := 0, enabledLayerNames := []);

      if !createSucceeds {
        return RuntimeError(InstanceCreationFailed);
      }
      instance := Some(createInfo);
      return Pass;
    }

    /**
     * Picks the physical device. An empty enumeration throws; otherwise the first suitable
     * device in enumeration order is stored, and the field keeps its old value when no
     * device is suitable.
     */
    method GetPhysicalDevice(deviceList: seq<PhysicalDevice>) returns (outcome: Outcome)
      modifies this`physicalDevice
      ensures outcome == if deviceList == [] then RuntimeError(NoVulkanDevice) else Pass
      ensures physicalDevice == match FirstMatch(deviceList, Suitable)
                                case Some(k) => Some(deviceList[k])
                                case None => old(physicalDevice)
    {
      if |deviceList| == 0 {
        return RuntimeError(NoVulkanDevice);
      }
      var n := 0;
      while n < |deviceList|
        invariant 0 <= n <= |deviceList|
        invariant forall k :: 0 <= k < n ==> !Suitable(deviceList[k])
        invariant physicalDevice == old(physicalDevice)
      {
        var suitable := CheckDeviceSuitable(deviceList[n]);
        if suitable {
          physicalDevice := Some(deviceList[n]);
          break;
        }
        n := n + 1;
      }
      return Pass;
    }

    /**
     * Creates the logical device for the chosen physical device. Both indices must hold a
     * value (`.value()` throws otherwise). Because the resolver only sets the present index on
     * the family it has just taken for graphics and then stops, a complete record names one
     * family for both roles, so exactly one queue create-info is built and both queue handles
     * come from that family. `createSucceeds` is the driver's answer to `vkCreateDevice`.
     */
    method CreateLogicalDevice(createSucceeds: bool) returns (outcome: Outcome)
      requires physicalDevice.Some?
      modifies this`logicalDevice, this`graphicsQueue, this`presentQueue
      ensures outcome == if !Suitable(physicalDevice.value) then BadOptionalAccess
                         else if !createSucceeds then RuntimeError(LogicalDeviceCreationFailed)
                         else Pass
      ensures outcome != Pass ==>
        logicalDevice == old(logicalDevice) && graphicsQueue == old(graphicsQueue) && presentQueue == old(presentQueue)
      ensures outcome == Pass ==>
        exists i: nat :: FirstPresentable(physicalDevice.value, i) &&
          logicalDevice == Some(DeviceCreateInfo(1, [DeviceQueueCreateInfo(i, 1)], 0, [])) &&
          graphicsQueue == Some(Queue(i, 0)) && presentQueue == Some(Queue(i, 0))
    {
      var indices, _ := FindQueueFamilies(physicalDevice.value);
      if !indices.IsComplete() {
        return BadOptionalAccess;
      }
      var graphicsFamily, presentFamily := indices.graphicsFamily.value, indices.presentFamily.value;
      var queueCreateInfos := BuildQueueCreateInfos(graphicsFamily, presentFamily);

      var deviceCreateInfo := DeviceCreateInfo(|queueCreateInfos|, queueCreateInfos, 0, []);
      if !createSucceeds {
        return RuntimeError(LogicalDeviceCreationFailed);
      }
      logicalDevice := Some(deviceCreateInfo);
      graphicsQueue := Some(Queue(graphicsFamily, 0));
      presentQueue := Some(Queue(presentFamily, 0));
      assert queueCreateInfos == [DeviceQueueCreateInfo(graphicsFamily, 1)];
      assert FirstPresentable(physicalDevice.value, graphicsFamily);
      return Pass;
    }
  }
}
