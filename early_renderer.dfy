/**
 * The decision logic of the renderer's earlier tutorial stage: a graphics queue only,
 * found with a -1 sentinel, and no surface, presentation queue or validation layers.
 */
module EarlyRenderer {
  import opened Common
  import opened Vulkan
  import opened EarlyUtilities
  import opened Support

  const ExtensionsUnsupported: string := "VkInstance doesn't support required extensions"

  /** Some family of `device` passes the graphics test. */
  predicate Suitable(device: PhysicalDevice) {
    exists i: nat :: i < |device.queueFamilies| && GraphicsCapable(device.queueFamilies, i)
  }

  /** `i` is the lowest index of a family that passes the graphics test. */
  predicate FirstGraphics(families: seq<QueueFamilyProperties>, i: nat) {
    GraphicsCapable(families, i) && forall j: nat :: j < i ==> !GraphicsCapable(families, j)
  }

  /**
   * Scans the device's queue families in order and stores the index of the first one that
   * passes the graphics test, stopping there; without one the sentinel stays.
   */
  method GetQueueFamilies(device: PhysicalDevice) returns (indices: QueueFamilyIndices)
    ensures indices.IsValid() <==> Suitable(device)
    ensures indices.IsValid() ==> FirstGraphics(device.queueFamilies, indices.graphicsFamily)
    ensures !indices.IsValid() ==> indices == Default()
  {
    var families := device.queueFamilies;
    indices := Default();
    var i := 0;
    while i < |families|
      invariant 0 <= i <= |families|
      invariant indices == Default()
      invariant forall j: nat :: j < i ==> !GraphicsCapable(families, j)
    {
      if HasGraphicsQueue(families[i]) {
        indices := indices.(graphicsFamily := i);
      }
      if indices.IsValid() {
        assert FirstGraphics(families, i);
        break;
      }
      assert !GraphicsCapable(families, i);
      i := i + 1;
    }
  }

  /** A device is suitable exactly when the scan stores a valid index. */
  method CheckDeviceSuitable(device: PhysicalDevice) returns (suitable: bool)
    ensures suitable == Suitable(device)
  {
    var indices := GetQueueFamilies(device);
    suitable := indices.IsValid();
  }


  /**
   * The renderer's state. A handle field is None until the step that creates it succeeds;
   * a created instance or logical device is represented by the create-info it was made from.
   */
  class VulkanRenderer {
    var instance: Option<InstanceCreateInfo>
    var physicalDevice: Option<PhysicalDevice>
    var logicalDevice: Option<DeviceCreateInfo>
    var graphicsQueue: Option<Queue>

    /** A renderer with nothing created yet. */
    constructor ()
      ensures instance.None? && physicalDevice.None? && logicalDevice.None? && graphicsQueue.None?
    {
      instance := None;
      physicalDevice := None;
      logicalDevice := None;
      graphicsQueue := None;
    }

    /**
     * Creates the instance. The extension list is copied one by one from the windowing
     * library's list and passed through the extension check as written; a false answer throws.
     * The instance is made with no layers and exactly the copied extensions.
     * `createSucceeds` is the driver's answer to `vkCreateInstance`.
     */
    method CreateInstance(platformExtensions: seq<Name>, availableExtensions: seq<Name>, createSucceeds: bool)
      returns (outcome: Outcome)
      modifies this`instance
      ensures outcome == if !EachRequestedHasDifferentName(platformExtensions, availableExtensions)
                         then RuntimeError(ExtensionsUnsupported)
                         else if !createSucceeds then RuntimeError(InstanceCreationFailed)
                         else Pass
      ensures outcome != Pass ==> instance == old(instance)
      ensures outcome == Pass ==>
        instance == Some(InstanceCreateInfo(0, [], |platformExtensions|, platformExtensions))
    {
      var instanceExtensions: seq<Name> := [];
      for n := 0 to |platformExtensions|
        invariant instanceExtensions == platformExtensions[..n]
      {
        instanceExtensions := instanceExtensions + [platformExtensions[n]];
      }
      assert instanceExtensions == platformExtensions;

      var supported := CheckInstanceExtensionSupport(instanceExtensions, availableExtensions);
      if !supported {
        return RuntimeError(ExtensionsUnsupported);
      }

      var createInfo := InstanceCreateInfo(0, [], 0, []);
      createInfo := createInfo.(enabledExtensionCount := |instanceExtensions|, enabledExtensionNames := instanceExtensions);
      createInfo := createInfo.(enabledLayerCount := 0, enabledLayerNames := []);

      if !createSucceeds {
        return RuntimeError(InstanceCreationFailed);
      }
      instance := Some(createInfo);
      return Pass;
    }

    /**
     * Picks the physical device. An empty enumeration throws; otherwise the first suitable
     * device in enumeration order is stored, and the field keeps its old value when no
     * device is suitable.
     */
    method GetPhysicalDevice(deviceList: seq<PhysicalDevice>) returns (outcome: Outcome)
      modifies this`physicalDevice
      ensures outcome == if deviceList == [] then RuntimeError(NoVulkanDevice) else Pass
      ensures physicalDevice == match FirstMatch(deviceList, Suitable)
                                case Some(k) => Some(deviceList[k])
                                case None => old(physicalDevice)
    {
      if |deviceList| == 0 {
        return RuntimeError(NoVulkanDevice);
      }
      var n := 0;
      while n < |deviceList|
        invariant 0 <= n <= |deviceList|
        invariant forall k :: 0 <= k < n ==> !Suitable(deviceList[k])
        invariant physicalDevice == old(physicalDevice)
      {
        var suitable := CheckDeviceSuitable(deviceList[n]);
        if suitable {
          physicalDevice := Some(deviceList[n]);
          break;
        }
        n := n + 1;
      }
      return Pass;
    }

    /**
     * Creates the logical device with a single queue create-info for the graphics family,
     * asking for one queue. The stored `int` index is converted to `uint32_t`, so the -1
     * sentinel of an unsuitable device reaches the driver as 0xFFFFFFFF.
     * `createSucceeds` is the driver's answer to `vkCreateDevice`.
     */
    method CreateLogicalDevice(createSucceeds: bool) returns (outcome: Outcome)
      requires physicalDevice.Some?
      modifies this`logicalDevice, this`graphicsQueue
      ensures outcome == if createSucceeds then Pass else RuntimeError(LogicalDeviceCreationFailed)
      ensures outcome != Pass ==> logicalDevice == old(logicalDevice) && graphicsQueue == old(graphicsQueue)
      ensures outcome == Pass ==>
        exists family: nat ::
          logicalDevice == Some(DeviceCreateInfo(1, [DeviceQueueCreateInfo(family, 1)], 0, [])) &&
          graphicsQueue == Some(Queue(family, 0)) &&
          (Suitable(physicalDevice.value) ==>
            exists g: nat :: FirstGraphics(physicalDevice.value.queueFamilies, g) && family == ToUint32(g)) &&
          (!Suitable(physicalDevice.value) ==> family == 0xFFFF_FFFF)
    {
      var indices := GetQueueFamilies(physicalDevice.value);
      var queueCreateInfo := DeviceQueueCreateInfo(ToUint32(indices.graphicsFamily), 1);
      var deviceCreateInfo := DeviceCreateInfo(1, [queueCreateInfo], 0, []);
      if !createSucceeds {
        return RuntimeError(LogicalDeviceCreationFailed);
      }
      logicalDevice := Some(deviceCreateInfo);
      graphicsQueue := Some(Queue(ToUint32(indices.graphicsFamily), 0));
      return Pass;
    }
  }
}
