/**
 * The values the renderer exchanges with the Vulkan driver and the C library.
 * Driver queries are not called here: their answers are carried in these records
 * and handed to the renderer as inputs.
 */
module Vulkan {

  /** An extension or layer name: the characters of a NUL-terminated C string, without the NUL. */
  type Name = string

  /**
   * `strcmp` on two names: negative, zero or positive as `a` sorts before, equal to or
   * after `b` by character code. Only the sign is specified by C; -1, 0 and 1 are used here.
   */
  function Strcmp(a: Name, b: Name): (r: int)
    ensures r == 0 <==> a == b
    ensures -1 <= r <= 1
    ensures a == [] && b != [] ==> r == -1
    decreases |a|
  {
    if a == [] && b == [] then 0
    else if a == [] then -1
    else if b == [] then 1
    else if a[0] < b[0] then -1
    else if a[0] > b[0] then 1
    else
      var rest := Strcmp(a[1..], b[1..]);
      assert rest == 0 ==> a == [a[0]] + a[1..] == [b[0]] + b[1..] == b;
      assert a == b ==> a[1..] == b[1..];
      rest
  }

  /** `VK_QUEUE_GRAPHICS_BIT` of `VkQueueFlagBits`. */
  const QueueGraphicsBit: bv32 := 0x0000_0001

  /** `VkQueueFamilyProperties`, reduced to the two fields the renderer reads. */
  datatype QueueFamilyProperties = QueueFamilyProperties(queueFlags: bv32, queueCount: nat)

  /** The renderer's test on one queue family: at least one queue, and the graphics bit set. */
  predicate HasGraphicsQueue(family: QueueFamilyProperties) {
    family.queueCount > 0 && family.queueFlags & QueueGraphicsBit != 0
  }

  /**
   * A physical device as the renderer sees it: an identifying handle, the queue families
   * `vkGetPhysicalDeviceQueueFamilyProperties` reports in order, and the family indices for which
   * `vkGetPhysicalDeviceSurfaceSupportKHR` answers true for the renderer's window surface.
   */
  datatype PhysicalDevice = PhysicalDevice(handle: nat, queueFamilies: seq<QueueFamilyProperties>, presentSupport: set<nat>)

  /** Index `i` names a family of `families` that passes the renderer's graphics test. */
  predicate GraphicsCapable(families: seq<QueueFamilyProperties>, i: nat) {
    i < |families| && HasGraphicsQueue(families[i])
  }

  /** `VkDeviceQueueCreateInfo`: the family to create queues from, and how many (priorities are left out). */
  datatype DeviceQueueCreateInfo = DeviceQueueCreateInfo(queueFamilyIndex: nat, queueCount: nat)

  /** `VkDeviceCreateInfo`: counts and lists of queue create-infos and of device extensions. */
  datatype DeviceCreateInfo = DeviceCreateInfo(
    queueCreateInfoCount: nat,
    queueCreateInfos: seq<DeviceQueueCreateInfo>,
    enabledExtensionCount: nat,
    enabledExtensionNames: seq<Name>)

  /** `VkInstanceCreateInfo`: counts and lists of enabled layers and enabled extensions. */
  datatype InstanceCreateInfo = InstanceCreateInfo(
    enabledLayerCount: nat,
    enabledLayerNames: seq<Name>,
    enabledExtensionCount: nat,
    enabledExtensionNames: seq<Name>)

  /** A queue handle obtained with `vkGetDeviceQueue`: the family it belongs to and its index there. */
  datatype Queue = Queue(familyIndex: nat, queueIndex: nat)

  /** `VK_EXT_DEBUG_UTILS_EXTENSION_NAME`. */
  const DebugUtilsExtensionName: Name := "VK_EXT_debug_utils"

  const Uint32Modulus: int := 0x1_0000_0000

  /** C++ conversion of an `int` to `uint32_t`: the value modulo 2^32. */
  function ToUint32(x: int): (r: nat)
    ensures r < Uint32Modulus
    ensures (r - x) % Uint32Modulus == 0
    ensures 0 <= x < Uint32Modulus ==> r == x
    ensures x == -1 ==> r == 0xFFFF_FFFF
  {
    x % Uint32Modulus
  }
}
