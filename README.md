# Vulkan renderer start-up decisions, in Dafny

This project models the decision logic a small Vulkan tutorial renderer runs before it asks
the driver to create anything. The logic covers five steps:

- which queue families of a physical device serve graphics and presentation;
- which enumerated physical device is picked;
- whether the requested instance extensions and validation layers count as available;
- which instance extensions are enabled;
- which queue create-infos the logical device is built from.

The repository holds two tutorial stages of the same renderer, and both are modelled:

- **the later stage** (`src/`): graphics plus presentation queues, a window surface and
  validation layers. Its modules are `Utilities` and `Renderer`.
- **the earlier stage** (repository root): a graphics queue only, found with a `-1` sentinel.
  Its modules are `EarlyUtilities` and `EarlyRenderer`.

The shared modules are `Common`, `Vulkan` and `Support`:

- `Common` holds `Option`, the exception outcomes and the first-fit search.
- `Vulkan` holds the driver-side records, `strcmp` and the `int` to `uint32_t` conversion.
- `Support` holds the instance extension check, which both stages carry as identical code,
  and the error messages both stages throw.

Every driver or windowing-library query is turned into an input. A physical device is a
record with three parts:

- the queue families the driver reports, in order;
- the set of family indices for which the driver says presentation to the window surface is
  supported;
- a handle.

Advertised extension and layer names come in as sequences. The answer to each `vkCreate*`
call comes in as a boolean. A thrown exception becomes an `Outcome`:

- `RuntimeError` carries the source's message text.
- `BadOptionalAccess` stands for `.value()` called on an empty optional. This exception is
  not a `std::runtime_error`.

The renderer object is a class in each stage. Its fields are the instance, the physical
device, the logical device and the queues. A created instance or logical device is
represented by the create-info it was made from.

Several parts of the code do less than, or the opposite of, what its own names and comments
say. The model follows the code:

- The comment at src/VulkanRenderer.cpp:250 says the scan checks each family for the
  required queue types. The resolver does not keep the first graphics family, though. It
  overwrites `graphicsFamily` at every graphics-capable family (line 256). It asks about
  presentation only for those families, and it sets `presentFamily` only on the family it
  has just taken for graphics (lines 258-262). A complete result therefore always names one
  family for both roles. The deduplication through a `std::set` at line 121 therefore always
  yields a single create-info.
- `checkInstanceExtensionSupport` is commented "check if give extensions are in list of
  avilable extensions" (src/VulkanRenderer.cpp:205, and VulkanRenderer.cpp:144). It treats a
  non-zero `strcmp`, that is a DIFFERENT name, as a match (line 209). Lemmas show how this
  differs from "every requested name is advertised".
- `checkValidationLayerSupport` is used under the comment "check if validation layers are
  supported" (src/VulkanRenderer.cpp:67). It answers true exactly when a requested layer is
  missing (lines 293-298), so it is the negation of that membership test.
- `checkDeviceSuitable` looks at queue families only. Device properties and features are
  commented out (src/VulkanRenderer.cpp:225-233).
- When no device is suitable, `getPhysicalDevice` returns normally and the physical-device
  field keeps its old value (src/VulkanRenderer.cpp:186-193).
- `createInstance` sets the layer count for validation (line 89) and resets it to 0 under a
  "TODO: set up validation layers" comment (lines 105-106). The instance is therefore always
  created with no layers.
- The configured layer name is `VK_LAYER_KHORNOS_validation` (src/VulkanRenderer.h:49),
  spelled that way.

## Model

| member | source | states |
|---|---|---|
| Common.FirstMatch | src/VulkanRenderer.cpp:186-192 | the result is the index of the first element satisfying the test, and no earlier element satisfies it; it is None exactly when no element does |
| Common.FirstMatchIgnoresLaterCandidates | src/VulkanRenderer.cpp:186-192 | first-fit: once a suitable candidate exists, appending further candidates never changes the choice |
| Vulkan.Strcmp | src/VulkanRenderer.cpp:287 | `strcmp` is zero exactly when the two names are equal; its sign is -1, 0 or 1 |
| Vulkan.ToUint32 | VulkanRenderer.cpp:82 | the `int` to `uint32_t` conversion is congruent modulo 2^32 and below 2^32; it keeps indices in range and maps the -1 sentinel to 0xFFFFFFFF |
| Utilities.Unset | src/Utilities.h:5-7 | a default-constructed record has neither index set, and is not complete |
| Utilities.IsCompleteByCases | src/Utilities.h:10-12 | completeness holds with both indices set, and fails with only the graphics index, only the present index, or neither |
| EarlyUtilities.Default | Utilities.h:4-5 | a default-constructed record holds -1 and is not valid |
| EarlyUtilities.IsValidIffIndexStored | Utilities.h:8-10 | validity holds exactly for a non-negative stored index |
| Renderer.FindQueueFamilies | src/VulkanRenderer.cpp:240-274 | complete iff some family has a queue, the graphics bit and presentation support; if complete, both indices are the first such family and no later family was queried; if incomplete, the present index is unset and the graphics index is the last graphics-capable family, or unset when there is none; zero families give the unset record; presentation support is queried only for graphics-capable families, in ascending order |
| Renderer.CheckDeviceSuitable | src/VulkanRenderer.cpp:224-238 | the answer equals the completeness of the resolver's result |
| Renderer.NoFamiliesNotSuitable | src/VulkanRenderer.cpp:244-273 | a device with no queue families is never suitable |
| Support.CheckInstanceExtensionSupport | src/VulkanRenderer.cpp:196-222 | as written, and identical to VulkanRenderer.cpp:135-161: true iff every requested name has some advertised name that differs from it; an empty request gives true; a non-empty request against an empty advertised list gives false |
| Renderer.CheckValidationLayerSupport | src/VulkanRenderer.cpp:276-299 | as written: true iff some requested layer has no exact match, so it is the negation of "all requested layers are available"; an empty request gives false |
| Support.ExtensionCheckAcceptsAllOnceTwoNamesDiffer | src/VulkanRenderer.cpp:205-221 | once two different names are advertised, the extension check accepts every request |
| Support.ExtensionCheckDisagreesWithMembership | src/VulkanRenderer.cpp:205-221 | the extension check rejects a request for the one advertised name, and accepts a request for a name that is not advertised |
| Renderer.MisspelledLayerPassesLayerCheck | src/VulkanRenderer.h:48-50 | the configured layer name differs from the Khronos layer's name; against any list lacking the misspelling, the inverted layer check reports support |
| Renderer.GetRequiredExtensions | src/VulkanRenderer.cpp:301-313 | the result is the platform list unchanged, followed by the debug-utils name exactly when validation is enabled |
| Renderer.UniqueQueueFamilies | src/VulkanRenderer.cpp:121 | the `std::set` of the two family indices is strictly ascending, contains both and nothing else, and has 1 element when they are equal and 2 when they differ |
| Renderer.BuildQueueCreateInfos | src/VulkanRenderer.cpp:120-131 | one create-info per distinct family in {graphics, present}, in ascending order, each with queue count 1 |
| Renderer.VulkanRenderer.constructor | src/VulkanRenderer.h:14-56 | the validation flag and layer list are the given configuration; no handle has been created |
| Renderer.VulkanRenderer.CreateInstance | src/VulkanRenderer.cpp:66-114 | throws the layer error exactly when validation is enabled and the layer check answers false; otherwise throws the creation error exactly when the driver refuses; on success the instance has layer count 0 and exactly the required extensions with a matching count; on failure the field is unchanged |
| Renderer.VulkanRenderer.GetPhysicalDevice | src/VulkanRenderer.cpp:172-194 | throws exactly when the enumeration is empty; stores the first suitable device in enumeration order, and leaves the field unchanged when none is suitable |
| Renderer.VulkanRenderer.CreateLogicalDevice | src/VulkanRenderer.cpp:116-164 | `.value()` throws when the chosen device is not suitable; otherwise the creation error is thrown exactly when the driver refuses; on success there is exactly one queue create-info (count 1), for the first graphics-and-present family, and both queues come from that family |
| EarlyRenderer.GetQueueFamilies | VulkanRenderer.cpp:179-207 | valid iff some family has a queue and the graphics bit; then the index is the first such family; otherwise the record keeps the -1 sentinel, also for zero families |
| EarlyRenderer.CheckDeviceSuitable | VulkanRenderer.cpp:163-177 | the answer equals the validity of the scan's result |
| Renderer.EarlierStageAcceptsSuitableDevice | src/VulkanRenderer.cpp:255-262 | every device this stage accepts is accepted by the earlier stage's test at VulkanRenderer.cpp:194 too |
| EarlyRenderer.VulkanRenderer.constructor | VulkanRenderer.h:14-24 | no handle has been created |
| EarlyRenderer.VulkanRenderer.CreateInstance | VulkanRenderer.cpp:25-73 | the extension list is exactly the platform names in order; throws when the extension check as written fails, otherwise exactly when the driver refuses; on success the instance has layer count 0, and its extension count equals the list length |
| EarlyRenderer.VulkanRenderer.GetPhysicalDevice | VulkanRenderer.cpp:111-133 | throws exactly when the enumeration is empty; stores the first suitable device, and leaves the field unchanged when none is suitable |
| EarlyRenderer.VulkanRenderer.CreateLogicalDevice | VulkanRenderer.cpp:75-109 | exactly one queue create-info with queue count 1 and create-info count 1, for the first graphics family converted to `uint32_t`, or for 0xFFFFFFFF when the device has none; the graphics queue comes from the same family |

## Left out

- Driver and windowing-library calls are foreign calls and are not modelled. Their answers
  are inputs to the model:
  - `vkEnumerate*`, `vkGetPhysicalDeviceQueueFamilyProperties` and
    `vkGetPhysicalDeviceSurfaceSupportKHR` become sequences and sets.
  - `glfwGetRequiredInstanceExtensions` becomes the platform extension list.
  - `vkCreateInstance` and `vkCreateDevice` become a success flag.
  - `vkGetDeviceQueue` becomes a `Queue(family, 0)` value.
- The window surface is not modelled as a handle. Each device record carries the set of
  families that support presenting to it. `createSurface` and `glfwCreateWindowSurface` are
  not modelled.
- The debug messenger is not modelled: `debugCallback`, `PopulateDebugMessengerCreateInfo`,
  `setupDebugMessegner`, and creating or destroying the messenger. These only look up a
  function pointer, call it and log. The `pNext` chain set in `createInstance` is not
  modelled either.
- `init` and `cleanUp` are not modelled. They only run driver calls in sequence inside a
  try/catch. `init` also returns no value on success.
- Struct boilerplate is not modelled: `sType`, the application info, queue priorities and
  device features. The unused second queue create-info at src/VulkanRenderer.cpp:134-139 is
  not modelled either.
- Swapchain format, present-mode, extent and image-count selection, the sharing-mode choice
  and image views do not exist in this code, so nothing models them.
- Loop counters and family indices are unbounded integers. The C++ `int` counter would
  overflow beyond 2^31 - 1 families, and `static_cast<uint32_t>` of a list size would wrap.
  Neither can happen with realistic driver answers.
- Names are compared as whole character sequences. `strcmp` stops at an embedded NUL, and
  such names are not modelled.
- EarlyRenderer.GetQueueFamilies: no contract states that the scan stops after the first
  graphics-capable family. In this stage nothing is queried per family, so the stop cannot
  be observed in the model. The first-match result is stated.
- Utilities.IsCompleteByCases: the C++ `const` on `isComplete` is not stated as a separate
  property. In the model the record is an immutable value, so no query can change a field.
  The same holds for `isValid` in EarlyUtilities.
- Renderer.VulkanRenderer.CreateLogicalDevice: the path with no stored physical device is
  excluded by its precondition. When no device is suitable, `getPhysicalDevice` leaves the field
  unassigned and `init` still calls `createLogicalDevice`, which then hands a null handle to the
  driver; that behaviour is undefined, so nothing is promised for it. The `BadOptionalAccess`
  branch is reachable only from a stored device that is not suitable, which this class's own
  `GetPhysicalDevice` never stores.
- EarlyRenderer.VulkanRenderer.CreateLogicalDevice: the path with no stored physical device is
  excluded by its precondition, for the same reason: the source then hands a null handle to the
  driver. The 0xFFFFFFFF branch is reachable only from a stored device that is not suitable,
  which this class's own `GetPhysicalDevice` never stores.
- src/main.cpp and the headers' declarations are not part of this model. The validation
  flag and layer list from src/VulkanRenderer.h:48-56 are constructor parameters.
