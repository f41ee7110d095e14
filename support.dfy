/**
 * The support checks both tutorial stages share (each stage carries its own identical copy
 * of the instance extension check) and the error messages both stages throw.
 */
module Support {
  import opened Vulkan

  const InstanceCreationFailed: string := "Failed to create a Vulkan Instance"
  const NoVulkanDevice: string := "Cannot find GPUs that support vulkan instance"
  const LogicalDeviceCreationFailed: string := "Failed to create a logical device"

  /** Every requested name occurs, exactly, among the advertised names. */
  predicate AllRequestedAdvertised(requested: seq<Name>, advertised: seq<Name>) {
    forall k :: 0 <= k < |requested| ==> requested[k] in advertised
  }

  /** Some advertised name differs from `name`: what the extension check's inner loop looks for. */
  predicate HasDifferentName(name: Name, advertised: seq<Name>) {
    exists j :: 0 <= j < |advertised| && advertised[j] != name
  }

  /** For every requested name some advertised name differs from it. */
  predicate EachRequestedHasDifferentName(requested: seq<Name>, advertised: seq<Name>) {
    forall k :: 0 <= k < |requested| ==> HasDifferentName(requested[k], advertised)
  }

  /**
   * The instance extension check as written: a requested extension counts as present as soon
   * as `strcmp` against an advertised name is non-zero, that is, as soon as an advertised name
   * DIFFERS from it; the check fails on the first requested name with no such advertised name.
   */
  method CheckInstanceExtensionSupport(checkExtensions: seq<Name>, extensions: seq<Name>) returns (supported: bool)
    ensures supported <==> EachRequestedHasDifferentName(checkExtensions, extensions)
    ensures checkExtensions == [] ==> supported
    ensures checkExtensions != [] && extensions == [] ==> !supported
  {
    var k := 0;
    while k < |checkExtensions|
      invariant 0 <= k <= |checkExtensions|
      invariant forall m :: 0 <= m < k ==> HasDifferentName(checkExtensions[m], extensions)
    {
      var hasExtension := false;
      var j := 0;
      while j < |extensions|
        invariant 0 <= j <= |extensions|
        invariant !hasExtension
        invariant forall m :: 0 <= m < j ==> extensions[m] == checkExtensions[k]
      {
        if Strcmp(checkExtensions[k], extensions[j]) != 0 {
          hasExtension := true;
          break;
        }
        j := j + 1;
      }
      if !hasExtension {
        return false;
      }
      k := k + 1;
    }
    assert checkExtensions != [] ==> HasDifferentName(checkExtensions[0], extensions);
    return true;
  }

  /**
   * Once two different names are advertised, the extension check as written accepts every
   * request, whatever it asks for.
   */
  lemma ExtensionCheckAcceptsAllOnceTwoNamesDiffer(requested: seq<Name>, advertised: seq<Name>, a: nat, b: nat)
    requires a < |advertised| && b < |advertised| && advertised[a] != advertised[b]
    ensures EachRequestedHasDifferentName(requested, advertised)
  {
  }

  /**
   * The extension check as written disagrees with membership in both directions: it rejects
   * a name that is advertised alone, and accepts a name that is not advertised at all.
   */
  lemma ExtensionCheckDisagreesWithMembership(x: Name, y: Name)
    requires x != y
    ensures AllRequestedAdvertised([x], [x]) && !EachRequestedHasDifferentName([x], [x])
    ensures !AllRequestedAdvertised([x], [y]) && EachRequestedHasDifferentName([x], [y])
  {
    assert [x][0] == x;
    assert [y][0] == y;
  }
}
