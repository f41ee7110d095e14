/** The queue-family indices record of the earlier tutorial stage: one `int` index with a -1 sentinel. */
module EarlyUtilities {

  /** The value `graphicsFamily` holds until a graphics-capable family is found. */
  const NoFamily: int := -1

  /** Where the device's graphics queue family is; `NoFamily` when none was found. */
  datatype QueueFamilyIndices = QueueFamilyIndices(graphicsFamily: int) {

    /** A family index has been stored. */
    predicate IsValid() {
      graphicsFamily >= 0
    }
  }

  /** The default-constructed record holds the sentinel and is not valid. */
  function Default(): (r: QueueFamilyIndices)
    ensures r.graphicsFamily == -1
    ensures !r.IsValid()
  {
    QueueFamilyIndices(NoFamily)
  }

  /** Validity depends only on the sign of the stored index: every family index is valid, every negative value is not. */
  lemma IsValidIffIndexStored(x: int)
    ensures QueueFamilyIndices(x).IsValid() <==> x >= 0
  {
  }
}
