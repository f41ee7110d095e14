/** The queue-family indices record of the later tutorial stage: two optional indices. */
module Utilities {
  import opened Common

  /**
   * Where a device's queue families for each role are, if the scan found them:
   * `graphicsFamily` for drawing, `presentFamily` for presenting to the window surface.
   */
  datatype QueueFamilyIndices = QueueFamilyIndices(graphicsFamily: Option<nat>, presentFamily: Option<nat>) {

    /** Both roles have a family. */
    predicate IsComplete() {
      graphicsFamily.Some? && presentFamily.Some?
    }
  }

  /** The default-constructed record: neither optional holds a value, so it is not complete. */
  function Unset(): (r: QueueFamilyIndices)
    ensures r.graphicsFamily.None? && r.presentFamily.None?
    ensures !r.IsComplete()
  {
    QueueFamilyIndices(None, None)
  }

  /** Completeness case by case: a record with only one of the two indices set is not complete. */
  lemma IsCompleteByCases(g: nat, p: nat)
    ensures QueueFamilyIndices(Some(g), Some(p)).IsComplete()
    ensures !QueueFamilyIndices(Some(g), None).IsComplete()
    ensures !QueueFamilyIndices(None, Some(p)).IsComplete()
    ensures !QueueFamilyIndices(None, None).IsComplete()
  {
  }
}
