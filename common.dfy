/** Shared wrappers: optional values, the renderer's exception outcomes and first-fit search. */
module Common {

  /** A value that may be absent (`std::optional`, or a field nothing has assigned yet). */
  datatype Option<T> = None | Some(value: T)

  /**
   * How a renderer step ends: normally, by throwing `std::runtime_error` with the given
   * message, or by `std::bad_optional_access` from `.value()` on an empty optional
   * (which is not a `std::runtime_error`).
   */
  datatype Outcome = Pass | RuntimeError(what: string) | BadOptionalAccess

  /** Index of the first element of `s` satisfying `p`, scanning in order; None when none does. */
  function FirstMatch<T>(s: seq<T>, p: T -> bool): (r: Option<nat>)
    ensures r.None? <==> forall k :: 0 <= k < |s| ==> !p(s[k])
    ensures r.Some? ==> r.value < |s| && p(s[r.value])
    ensures r.Some? ==> forall k :: 0 <= k < r.value ==> !p(s[k])
  {
    if s == [] then None
    else if p(s[0]) then Some(0)
    else
      match FirstMatch(s[1..], p)
      case None => None
      case Some(k) => Some(k + 1)
  }

  /**
   * First-fit: once a candidate is found, candidates enumerated after it never change
   * the choice, whatever they are.
   */
  lemma {:induction false} FirstMatchIgnoresLaterCandidates<T>(s: seq<T>, t: seq<T>, p: T -> bool)
    requires FirstMatch(s, p).Some?
    ensures FirstMatch(s + t, p) == FirstMatch(s, p)
  {
    if !p(s[0]) {
      assert (s + t)[1..] == s[1..] + t;
      FirstMatchIgnoresLaterCandidates(s[1..], t, p);
    }
  }
}
