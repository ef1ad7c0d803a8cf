/** The parts of Kotlin's standard library that the mood scale relies on:
    an optional value and `Iterable.first(predicate)`. */
module Collections {

  /** An absent result. `None` stands where the Kotlin code throws
      `NoSuchElementException`. */
  datatype Option<+T> = None | Some(value: T)

  /** `i` is the position of the first element of `s` that satisfies `p`. */
  ghost predicate IsFirstMatch<T>(s: seq<T>, p: T -> bool, i: int)
  {
    && 0 <= i < |s|
    && p(s[i])
    && forall j :: 0 <= j < i ==> !p(s[j])
  }

  /** `s.first(p)`: scans `s` from the front and yields the first element
      that satisfies `p`; `None` when no element does (Kotlin throws). */
  function First<T>(s: seq<T>, p: T -> bool): (r: Option<T>)
    ensures r.None? <==> forall i :: 0 <= i < |s| ==> !p(s[i])
    ensures r.Some? ==> exists i :: IsFirstMatch(s, p, i) && s[i] == r.value
  {
    if s == [] then None
    else if p(s[0]) then Some(s[0])
    else First(s[1..], p)
  }

  /** When exactly one element satisfies `p`, `first` finds that one. */
  lemma FirstOfUniqueMatch<T>(s: seq<T>, p: T -> bool, k: int)
    requires 0 <= k < |s| && p(s[k])
    requires forall i :: 0 <= i < |s| && p(s[i]) ==> i == k
    ensures First(s, p) == Some(s[k])
  {
  }
}
