/** Sorted arrays of reals and the two searches that the samplers run on them. */
module Search {

  ghost predicate StrictlyIncreasing(s: seq<real>) {
    forall i, j :: 0 <= i < j < |s| ==> s[i] < s[j]
  }

  ghost predicate NonDecreasing(s: seq<real>) {
    forall i, j :: 0 <= i < j < |s| ==> s[i] <= s[j]
  }

  /** The index of the first element above x, or the length when there is none. */
  function FirstAbove(s: seq<real>, x: real): (idx: nat)
    ensures idx <= |s|
    ensures forall k :: 0 <= k < idx ==> s[k] <= x
    ensures idx < |s| ==> x < s[idx]
  {
    if s == [] || x < s[0] then 0 else 1 + FirstAbove(s[1..], x)
  }

  lemma FirstAboveIsUnique(s: seq<real>, x: real, idx: nat)
    requires idx <= |s|
    requires forall k :: 0 <= k < idx ==> s[k] <= x
    requires idx < |s| ==> x < s[idx]
    ensures idx == FirstAbove(s, x)
  {
  }

  lemma FirstAboveMonotone(s: seq<real>, x: real, y: real)
    requires x <= y
    ensures FirstAbove(s, x) <= FirstAbove(s, y)
  {
  }

  /** The index of the first element not below x: std::multimap::lower_bound. */
  function LowerBound(s: seq<real>, x: real): (idx: nat)
    ensures idx <= |s|
    ensures forall k :: 0 <= k < idx ==> s[k] < x
    ensures idx < |s| ==> x <= s[idx]
  {
    if s == [] || x <= s[0] then 0 else 1 + LowerBound(s[1..], x)
  }

  lemma LowerBoundIsUnique(s: seq<real>, x: real, idx: nat)
    requires idx <= |s|
    requires forall k :: 0 <= k < idx ==> s[k] < x
    requires idx < |s| ==> x <= s[idx]
    ensures idx == LowerBound(s, x)
  {
  }
}
