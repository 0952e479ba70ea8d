/**
 * The Python built-ins the search relies on: max and min of a non-empty
 * list of integers, and list.index, which finds the first occurrence.
 */
module Builtins {

  /** max(s): an element of s that no element exceeds. */
  function Max(s: seq<int>): (r: int)
    requires |s| > 0
    ensures r in s
    ensures forall k :: 0 <= k < |s| ==> s[k] <= r
  {
    if |s| == 1 then s[0]
    else
      var rest := Max(s[1..]);
      if s[0] >= rest then s[0] else rest
  }

  /** min(s): an element of s that no element undercuts. */
  function Min(s: seq<int>): (r: int)
    requires |s| > 0
    ensures r in s
    ensures forall k :: 0 <= k < |s| ==> r <= s[k]
  {
    if |s| == 1 then s[0]
    else
      var rest := Min(s[1..]);
      if s[0] <= rest then s[0] else rest
  }

  /** s.index(v): the position of the first occurrence of v in s. */
  function IndexOf(s: seq<int>, v: int): (i: nat)
    requires v in s
    ensures i < |s| && s[i] == v
    ensures forall k :: 0 <= k < i ==> s[k] != v
  {
    if s[0] == v then 0 else 1 + IndexOf(s[1..], v)
  }

  /** i is the first position holding the largest element of s. */
  predicate FirstMaxAt(s: seq<int>, i: int)
  {
    0 <= i < |s| &&
    (forall j :: 0 <= j < |s| ==> s[j] <= s[i]) &&
    (forall j :: 0 <= j < i ==> s[j] < s[i])
  }

  /** s.index(max(s)) is the first position of a largest element. */
  lemma IndexOfMax(s: seq<int>)
    requires |s| > 0
    ensures FirstMaxAt(s, IndexOf(s, Max(s)))
  {
  }

  /** There is only one such position. */
  lemma FirstMaxUnique(s: seq<int>, i: int, j: int)
    requires FirstMaxAt(s, i) && FirstMaxAt(s, j)
    ensures i == j
  {
    assert s[i] == s[j];
  }
}
