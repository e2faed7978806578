/** The scan order of Python's `re.search`: try each start position from left
    to right and stop at the first one where the pattern matches. The pattern
    itself is a parameter: `matches(s, p)` says whether it matches at `p`. */
module LeftmostSearch {
  import opened Common

  /** The leftmost start position `p >= from` at which `matches` holds, if any.
      Positions run up to and including `|s|`, as `re.search` also tries an
      empty remainder. */
  function Leftmost(s: seq<char>, from: nat, matches: (seq<char>, nat) -> bool): (r: Option<nat>)
    ensures r.Some? ==> from <= r.value <= |s| && matches(s, r.value)
    ensures r.Some? ==> forall q :: from <= q < r.value ==> !matches(s, q)
    ensures r.None? ==> forall q :: from <= q <= |s| ==> !matches(s, q)
    decreases |s| + 1 - from
  {
    if from > |s| then None
    else if matches(s, from) then Some(from)
    else Leftmost(s, from + 1, matches)
  }

  /** A match with no match before it is the one the search finds. */
  lemma LeftmostIs(s: seq<char>, p: nat, matches: (seq<char>, nat) -> bool)
    requires p <= |s| && matches(s, p)
    requires forall q: nat :: q < p ==> !matches(s, q)
    ensures Leftmost(s, 0, matches) == Some(p)
  {
  }
}
