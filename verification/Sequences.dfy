/** Subsequences, by the positions they pick. */
module Sequences {

  /** The positions are strictly increasing and pick the elements of `picked` from `from`. */
  ghost predicate PicksFrom<T>(picked: seq<T>, positions: seq<nat>, from: seq<T>) {
    && |positions| == |picked|
    && (forall k :: 0 <= k < |picked| ==> positions[k] < |from| && from[positions[k]] == picked[k])
    && (forall k, l :: 0 <= k < l < |positions| ==> positions[k] < positions[l])
  }

  /** Picking from all but the last element, and perhaps that one too. */
  lemma PicksMore<T>(picked: seq<T>, positions: seq<nat>, from: seq<T>)
    requires from != [] && PicksFrom(picked, positions, from[..|from| - 1])
    ensures PicksFrom(picked, positions, from)
    ensures PicksFrom(picked + [from[|from| - 1]], positions + [|from| - 1], from)
  {
  }
}
