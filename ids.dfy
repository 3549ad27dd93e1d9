/** Correlation ids of outbound commands (`_makeId`). */
module Ids {

  /** The 62 characters `_makeId` draws from. */
  const Letters: string := "ABCDEFGHIJKLMNOPQRSTUVWXYZabcdefghijklmnopqrstuvwxyz0123456789"

  /** `picks` stands for the successive results of `random.choice`, as indices into `Letters`. */
  predicate ValidPicks(picks: seq<nat>)
  {
    forall i :: 0 <= i < |picks| ==> picks[i] < |Letters|
  }

  /** The id `_makeId(stringLength)` returns when its random choices are `picks`. */
  function MakeId(stringLength: nat, picks: seq<nat>): (id: string)
    requires |picks| == stringLength && ValidPicks(picks)
    ensures |id| == stringLength
    ensures forall i :: 0 <= i < |id| ==> id[i] == Letters[picks[i]]
    ensures forall i :: 0 <= i < |id| ==> id[i] in Letters
  {
    seq(stringLength, i requires 0 <= i < stringLength => Letters[picks[i]])
  }
}
