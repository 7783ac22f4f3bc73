/**
  The "first line that matches" search the scanners share, over the
  sequence of per-line verdicts: `bs[i]` says whether line `i` matches.
*/
module Search {
  /** The first index at or after `from` whose verdict is true, or `|bs|` when there is none (see `FirstTrueStops`). */
  function FirstTrue(bs: seq<bool>, from: nat): (k: nat)
    requires from <= |bs|
    ensures from <= k <= |bs|
    ensures k < |bs| ==> bs[k]
    decreases |bs| - from
  {
    if from == |bs| || bs[from] then from else FirstTrue(bs, from + 1)
  }

  /** The search passes no true verdict. */
  lemma {:induction false} FirstTrueStops(bs: seq<bool>, from: nat, k: nat)
    requires from <= k < |bs| && bs[k]
    ensures FirstTrue(bs, from) <= k
    decreases k - from
  {
    if from < k && !bs[from] {
      FirstTrueStops(bs, from + 1, k);
    }
  }

  /** Every verdict between `from` and the index found is false. */
  lemma {:induction false} NoTrueBefore(bs: seq<bool>, from: nat)
    requires from <= |bs|
    ensures forall j :: from <= j < FirstTrue(bs, from) ==> !bs[j]
  {
    forall j | from <= j < FirstTrue(bs, from) ensures !bs[j] {
      if bs[j] {
        FirstTrueStops(bs, from, j);
      }
    }
  }

  /** A true verdict after only false ones is the one found. */
  lemma {:induction false} FirstTrueAt(bs: seq<bool>, from: nat, k: nat)
    requires from <= k < |bs| && bs[k]
    requires forall j :: from <= j < k ==> !bs[j]
    ensures FirstTrue(bs, from) == k
  {
    FirstTrueStops(bs, from, k);
  }
}
