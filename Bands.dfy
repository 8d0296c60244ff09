/** Score bands: an `if (score >= t_k) return ...` chain over ascending
    thresholds picks band k + 1 for the highest threshold reached, and band
    0 below all of them. The band is the number of thresholds reached. */
module Bands {

  predicate Ascending(ts: seq<int>)
  {
    forall j, k :: 0 <= j < k < |ts| ==> ts[j] < ts[k]
  }

  /** How many of the thresholds from index `i` on the value reaches. */
  function ReachedFrom(v: int, ts: seq<int>, i: nat): (n: nat)
    requires i <= |ts|
    ensures n <= |ts| - i
    decreases |ts| - i
  {
    if i == |ts| then 0
    else (if v >= ts[i] then 1 else 0) + ReachedFrom(v, ts, i + 1)
  }

  function Band(v: int, ts: seq<int>): (b: nat)
    ensures b <= |ts|
  {
    ReachedFrom(v, ts, 0)
  }

  lemma {:induction false} ReachedFromMonotone(v: int, w: int, ts: seq<int>, i: nat)
    requires v <= w && i <= |ts|
    ensures ReachedFrom(v, ts, i) <= ReachedFrom(w, ts, i)
    decreases |ts| - i
  {
    if i < |ts| {
      ReachedFromMonotone(v, w, ts, i + 1);
    }
  }

  /** A higher value never gets a lower band. */
  lemma BandMonotone(v: int, w: int, ts: seq<int>)
    requires v <= w
    ensures Band(v, ts) <= Band(w, ts)
  {
    ReachedFromMonotone(v, w, ts, 0);
  }

  /** Below an ascending threshold, none of the later ones is reached. */
  lemma {:induction false} NoneReachedFrom(v: int, ts: seq<int>, i: nat)
    requires Ascending(ts) && i < |ts| && v < ts[i]
    ensures ReachedFrom(v, ts, i) == 0
    decreases |ts| - i
  {
    if i + 1 < |ts| {
      NoneReachedFrom(v, ts, i + 1);
    }
  }

  lemma {:induction false} ReachedFromIff(v: int, ts: seq<int>, i: nat, k: nat)
    requires Ascending(ts) && i <= k < |ts|
    ensures ReachedFrom(v, ts, i) > k - i <==> v >= ts[k]
    decreases k - i
  {
    if i == k {
      if v < ts[k] {
        NoneReachedFrom(v, ts, k);
      }
    } else {
      ReachedFromIff(v, ts, i + 1, k);
    }
  }

  /** With ascending thresholds, the band is above k exactly when the value
      reaches threshold k: so the band is the index of the highest
      threshold reached, plus one. */
  lemma BandIff(v: int, ts: seq<int>, k: nat)
    requires Ascending(ts) && k < |ts|
    ensures Band(v, ts) > k <==> v >= ts[k]
  {
    ReachedFromIff(v, ts, 0, k);
  }
}
