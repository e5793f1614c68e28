/**
 * Progressive bands shared by income tax and National Insurance.
 *
 * A band's `threshold` is its UPPER bound: the band covers the income between
 * the previous band's threshold and its own.  The top band of a table is
 * unbounded (the string "inf" in the data files, `float("inf")` once loaded).
 */
module Bands {

  datatype Threshold = Finite(value: real) | Unbounded

  datatype Band = Band(threshold: Threshold, rate: real)

  function Min(a: real, b: real): (r: real)
    ensures r <= a && r <= b
    ensures r == a || r == b
  {
    if a <= b then a else b
  }

  function Max(a: real, b: real): (r: real)
    ensures r >= a && r >= b
    ensures r == a || r == b
  {
    if a >= b then a else b
  }

  /** Income `x` lies at or below threshold `t` (always true of an unbounded one). */
  predicate Covers(t: Threshold, x: real)
  {
    match t
    case Unbounded => true
    case Finite(v) => x <= v
  }

  /**
   * The finite thresholds never go down, starting from `floor`.  Bands after an
   * unbounded one are never reached, so nothing is asked of them.
   */
  ghost predicate Ascending(bands: seq<Band>, floor: real)
    decreases |bands|
  {
    |bands| == 0 ||
    match bands[0].threshold
    case Unbounded => true
    case Finite(t) => floor <= t && Ascending(bands[1..], t)
  }

  ghost predicate NonNegativeRates(bands: seq<Band>)
  {
    forall i :: 0 <= i < |bands| ==> bands[i].rate >= 0.0
  }

  /** The first `k` bands all have a finite threshold. */
  ghost predicate FiniteBelow(bands: seq<Band>, k: nat)
  {
    k <= |bands| && forall i :: 0 <= i < k ==> bands[i].threshold.Finite?
  }

  /** Where band `k` starts: the threshold of band `k - 1`, or `floor` for band 0. */
  function LowerEdge(bands: seq<Band>, floor: real, k: nat): real
    requires k <= |bands|
    requires forall i :: 0 <= i < k ==> bands[i].threshold.Finite?
  {
    if k == 0 then floor else bands[k - 1].threshold.value
  }

  /** Charge on the first `k` bands taken in full, starting from `floor`. */
  function FullBands(bands: seq<Band>, floor: real, k: nat): real
    requires k <= |bands|
    requires forall i :: 0 <= i < k ==> bands[i].threshold.Finite?
    decreases k
  {
    if k == 0 then 0.0
    else (bands[0].threshold.value - floor) * bands[0].rate
         + FullBands(bands[1..], bands[0].threshold.value, k - 1)
  }

  /** The first full band, then the rest from its threshold. */
  lemma FullBandsUnfold(bands: seq<Band>, floor: real, k: nat)
    requires 0 < k <= |bands|
    requires forall i :: 0 <= i < k ==> bands[i].threshold.Finite?
    ensures FullBands(bands, floor, k)
         == (bands[0].threshold.value - floor) * bands[0].rate
            + FullBands(bands[1..], bands[0].threshold.value, k - 1)
  {
  }

  /** Taking one more full band adds that band's width times its rate. */
  lemma {:induction false} FullBandsExtend(bands: seq<Band>, floor: real, k: nat)
    requires k < |bands|
    requires forall i :: 0 <= i <= k ==> bands[i].threshold.Finite?
    ensures FullBands(bands, floor, k + 1)
         == FullBands(bands, floor, k)
            + (bands[k].threshold.value - LowerEdge(bands, floor, k)) * bands[k].rate
  {
    if k > 0 {
      FullBandsExtend(bands[1..], bands[0].threshold.value, k - 1);
    }
  }

  /** When every one of the first `k` thresholds equals `floor`, those bands are empty. */
  lemma {:induction false} FlatBandsAreEmpty(bands: seq<Band>, floor: real, k: nat)
    requires FiniteBelow(bands, k)
    requires forall i :: 0 <= i < k ==> bands[i].threshold.value == floor
    ensures FullBands(bands, floor, k) == 0.0
  {
    if k > 0 {
      assert bands[0].threshold.value == floor;
      assert forall i :: 0 <= i < k - 1 ==> bands[1..][i] == bands[i + 1];
      FlatBandsAreEmpty(bands[1..], floor, k - 1);
      assert (bands[0].threshold.value - floor) * bands[0].rate == 0.0;
    }
  }

  /**
   * The charge on the part of `income` inside band `k`, with the band's lower
   * edge and rate named.  Kept apart so that the product is matched in a small
   * proof context rather than next to unfolded walks.
   */
  lemma PartialCharge(bands: seq<Band>, floor: real, income: real, k: nat, edge: real, rate: real)
    requires FiniteBelow(bands, k) && k < |bands|
    requires edge == LowerEdge(bands, floor, k) && rate == bands[k].rate
    ensures (income - edge) * rate == (income - LowerEdge(bands, floor, k)) * bands[k].rate
  {
  }

  /** What ordered bands with non-negative rates say about their first band and the rest. */
  lemma Tail(bands: seq<Band>, floor: real)
    requires |bands| > 0 && bands[0].threshold.Finite?
    requires Ascending(bands, floor) && NonNegativeRates(bands)
    ensures floor <= bands[0].threshold.value && bands[0].rate >= 0.0
    ensures Ascending(bands[1..], bands[0].threshold.value) && NonNegativeRates(bands[1..])
  {
  }

  /** With ascending thresholds no band starts below `floor`. */
  lemma EdgeAboveFloor(bands: seq<Band>, floor: real, k: nat)
    requires Ascending(bands, floor) && FiniteBelow(bands, k)
    ensures floor <= LowerEdge(bands, floor, k)
  {
    if k > 0 {
      AscendingBetween(bands, floor, k, k - 1);
    }
  }

  /** Ascending thresholds lie between `floor` and the lower edge of any later band. */
  lemma {:induction false} AscendingBetween(bands: seq<Band>, floor: real, k: nat, i: nat)
    requires Ascending(bands, floor) && FiniteBelow(bands, k) && i < k
    ensures floor <= bands[i].threshold.value <= LowerEdge(bands, floor, k)
  {
    if i > 0 {
      AscendingBetween(bands[1..], bands[0].threshold.value, k - 1, i - 1);
    } else if k > 1 {
      AscendingBetween(bands[1..], bands[0].threshold.value, k - 1, k - 2);
    }
  }
}
