/**
 * Employee National Insurance: the two-level band lookup and the band walk,
 * which starts from zero and stops at the first band whose threshold covers
 * the income.
 */
module NationalInsurance {
  import opened Wrappers
  import opened Bands

  /** Tax year to NI category (such as "category_a") to that category's bands. */
  type NiTable = map<int, map<string, seq<Band>>>

  datatype NiError =
    | NoNiYear(year: int)                           // "No NI band data for year ..."
    | NoCategory(category: string, year: int)       // "No NI band data for category ... in year ..."

  /** `get_ni_bands`: the bands of a category in a year, or which of the two lookups failed. */
  function GetNiBands(db: NiTable, year: int, category: string): (r: Result<seq<Band>, NiError>)
    ensures r.Success? <==> year in db && category in db[year]
    ensures r.Success? ==> r.value == db[year][category]
    ensures year !in db ==> r == Failure(NoNiYear(year))
    ensures year in db && category !in db[year] ==> r == Failure(NoCategory(category, year))
  {
    if year !in db then Failure(NoNiYear(year))
    else if category !in db[year] then Failure(NoCategory(category, year))
    else Success(db[year][category])
  }

  /**
   * The walk of `calculate_ni` from the current band on: a band whose threshold
   * covers the income charges the part of the income above `previous` (never a
   * negative part) and ends the walk; any other band is charged in full and the
   * lower edge moves up to its threshold.  Running out of bands ends the walk too.
   */
  function NiWalk(bands: seq<Band>, income: real, previous: real): real
    decreases |bands|
  {
    if |bands| == 0 then 0.0
    else if Covers(bands[0].threshold, income) then Max(0.0, income - previous) * bands[0].rate
    else (bands[0].threshold.value - previous) * bands[0].rate + NiWalk(bands[1..], income, bands[0].threshold.value)
  }

  /** The NI due on `income`: nothing on a non-positive income, otherwise the walk from zero. */
  function NiDue(bands: seq<Band>, income: real): real
  {
    if income <= 0.0 then 0.0 else NiWalk(bands, income, 0.0)
  }

  /** The band loop of `calculate_ni`, with its early `break`. */
  method NiBandLoop(bands: seq<Band>, income: real) returns (ni: real)
    ensures ni == NiWalk(bands, income, 0.0)
  {
    ni := 0.0;
    var previous := 0.0;
    var i := 0;
    while i < |bands|
      invariant 0 <= i <= |bands|
      invariant ni + NiWalk(bands[i..], income, previous) == NiWalk(bands, income, 0.0)
    {
      var band := bands[i];
      if Covers(band.threshold, income) {
        ni := ni + Max(0.0, income - previous) * band.rate;
        break;
      }
      ni := ni + (band.threshold.value - previous) * band.rate;
      previous := band.threshold.value;
      i := i + 1;
    }
  }

  /**
   * `calculate_ni`: a non-positive income owes nothing, and this is decided
   * before the bands are looked up, so it holds even for an unknown year or
   * category; otherwise a failed lookup is the error, and a successful one is walked.
   */
  method CalculateNi(db: NiTable, income: real, year: int, category: string)
    returns (r: Result<real, NiError>)
    ensures income <= 0.0 ==> r == Success(0.0)
    ensures income > 0.0 && GetNiBands(db, year, category).Failure? ==>
              r == Failure(GetNiBands(db, year, category).error)
    ensures income > 0.0 && GetNiBands(db, year, category).Success? ==>
              r == Success(NiDue(GetNiBands(db, year, category).value, income))
  {
    if income <= 0.0 {
      return Success(0.0);
    }
    var lookup := GetNiBands(db, year, category);
    if lookup.Failure? {
      return Failure(lookup.error);
    }
    var ni := NiBandLoop(lookup.value, income);
    r := Success(ni);
  }

  // ---------------------------------------------------------------------------
  // Properties of the walk

  /** No NI on a zero or negative income. */
  lemma NoNiWithoutIncome(bands: seq<Band>, income: real)
    requires income <= 0.0
    ensures NiDue(bands, income) == 0.0
  {
  }

  /** At or below the first threshold the NI is the income times the first rate. */
  lemma FirstBandNi(bands: seq<Band>, income: real)
    requires |bands| > 0 && Covers(bands[0].threshold, income) && income > 0.0
    ensures NiDue(bands, income) == income * bands[0].rate
  {
    assert Max(0.0, income - 0.0) == income;
  }

  /** The income lies above the first `k` thresholds (so the walk charges those bands in full). */
  ghost predicate AboveBelow(bands: seq<Band>, income: real, k: nat)
    requires FiniteBelow(bands, k)
  {
    forall i :: 0 <= i < k ==> bands[i].threshold.value < income
  }

  lemma NiStep(bands: seq<Band>, income: real, previous: real, k: nat, above: real, rate: real)
    requires 0 < k <= |bands| && FiniteBelow(bands, k) && !Covers(bands[0].threshold, income)
    requires k < |bands| ==>
               NiWalk(bands[1..], income, bands[0].threshold.value)
               == FullBands(bands[1..], bands[0].threshold.value, k - 1) + above * rate
    requires k == |bands| ==>
               NiWalk(bands[1..], income, bands[0].threshold.value)
               == FullBands(bands[1..], bands[0].threshold.value, k - 1)
    ensures k < |bands| ==> NiWalk(bands, income, previous) == FullBands(bands, previous, k) + above * rate
    ensures k == |bands| ==> NiWalk(bands, income, previous) == FullBands(bands, previous, k)
  {
    FullBandsUnfold(bands, previous, k);
  }

  /**
   * Closed form of the walk from `previous`: when the income lies above the
   * first `k` thresholds and band `k` covers it, the NI is every band below `k`
   * in full plus the (non-negative) part of the income inside band `k`, here
   * passed as `above` together with band `k`'s rate.  No ordering of the
   * thresholds is needed.
   */
  lemma {:induction false} NiWalkClosedForm(bands: seq<Band>, income: real, previous: real, k: nat,
                                            above: real, rate: real)
    requires FiniteBelow(bands, k) && k < |bands| && AboveBelow(bands, income, k)
    requires Covers(bands[k].threshold, income)
    requires above == Max(0.0, income - LowerEdge(bands, previous, k)) && rate == bands[k].rate
    ensures NiWalk(bands, income, previous) == FullBands(bands, previous, k) + above * rate
    decreases k
  {
    if k > 0 {
      var rest := bands[1..];
      assert rest[k - 1] == bands[k];
      assert FiniteBelow(rest, k - 1) && AboveBelow(rest, income, k - 1);
      NiWalkClosedForm(rest, income, bands[0].threshold.value, k - 1, above, rate);
      NiStep(bands, income, previous, k, above, rate);
    }
  }

  /** Without an unbounded band, an income above every threshold pays every band in full. */
  lemma {:induction false} NiWalkAboveAll(bands: seq<Band>, income: real, previous: real)
    requires FiniteBelow(bands, |bands|) && AboveBelow(bands, income, |bands|)
    ensures NiWalk(bands, income, previous) == FullBands(bands, previous, |bands|)
    decreases |bands|
  {
    if |bands| > 0 {
      var rest := bands[1..];
      assert FiniteBelow(rest, |rest|) && AboveBelow(rest, income, |rest|);
      NiWalkAboveAll(rest, income, bands[0].threshold.value);
      NiStep(bands, income, previous, |bands|, 0.0, 0.0);
    }
  }

  /**
   * For a positive income inside band `k`: every band below `k` in full at its rate,
   * plus the part of the income above band `k - 1`'s threshold at band `k`'s rate.
   */
  lemma NiClosedForm(bands: seq<Band>, income: real, k: nat)
    requires FiniteBelow(bands, k) && k < |bands| && AboveBelow(bands, income, k)
    requires Covers(bands[k].threshold, income) && income > 0.0
    ensures NiDue(bands, income) == FullBands(bands, 0.0, k) + (income - LowerEdge(bands, 0.0, k)) * bands[k].rate
  {
    var above := income - LowerEdge(bands, 0.0, k);
    var rate := bands[k].rate;
    ChargeFromZero(bands, income, k, above, rate);
    NiDueClosedForm(bands, income, k, above, rate);
  }

  /** The charge inside band `k`, with the part of the income above its lower edge named. */
  lemma ChargeFromZero(bands: seq<Band>, income: real, k: nat, above: real, rate: real)
    requires FiniteBelow(bands, k) && k < |bands|
    requires above == income - LowerEdge(bands, 0.0, k) && rate == bands[k].rate
    ensures above * rate == (income - LowerEdge(bands, 0.0, k)) * bands[k].rate
  {
  }

  /** `NiClosedForm` with the part of the income inside band `k` and its rate named. */
  lemma NiDueClosedForm(bands: seq<Band>, income: real, k: nat, above: real, rate: real)
    requires FiniteBelow(bands, k) && k < |bands| && AboveBelow(bands, income, k)
    requires Covers(bands[k].threshold, income) && income > 0.0
    requires above == income - LowerEdge(bands, 0.0, k) && rate == bands[k].rate
    ensures NiDue(bands, income) == FullBands(bands, 0.0, k) + above * rate
  {
    if k > 0 {
      assert bands[k - 1].threshold.value < income;
    }
    assert Max(0.0, above) == above;
    NiWalkClosedForm(bands, income, 0.0, k, above, rate);
  }

  /**
   * An income exactly at band `k`'s threshold is charged bands `0..k` in full and
   * nothing of band `k + 1`.
   */
  lemma NiAtThreshold(bands: seq<Band>, income: real, k: nat)
    requires FiniteBelow(bands, k + 1) && k + 1 < |bands| && AboveBelow(bands, income, k)
    requires bands[k].threshold == Finite(income) && income > 0.0
    ensures NiDue(bands, income) == FullBands(bands, 0.0, k + 1)
  {
    var edge := LowerEdge(bands, 0.0, k);
    var rate := bands[k].rate;
    var above := income - edge;
    NiDueClosedForm(bands, income, k, above, rate);
    FullBandsUpTo(bands, k, income, edge, rate, above);
  }

  /** Band `k` taken in full when its threshold is `t`, with its edge, rate and width named. */
  lemma FullBandsUpTo(bands: seq<Band>, k: nat, t: real, edge: real, rate: real, width: real)
    requires FiniteBelow(bands, k + 1) && k < |bands| && bands[k].threshold == Finite(t)
    requires edge == LowerEdge(bands, 0.0, k) && rate == bands[k].rate && width == t - edge
    ensures FullBands(bands, 0.0, k + 1) == FullBands(bands, 0.0, k) + width * rate
  {
    FullBandsExtend(bands, 0.0, k);
  }

  lemma {:induction false} NiWalkNonNegative(bands: seq<Band>, income: real, previous: real)
    requires Ascending(bands, previous) && NonNegativeRates(bands)
    ensures NiWalk(bands, income, previous) >= 0.0
    decreases |bands|
  {
    if |bands| > 0 {
      var rate := bands[0].rate;
      assert rate >= 0.0;
      if Covers(bands[0].threshold, income) {
        assert Max(0.0, income - previous) * rate >= 0.0;
      } else {
        var t := bands[0].threshold.value;
        assert (t - previous) * rate >= 0.0;
        NiWalkNonNegative(bands[1..], income, t);
      }
    }
  }

  /** With thresholds rising from zero and non-negative rates no income pays negative NI. */
  lemma NiNonNegative(bands: seq<Band>, income: real)
    requires Ascending(bands, 0.0) && NonNegativeRates(bands)
    ensures NiDue(bands, income) >= 0.0
  {
    if income > 0.0 {
      NiWalkNonNegative(bands, income, 0.0);
    }
  }

  lemma {:induction false} NiWalkMonotone(bands: seq<Band>, a: real, b: real, previous: real)
    requires Ascending(bands, previous) && NonNegativeRates(bands) && a <= b
    ensures NiWalk(bands, a, previous) <= NiWalk(bands, b, previous)
    decreases |bands|
  {
    if |bands| > 0 {
      if Covers(bands[0].threshold, b) {
        CoveredMonotone(bands, a, b, previous);
      } else {
        Tail(bands, previous);
        var t := bands[0].threshold.value;
        if Covers(bands[0].threshold, a) {
          NiWalkNonNegative(bands[1..], b, t);
          CoveredBelowFull(bands, a, b, previous);
        } else {
          NiWalkMonotone(bands[1..], a, b, t);
          PastBandMonotone(bands, a, b, previous);
        }
      }
    }
  }

  /** Within one band, more income is charged at least as much. */
  lemma CoveredMonotone(bands: seq<Band>, a: real, b: real, previous: real)
    requires |bands| > 0 && Covers(bands[0].threshold, b) && NonNegativeRates(bands) && a <= b
    ensures NiWalk(bands, a, previous) <= NiWalk(bands, b, previous)
  {
    assert bands[0].rate >= 0.0;
    assert Max(0.0, a - previous) <= Max(0.0, b - previous);
  }

  /** An income inside the first band is charged at most what one beyond it is. */
  lemma CoveredBelowFull(bands: seq<Band>, a: real, b: real, previous: real)
    requires |bands| > 0 && Covers(bands[0].threshold, a) && !Covers(bands[0].threshold, b)
    requires previous <= bands[0].threshold.value && bands[0].rate >= 0.0
    requires NiWalk(bands[1..], b, bands[0].threshold.value) >= 0.0
    ensures NiWalk(bands, a, previous) <= NiWalk(bands, b, previous)
  {
    assert Max(0.0, a - previous) <= bands[0].threshold.value - previous;
  }

  /** Past the first band, the order of the rest of the walk carries over. */
  lemma PastBandMonotone(bands: seq<Band>, a: real, b: real, previous: real)
    requires |bands| > 0 && !Covers(bands[0].threshold, a) && !Covers(bands[0].threshold, b)
    requires NiWalk(bands[1..], a, bands[0].threshold.value) <= NiWalk(bands[1..], b, bands[0].threshold.value)
    ensures NiWalk(bands, a, previous) <= NiWalk(bands, b, previous)
  {
  }

  /** More income never means less NI (thresholds rising from zero, non-negative rates). */
  lemma NiMonotone(bands: seq<Band>, a: real, b: real)
    requires Ascending(bands, 0.0) && NonNegativeRates(bands) && a <= b
    ensures NiDue(bands, a) <= NiDue(bands, b)
  {
    NiNonNegative(bands, b);
    if a > 0.0 {
      NiWalkMonotone(bands, a, b, 0.0);
    }
  }

  // ---------------------------------------------------------------------------
  // Worked examples.  Two bands: 10% to 10,000, 20% above.  Three bands: 10% to
  // 10,000, 20% to 20,000, 30% above.

  function TwoBands(): seq<Band>
  {
    [Band(Finite(10000.0), 0.1), Band(Unbounded, 0.2)]
  }

  function ThreeBands(): seq<Band>
  {
    [Band(Finite(10000.0), 0.1), Band(Finite(20000.0), 0.2), Band(Unbounded, 0.3)]
  }

  lemma BelowFirstThresholdExample()
    ensures NiDue(TwoBands(), 5000.0) == 5000.0 * 0.1
    ensures NiDue(TwoBands(), 10000.0) == 10000.0 * 0.1
  {
    FirstBandNi(TwoBands(), 5000.0);
    FirstBandNi(TwoBands(), 10000.0);
  }

  lemma SecondBandExample()
    ensures NiDue(ThreeBands(), 15000.0) == 10000.0 * 0.1 + 5000.0 * 0.2
  {
    NiClosedForm(ThreeBands(), 15000.0, 1);
  }

  lemma ThirdBandExample()
    ensures NiDue(ThreeBands(), 25000.0) == 10000.0 * 0.1 + 10000.0 * 0.2 + 5000.0 * 0.3
  {
    var b := ThreeBands();
    assert b[1..][1..] == [b[2]];
    NiClosedForm(b, 25000.0, 2);
  }

  lemma SecondThresholdExample()
    ensures NiDue(ThreeBands(), 20000.0) == 10000.0 * 0.1 + 10000.0 * 0.2
  {
    var b := ThreeBands();
    assert b[1..][1..] == [b[2]];
    NiAtThreshold(b, 20000.0, 1);
  }
}
