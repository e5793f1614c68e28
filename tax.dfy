/**
 * UK income tax: the band lookup, the progressive band walk and the bisection
 * that finds the gross income giving a wanted take-home amount.
 */
module Tax {
  import opened Wrappers
  import opened Bands

  datatype Region = Scotland | RestOfUk

  function RegionOf(scotland: bool): Region
  {
    if scotland then Scotland else RestOfUk
  }

  /** One region's bands, in order, and its personal allowance for one tax year. */
  datatype RegionData = RegionData(bands: seq<Band>, personalAllowance: real)

  /** Tax year to region to band data: the loaded tax-band table. */
  type TaxTable = map<int, map<Region, RegionData>>

  datatype TaxError =
    | NoTaxYear(year: int)                      // "No tax band data for year ..."
    | NoRegionData(year: int, region: Region)   // the year has no entry for the region

  /** `_get_tax_bands`: the bands and allowance of a region in a year, or why there are none. */
  function GetTaxBands(db: TaxTable, scotland: bool, year: int): (r: Result<RegionData, TaxError>)
    ensures r.Success? <==> year in db && RegionOf(scotland) in db[year]
    ensures r.Success? ==> r.value == db[year][RegionOf(scotland)]
    ensures year !in db ==> r == Failure(NoTaxYear(year))
    ensures year in db && RegionOf(scotland) !in db[year] ==>
              r == Failure(NoRegionData(year, RegionOf(scotland)))
  {
    if year !in db then Failure(NoTaxYear(year))
    else if RegionOf(scotland) !in db[year] then Failure(NoRegionData(year, RegionOf(scotland)))
    else Success(db[year][RegionOf(scotland)])
  }

  // ---------------------------------------------------------------------------
  // The band walk

  /** What a walk over the bands produced: the tax, the income it taxed and the income left over. */
  datatype Walked = Walked(tax: real, charged: real, left: real)

  /**
   * The walk of `calculate_income_tax` from the current band on: stop once nothing
   * is left to tax; otherwise tax the smaller of what is left and the band's width,
   * and move the lower edge up to the band's threshold.  An unbounded band takes
   * everything that is left, after which the next step stops.
   */
  function TaxWalk(bands: seq<Band>, taxable: real, previous: real): Walked
    decreases |bands|
  {
    if |bands| == 0 || taxable <= 0.0 then Walked(0.0, 0.0, taxable)
    else
      match bands[0].threshold
      case Unbounded => Walked(taxable * bands[0].rate, taxable, 0.0)
      case Finite(t) =>
        var slice := Min(taxable, t - previous);
        var rest := TaxWalk(bands[1..], taxable - slice, t);
        Walked(slice * bands[0].rate + rest.tax, slice + rest.charged, rest.left)
  }

  /** The tax on `income` under `bands` with the given personal allowance. */
  function IncomeTax(bands: seq<Band>, personalAllowance: real, income: real): real
  {
    TaxWalk(bands, Max(income - personalAllowance, 0.0), personalAllowance).tax
  }

  /** The band loop of `calculate_income_tax` (and of the state-pension branch of the bisection). */
  method TaxDue(bands: seq<Band>, personalAllowance: real, income: real) returns (tax: real)
    ensures tax == IncomeTax(bands, personalAllowance, income)
    ensures income <= personalAllowance ==> tax == 0.0
  {
    var taxable := Max(income - personalAllowance, 0.0);
    ghost var taxable0 := taxable;
    ghost var charged := 0.0;
    tax := 0.0;
    var previous := personalAllowance;
    var i := 0;
    while i < |bands|
      invariant 0 <= i <= |bands|
      invariant taxable >= 0.0
      invariant charged + taxable == taxable0
      invariant tax + TaxWalk(bands[i..], taxable, previous).tax
                == TaxWalk(bands, taxable0, personalAllowance).tax
    {
      if taxable <= 0.0 {
        break;
      }
      var band := bands[i];
      var bandIncome := match band.threshold
        case Unbounded => taxable
        case Finite(t) => Min(taxable, t - previous);
      tax := tax + bandIncome * band.rate;
      taxable := taxable - bandIncome;
      charged := charged + bandIncome;
      if band.threshold.Finite? {
        previous := band.threshold.value;
      }
      i := i + 1;
    }
  }

  /** `calculate_income_tax`: look the bands up, then walk them. */
  method CalculateIncomeTax(db: TaxTable, income: real, scotland: bool, year: int)
    returns (r: Result<real, TaxError>)
    ensures r.Failure? <==> GetTaxBands(db, scotland, year).Failure?
    ensures r.Failure? ==> r.error == GetTaxBands(db, scotland, year).error
    ensures r.Success? ==>
              var d := GetTaxBands(db, scotland, year).value;
              r.value == IncomeTax(d.bands, d.personalAllowance, income)
  {
    var lookup := GetTaxBands(db, scotland, year);
    if lookup.Failure? {
      return Failure(lookup.error);
    }
    var tax := TaxDue(lookup.value.bands, lookup.value.personalAllowance, income);
    r := Success(tax);
  }

  // ---------------------------------------------------------------------------
  // Properties of the band walk

  ghost predicate HasUnboundedBand(bands: seq<Band>)
  {
    exists i :: 0 <= i < |bands| && bands[i].threshold.Unbounded?
  }

  /**
   * Conservation: the income taxed band by band plus what is left equals the
   * taxable income, nothing left is negative, and with an unbounded band
   * everything gets taxed.
   */
  lemma {:induction false} TaxWalkConserves(bands: seq<Band>, taxable: real, previous: real)
    requires taxable >= 0.0
    ensures TaxWalk(bands, taxable, previous).charged + TaxWalk(bands, taxable, previous).left == taxable
    ensures TaxWalk(bands, taxable, previous).left >= 0.0
    ensures HasUnboundedBand(bands) ==> TaxWalk(bands, taxable, previous).left == 0.0
    decreases |bands|
  {
    if |bands| == 0 || taxable <= 0.0 {
    } else {
      match bands[0].threshold
      case Unbounded =>
      case Finite(t) =>
        var slice := Min(taxable, t - previous);
        TaxWalkConserves(bands[1..], taxable - slice, t);
        if HasUnboundedBand(bands) {
          var i :| 0 <= i < |bands| && bands[i].threshold.Unbounded?;
          assert bands[1..][i - 1] == bands[i];
        }
    }
  }

  /** Income at or below the personal allowance pays no tax. */
  lemma NoTaxWithinAllowance(bands: seq<Band>, personalAllowance: real, income: real)
    requires income <= personalAllowance
    ensures IncomeTax(bands, personalAllowance, income) == 0.0
  {
  }

  /** When the income sits exactly at `floor`, every band below `k` is empty and so is band `k`'s part. */
  lemma FlatClosedForm(bands: seq<Band>, floor: real, k: nat)
    requires Ascending(bands, floor) && FiniteBelow(bands, k) && k < |bands|
    requires LowerEdge(bands, floor, k) <= floor
    ensures FullBands(bands, floor, k) == 0.0 && LowerEdge(bands, floor, k) == floor
  {
    if k > 0 {
      forall i | 0 <= i < k ensures bands[i].threshold.value == floor {
        AscendingBetween(bands, floor, k, i);
      }
      FlatBandsAreEmpty(bands, floor, k);
      AscendingBetween(bands, floor, k, k - 1);
    }
  }

  /** The closed form inside the first band. */
  lemma FirstBandClosedForm(bands: seq<Band>, floor: real, income: real)
    requires |bands| > 0 && floor <= income && Covers(bands[0].threshold, income)
    ensures TaxWalk(bands, income - floor, floor).tax == (income - floor) * bands[0].rate
  {
    if income - floor > 0.0 && bands[0].threshold.Finite? {
      var t := bands[0].threshold.value;
      assert Min(income - floor, t - floor) == income - floor;
      assert TaxWalk(bands[1..], 0.0, t).tax == 0.0;
    }
  }

  /** Unfolding one full band of the walk. */
  lemma FullBandStep(bands: seq<Band>, floor: real, income: real)
    requires |bands| > 0 && bands[0].threshold.Finite?
    requires floor < income && floor <= bands[0].threshold.value <= income
    ensures TaxWalk(bands, income - floor, floor).tax
         == (bands[0].threshold.value - floor) * bands[0].rate
            + TaxWalk(bands[1..], income - bands[0].threshold.value, bands[0].threshold.value).tax
  {
    var t := bands[0].threshold.value;
    assert Min(income - floor, t - floor) == t - floor;
    assert (income - floor) - (t - floor) == income - t;
  }

  /** The inductive step of the closed form: one full band, then the closed form of the rest. */
  lemma ClosedFormStep(bands: seq<Band>, floor: real, income: real, k: nat, edge: real, rate: real)
    requires 0 < k < |bands| && FiniteBelow(bands, k)
    requires floor < income && floor <= bands[0].threshold.value <= income
    requires TaxWalk(bands[1..], income - bands[0].threshold.value, bands[0].threshold.value).tax
          == FullBands(bands[1..], bands[0].threshold.value, k - 1) + (income - edge) * rate
    ensures TaxWalk(bands, income - floor, floor).tax == FullBands(bands, floor, k) + (income - edge) * rate
  {
    var t := bands[0].threshold.value;
    FullBandStep(bands, floor, income);
    FullBandsUnfold(bands, floor, k);
    SumSteps(TaxWalk(bands, income - floor, floor).tax, (t - floor) * bands[0].rate,
             TaxWalk(bands[1..], income - t, t).tax, FullBands(bands, floor, k),
             FullBands(bands[1..], t, k - 1), (income - edge) * rate);
  }

  /**
   * Closed form of the walk from `floor` for an income that ends inside band `k`
   * (whose lower edge is `edge` and rate `rate`).
   */
  lemma {:induction false} TaxWalkClosedForm(bands: seq<Band>, floor: real, income: real, k: nat,
                                             edge: real, rate: real)
    requires Ascending(bands, floor) && FiniteBelow(bands, k) && k < |bands|
    requires edge == LowerEdge(bands, floor, k) && rate == bands[k].rate
    requires edge <= income && Covers(bands[k].threshold, income)
    ensures TaxWalk(bands, income - floor, floor).tax == FullBands(bands, floor, k) + (income - edge) * rate
    decreases k
  {
    if k == 0 {
      FirstBandClosedForm(bands, floor, income);
    } else {
      var t := bands[0].threshold.value;
      AscendingBetween(bands, floor, k, 0);
      if income <= floor {
        FlatClosedForm(bands, floor, k);
        assert income - edge == 0.0;
        assert (income - edge) * rate == 0.0;
      } else {
        var rest := bands[1..];
        assert rest[k - 1] == bands[k];
        assert FiniteBelow(rest, k - 1);
        TaxWalkClosedForm(rest, t, income, k - 1, edge, rate);
        ClosedFormStep(bands, floor, income, k, edge, rate);
      }
    }
  }

  /** Linear bookkeeping for the inductive step of the closed forms. */
  lemma SumSteps(walk: real, first: real, walkRest: real, full: real, fullRest: real, top: real)
    requires walk == first + walkRest && walkRest == fullRest + top && full == first + fullRest
    ensures walk == full + top
  {
  }

  lemma AboveAllowance(bands: seq<Band>, personalAllowance: real, income: real)
    requires personalAllowance <= income
    ensures IncomeTax(bands, personalAllowance, income)
         == TaxWalk(bands, income - personalAllowance, personalAllowance).tax
  {
    assert Max(income - personalAllowance, 0.0) == income - personalAllowance;
  }

  /**
   * Closed form of the tax: every band below band `k` in full at its rate, plus
   * the part of the income inside band `k` at that band's rate.
   */
  lemma TaxClosedForm(bands: seq<Band>, personalAllowance: real, income: real, k: nat)
    requires Ascending(bands, personalAllowance) && FiniteBelow(bands, k) && k < |bands|
    requires LowerEdge(bands, personalAllowance, k) <= income && Covers(bands[k].threshold, income)
    ensures IncomeTax(bands, personalAllowance, income)
         == FullBands(bands, personalAllowance, k)
            + (income - LowerEdge(bands, personalAllowance, k)) * bands[k].rate
  {
    var edge := LowerEdge(bands, personalAllowance, k);
    var rate := bands[k].rate;
    EdgeAboveFloor(bands, personalAllowance, k);
    PartialCharge(bands, personalAllowance, income, k, edge, rate);
    AboveAllowance(bands, personalAllowance, income);
    TaxWalkClosedForm(bands, personalAllowance, income, k, edge, rate);
  }

  lemma {:induction false} TaxWalkNonNegative(bands: seq<Band>, taxable: real, previous: real)
    requires Ascending(bands, previous) && NonNegativeRates(bands)
    ensures TaxWalk(bands, taxable, previous).tax >= 0.0
    decreases |bands|
  {
    if |bands| == 0 || taxable <= 0.0 {
    } else {
      assert bands[0].rate >= 0.0;
      match bands[0].threshold
      case Unbounded =>
      case Finite(t) =>
        var slice := Min(taxable, t - previous);
        assert slice * bands[0].rate >= 0.0;
        TaxWalkNonNegative(bands[1..], taxable - slice, t);
    }
  }

  /** With ordered thresholds and non-negative rates no income is taxed negatively. */
  lemma TaxNonNegative(bands: seq<Band>, personalAllowance: real, income: real)
    requires Ascending(bands, personalAllowance) && NonNegativeRates(bands)
    ensures IncomeTax(bands, personalAllowance, income) >= 0.0
  {
    TaxWalkNonNegative(bands, Max(income - personalAllowance, 0.0), personalAllowance);
  }

  lemma {:induction false} TaxWalkMonotone(bands: seq<Band>, a: real, b: real, previous: real)
    requires Ascending(bands, previous) && NonNegativeRates(bands)
    requires a <= b
    ensures TaxWalk(bands, a, previous).tax <= TaxWalk(bands, b, previous).tax
    decreases |bands|
  {
    if |bands| == 0 {
    } else if a <= 0.0 {
      TaxWalkNonNegative(bands, b, previous);
    } else if bands[0].threshold.Unbounded? {
      UnboundedBandMonotone(bands, a, b, previous);
    } else {
      Tail(bands, previous);
      var t := bands[0].threshold.value;
      SliceMonotone(bands, a, b, previous);
      TaxWalkMonotone(bands[1..], a - Min(a, t - previous), b - Min(b, t - previous), t);
      FiniteBandMonotone(bands, a, b, previous);
    }
  }

  /** Through an unbounded band, more income is charged at least as much. */
  lemma UnboundedBandMonotone(bands: seq<Band>, a: real, b: real, previous: real)
    requires |bands| > 0 && bands[0].threshold.Unbounded? && NonNegativeRates(bands)
    requires 0.0 < a <= b
    ensures TaxWalk(bands, a, previous).tax <= TaxWalk(bands, b, previous).tax
  {
    assert bands[0].rate >= 0.0;
  }

  /**
   * A finite band charges more income at least as much, and leaves at least as
   * much for the bands above it.
   */
  lemma SliceMonotone(bands: seq<Band>, a: real, b: real, previous: real)
    requires |bands| > 0 && bands[0].threshold.Finite? && bands[0].rate >= 0.0 && a <= b
    ensures Min(a, bands[0].threshold.value - previous) * bands[0].rate
         <= Min(b, bands[0].threshold.value - previous) * bands[0].rate
    ensures a - Min(a, bands[0].threshold.value - previous) <= b - Min(b, bands[0].threshold.value - previous)
  {
  }

  /** The step through a finite band keeps the order the rest of the walk keeps. */
  lemma FiniteBandMonotone(bands: seq<Band>, a: real, b: real, previous: real)
    requires |bands| > 0 && bands[0].threshold.Finite? && 0.0 < a
    requires Min(a, bands[0].threshold.value - previous) * bands[0].rate
          <= Min(b, bands[0].threshold.value - previous) * bands[0].rate
    requires a <= b
    requires TaxWalk(bands[1..], a - Min(a, bands[0].threshold.value - previous), bands[0].threshold.value).tax
          <= TaxWalk(bands[1..], b - Min(b, bands[0].threshold.value - previous), bands[0].threshold.value).tax
    ensures TaxWalk(bands, a, previous).tax <= TaxWalk(bands, b, previous).tax
  {
    FiniteBandStep(bands, a, previous);
    FiniteBandStep(bands, b, previous);
  }

  /** The tax of a walk whose first band is finite: that band's slice, then the rest from its threshold. */
  lemma FiniteBandStep(bands: seq<Band>, x: real, previous: real)
    requires |bands| > 0 && bands[0].threshold.Finite? && 0.0 < x
    ensures TaxWalk(bands, x, previous).tax
         == Min(x, bands[0].threshold.value - previous) * bands[0].rate
            + TaxWalk(bands[1..], x - Min(x, bands[0].threshold.value - previous), bands[0].threshold.value).tax
  {
  }

  /** More income never means less tax (ordered thresholds, non-negative rates). */
  lemma TaxMonotone(bands: seq<Band>, personalAllowance: real, income1: real, income2: real)
    requires Ascending(bands, personalAllowance) && NonNegativeRates(bands)
    requires income1 <= income2
    ensures IncomeTax(bands, personalAllowance, income1) <= IncomeTax(bands, personalAllowance, income2)
  {
    TaxWalkMonotone(bands, Max(income1 - personalAllowance, 0.0),
                    Max(income2 - personalAllowance, 0.0), personalAllowance);
  }

  /**
   * When the first band is the allowance itself at 0%, as in the UK tables,
   * lowering the personal allowance (as the bisection does for a state pension)
   * changes no tax: the income freed from the allowance falls into that 0% band.
   */
  lemma ReducedAllowanceIsNeutral(bands: seq<Band>, personalAllowance: real, reduced: real, income: real)
    requires |bands| > 0 && bands[0] == Band(Finite(personalAllowance), 0.0)
    requires 0.0 <= reduced <= personalAllowance
    ensures IncomeTax(bands, reduced, income) == IncomeTax(bands, personalAllowance, income)
  {
    var taxable := Max(income - reduced, 0.0);
    if taxable > 0.0 {
      var slice := Min(taxable, personalAllowance - reduced);
      assert taxable - slice == Max(income - personalAllowance, 0.0);
      assert TaxWalk(bands, taxable, reduced).tax == TaxWalk(bands[1..], taxable - slice, personalAllowance).tax;
      var full := Max(income - personalAllowance, 0.0);
      if full > 0.0 {
        assert Min(full, personalAllowance - personalAllowance) == 0.0;
        assert TaxWalk(bands, full, personalAllowance).tax == TaxWalk(bands[1..], full, personalAllowance).tax;
      }
    }
  }

  // ---------------------------------------------------------------------------
  // Worked examples with the 2025/26 rest-of-UK table

  /** Rest-of-UK bands for 2025/26: 0% to 12,570, 20% to 50,270, 40% to 125,140, 45% above. */
  function UkBands2025(): seq<Band>
  {
    [Band(Finite(12570.0), 0.0), Band(Finite(50270.0), 0.20),
     Band(Finite(125140.0), 0.40), Band(Unbounded, 0.45)]
  }

  lemma UkBands2025Ascending()
    ensures Ascending(UkBands2025(), 12570.0) && NonNegativeRates(UkBands2025())
  {
    var b := UkBands2025();
    assert b[1..][1..][1..] == [b[3]];
    assert b[1..][1..] == [b[2], b[3]];
    assert b[1..] == [b[1], b[2], b[3]];
  }

  /** Basic rate: 20,000 pays (20,000 - 12,570) x 20% = 1,486. */
  lemma BasicRateExample()
    ensures IncomeTax(UkBands2025(), 12570.0, 20000.0) == (20000.0 - 12570.0) * 0.20
  {
    UkBands2025Ascending();
    TaxClosedForm(UkBands2025(), 12570.0, 20000.0, 1);
  }

  /** Higher rate: 60,000 pays the whole basic band plus 40% above 50,270. */
  lemma HigherRateExample()
    ensures IncomeTax(UkBands2025(), 12570.0, 60000.0)
         == (50270.0 - 12570.0) * 0.20 + (60000.0 - 50270.0) * 0.40
  {
    UkBands2025Ascending();
    TaxClosedForm(UkBands2025(), 12570.0, 60000.0, 2);
  }

  /** Additional rate: 150,000 pays all three charged bands. */
  lemma AdditionalRateExample()
    ensures IncomeTax(UkBands2025(), 12570.0, 150000.0)
         == (50270.0 - 12570.0) * 0.20 + (125140.0 - 50270.0) * 0.40 + (150000.0 - 125140.0) * 0.45
  {
    UkBands2025Ascending();
    TaxClosedForm(UkBands2025(), 12570.0, 150000.0, 3);
  }

  /**
   * Scottish bands for 2025/26: 0% to 12,570, starter 19% to 15,397, basic 20%
   * to 27,491, intermediate 21% to 43,662, higher 42% to 75,000, advanced 45%
   * to 125,140, top 48% above.
   */
  function ScottishBands2025(): seq<Band>
  {
    [Band(Finite(12570.0), 0.0), Band(Finite(15397.0), 0.19), Band(Finite(27491.0), 0.20),
     Band(Finite(43662.0), 0.21), Band(Finite(75000.0), 0.42), Band(Finite(125140.0), 0.45),
     Band(Unbounded, 0.48)]
  }

  lemma ScottishBands2025Ascending()
    ensures Ascending(ScottishBands2025(), 12570.0) && NonNegativeRates(ScottishBands2025())
  {
    var b := ScottishBands2025();
    assert b[1..][1..][1..][1..][1..][1..] == [b[6]];
    assert b[1..][1..][1..][1..][1..] == [b[5], b[6]];
    assert b[1..][1..][1..][1..] == [b[4], b[5], b[6]];
    assert b[1..][1..][1..] == [b[3], b[4], b[5], b[6]];
    assert b[1..][1..] == [b[2], b[3], b[4], b[5], b[6]];
    assert b[1..] == [b[1], b[2], b[3], b[4], b[5], b[6]];
  }

  /** Scotland: 30,000 pays the starter and basic bands in full and 21% above 27,491. */
  lemma ScottishExample()
    ensures IncomeTax(ScottishBands2025(), 12570.0, 30000.0)
         == (15397.0 - 12570.0) * 0.19 + (27491.0 - 15397.0) * 0.20 + (30000.0 - 27491.0) * 0.21
  {
    var b := ScottishBands2025();
    ScottishBands2025Ascending();
    TaxClosedForm(b, 12570.0, 30000.0, 3);
    assert b[1..][1..][1..] == [b[3], b[4], b[5], b[6]];
    assert FullBands(b[1..][1..][1..], 27491.0, 0) == 0.0;
  }

  // ---------------------------------------------------------------------------
  // Gross income from take-home pay

  const Tolerance: real := 0.001
  const MaxIterations: nat := 20

  /** The tax the bisection charges on a candidate gross income `x`. */
  function CandidateTax(bands: seq<Band>, personalAllowance: real, statePension: real, x: real): real
  {
    if statePension > 0.0 then IncomeTax(bands, Max(personalAllowance - statePension, 0.0), x)
    else IncomeTax(bands, personalAllowance, x)
  }

  /** The bisection of `calculate_gross_from_take_home` from bracket [low, high] at step `iteration`. */
  function Bisect(bands: seq<Band>, personalAllowance: real, statePension: real, takeHome: real,
                  low: real, high: real, iteration: nat): real
    requires iteration <= MaxIterations
    decreases MaxIterations - iteration
  {
    if high - low > Tolerance && iteration < MaxIterations then
      var mid := (low + high) / 2.0;
      if mid - CandidateTax(bands, personalAllowance, statePension, mid) < takeHome
      then Bisect(bands, personalAllowance, statePension, takeHome, mid, high, iteration + 1)
      else Bisect(bands, personalAllowance, statePension, takeHome, low, mid, iteration + 1)
    else (low + high) / 2.0
  }

  /**
   * One halving of the bracket: from [low, high] the bisection continues from
   * [low2, high2], the half the midpoint's net income selects, with the same
   * answer and one step fewer to go.
   */
  lemma BisectStep(bands: seq<Band>, personalAllowance: real, statePension: real, takeHome: real,
                   low: real, high: real, iteration: nat, mid: real, net: real, low2: real, high2: real)
    requires iteration < MaxIterations && high - low > Tolerance
    requires mid == (low + high) / 2.0 && net == mid - CandidateTax(bands, personalAllowance, statePension, mid)
    requires net < takeHome ==> low2 == mid && high2 == high
    requires net >= takeHome ==> low2 == low && high2 == mid
    ensures Bisect(bands, personalAllowance, statePension, takeHome, low2, high2, iteration + 1)
         == Bisect(bands, personalAllowance, statePension, takeHome, low, high, iteration)
    ensures iteration + 1 + BisectSteps(bands, personalAllowance, statePension, takeHome, low2, high2, iteration + 1)
         == iteration + BisectSteps(bands, personalAllowance, statePension, takeHome, low, high, iteration)
  {
  }

  /** Number of halvings the bisection performs from step `iteration`. */
  function BisectSteps(bands: seq<Band>, personalAllowance: real, statePension: real, takeHome: real,
                       low: real, high: real, iteration: nat): (n: nat)
    requires iteration <= MaxIterations
    ensures n <= MaxIterations - iteration
    decreases MaxIterations - iteration
  {
    if high - low > Tolerance && iteration < MaxIterations then
      var mid := (low + high) / 2.0;
      if mid - CandidateTax(bands, personalAllowance, statePension, mid) < takeHome
      then 1 + BisectSteps(bands, personalAllowance, statePension, takeHome, mid, high, iteration + 1)
      else 1 + BisectSteps(bands, personalAllowance, statePension, takeHome, low, mid, iteration + 1)
    else 0
  }

  /** `calculate_gross_from_take_home` as a value. */
  function GrossFromTakeHome(db: TaxTable, takeHome: real, scotland: bool, year: int, statePension: real)
    : Result<real, TaxError>
  {
    match GetTaxBands(db, scotland, year)
    case Failure(e) => Failure(e)
    case Success(d) =>
      Success(Bisect(d.bands, d.personalAllowance, statePension, takeHome, 0.0, takeHome * 2.0, 0))
  }

  /** The bisection never leaves its bracket. */
  lemma {:induction false} BisectWithin(bands: seq<Band>, personalAllowance: real, statePension: real,
                                        takeHome: real, low: real, high: real, iteration: nat)
    requires iteration <= MaxIterations && low <= high
    ensures low <= Bisect(bands, personalAllowance, statePension, takeHome, low, high, iteration) <= high
    decreases MaxIterations - iteration
  {
    if high - low > Tolerance && iteration < MaxIterations {
      var mid := (low + high) / 2.0;
      if mid - CandidateTax(bands, personalAllowance, statePension, mid) < takeHome {
        BisectWithin(bands, personalAllowance, statePension, takeHome, mid, high, iteration + 1);
      } else {
        BisectWithin(bands, personalAllowance, statePension, takeHome, low, mid, iteration + 1);
      }
    }
  }

  /** With a negative take-home amount the bracket is empty from the start: the answer is the amount itself. */
  lemma NegativeTakeHome(bands: seq<Band>, personalAllowance: real, statePension: real, takeHome: real)
    requires takeHome < 0.0
    ensures Bisect(bands, personalAllowance, statePension, takeHome, 0.0, takeHome * 2.0, 0) == takeHome
  {
  }

  /**
   * The gross income found for a non-negative take-home amount lies in
   * [0, 2 x take-home]; for a negative one the loop never runs and the answer
   * is the take-home amount itself.  A failed lookup is passed on.
   */
  lemma GrossBounds(db: TaxTable, takeHome: real, scotland: bool, year: int, statePension: real)
    ensures GrossFromTakeHome(db, takeHome, scotland, year, statePension).Failure?
            <==> GetTaxBands(db, scotland, year).Failure?
    ensures takeHome >= 0.0 && GrossFromTakeHome(db, takeHome, scotland, year, statePension).Success? ==>
              0.0 <= GrossFromTakeHome(db, takeHome, scotland, year, statePension).value <= 2.0 * takeHome
    ensures takeHome < 0.0 && GrossFromTakeHome(db, takeHome, scotland, year, statePension).Success? ==>
              GrossFromTakeHome(db, takeHome, scotland, year, statePension).value == takeHome
  {
    var lookup := GetTaxBands(db, scotland, year);
    if lookup.Success? {
      var d := lookup.value;
      var low, high, iteration := 0.0, takeHome * 2.0, 0;
      GrossFromBracket(db, takeHome, scotland, year, statePension, d, low, high, iteration);
      var g := Bisect(d.bands, d.personalAllowance, statePension, takeHome, low, high, iteration);
      if takeHome >= 0.0 {
        GrossWithin(d.bands, d.personalAllowance, statePension, takeHome, low, high, iteration, g);
      } else {
        NegativeBracket(d.bands, d.personalAllowance, statePension, takeHome, low, high, iteration, g);
      }
    }
  }

  /** With the bands found, the gross income is the bisection over [0, 2 x take-home]. */
  lemma GrossIsBisect(db: TaxTable, takeHome: real, scotland: bool, year: int, statePension: real, d: RegionData)
    requires GetTaxBands(db, scotland, year) == Success(d)
    ensures GrossFromTakeHome(db, takeHome, scotland, year, statePension)
            == Success(Bisect(d.bands, d.personalAllowance, statePension, takeHome, 0.0, takeHome * 2.0, 0))
  {
  }

  /** `GrossIsBisect` with the starting bracket and step passed in. */
  lemma GrossFromBracket(db: TaxTable, takeHome: real, scotland: bool, year: int, statePension: real,
                         d: RegionData, low: real, high: real, iteration: nat)
    requires GetTaxBands(db, scotland, year) == Success(d)
    requires low == 0.0 && high == takeHome * 2.0 && iteration == 0
    ensures GrossFromTakeHome(db, takeHome, scotland, year, statePension)
            == Success(Bisect(d.bands, d.personalAllowance, statePension, takeHome, low, high, iteration))
  {
    GrossIsBisect(db, takeHome, scotland, year, statePension, d);
  }

  /** The step count from the starting bracket and step passed in. */
  lemma StepsFromBracket(bands: seq<Band>, personalAllowance: real, statePension: real, takeHome: real,
                         low: real, high: real, iteration: nat)
    requires low == 0.0 && high == takeHome * 2.0 && iteration == 0
    ensures BisectSteps(bands, personalAllowance, statePension, takeHome, low, high, iteration)
         == BisectSteps(bands, personalAllowance, statePension, takeHome, 0.0, takeHome * 2.0, 0)
  {
  }

  /** From a non-negative take-home amount the bisection ends inside [0, 2 x take-home]. */
  lemma GrossWithin(bands: seq<Band>, personalAllowance: real, statePension: real, takeHome: real,
                    low: real, high: real, iteration: nat, g: real)
    requires takeHome >= 0.0 && low == 0.0 && high == takeHome * 2.0 && iteration == 0
    requires g == Bisect(bands, personalAllowance, statePension, takeHome, low, high, iteration)
    ensures 0.0 <= g <= 2.0 * takeHome
  {
    BisectWithin(bands, personalAllowance, statePension, takeHome, low, high, iteration);
  }

  /** `NegativeTakeHome` with the starting bracket and step passed in. */
  lemma NegativeBracket(bands: seq<Band>, personalAllowance: real, statePension: real, takeHome: real,
                        low: real, high: real, iteration: nat, g: real)
    requires takeHome < 0.0 && low == 0.0 && high == takeHome * 2.0 && iteration == 0
    requires g == Bisect(bands, personalAllowance, statePension, takeHome, low, high, iteration)
    ensures g == takeHome
  {
    NegativeTakeHome(bands, personalAllowance, statePension, takeHome);
  }

  /**
   * The method: a bounded bisection on the gross income.  Besides its value the
   * result is the midpoint of a final bracket whose low end is 0 or nets less
   * than the take-home amount and whose high end is 2 x take-home or nets at
   * least as much, reached in at most 20 halvings.
   */
  method CalculateGrossFromTakeHome(db: TaxTable, takeHome: real, scotland: bool, year: int, statePension: real)
    returns (r: Result<real, TaxError>, ghost low: real, ghost high: real, ghost iterations: nat)
    ensures r == GrossFromTakeHome(db, takeHome, scotland, year, statePension)
    ensures iterations <= MaxIterations
    ensures r.Success? ==>
              var d := GetTaxBands(db, scotland, year).value;
              && iterations == BisectSteps(d.bands, d.personalAllowance, statePension, takeHome, 0.0, takeHome * 2.0, 0)
              && r.value == (low + high) / 2.0
              && (takeHome >= 0.0 ==> 0.0 <= low <= high <= 2.0 * takeHome)
              && (low == 0.0
                  || low - CandidateTax(d.bands, d.personalAllowance, statePension, low) < takeHome)
              && (high == takeHome * 2.0
                  || high - CandidateTax(d.bands, d.personalAllowance, statePension, high) >= takeHome)
  {
    low, high, iterations := 0.0, 0.0, 0;
    var lookup := GetTaxBands(db, scotland, year);
    if lookup.Failure? {
      return Failure(lookup.error), low, high, iterations;
    }
    var bands, personalAllowance := lookup.value.bands, lookup.value.personalAllowance;
    var effectiveAllowance := Max(personalAllowance - statePension, 0.0);

    var lo, hi := 0.0, takeHome * 2.0;
    var iter := 0;
    ghost var lo0, hi0, iter0 := lo, hi, iter;
    ghost var gross := Bisect(bands, personalAllowance, statePension, takeHome, lo0, hi0, iter0);
    ghost var steps := BisectSteps(bands, personalAllowance, statePension, takeHome, lo0, hi0, iter0);
    while hi - lo > Tolerance && iter < MaxIterations
      invariant 0 <= iter <= MaxIterations
      invariant Bisect(bands, personalAllowance, statePension, takeHome, lo, hi, iter) == gross
      invariant iter + BisectSteps(bands, personalAllowance, statePension, takeHome, lo, hi, iter) == steps
      invariant takeHome >= 0.0 ==> 0.0 <= lo <= hi <= 2.0 * takeHome
      invariant lo == 0.0 || lo - CandidateTax(bands, personalAllowance, statePension, lo) < takeHome
      invariant hi == takeHome * 2.0 || hi - CandidateTax(bands, personalAllowance, statePension, hi) >= takeHome
      decreases MaxIterations - iter
    {
      var mid := (lo + hi) / 2.0;
      var calculatedTax := TaxDue(bands, personalAllowance, mid);
      if statePension > 0.0 {
        calculatedTax := TaxDue(bands, effectiveAllowance, mid);
      }
      var netIncome := mid - calculatedTax;
      ghost var lo1, hi1 := lo, hi;
      if netIncome < takeHome {
        lo := mid;
      } else {
        hi := mid;
      }
      BisectStep(bands, personalAllowance, statePension, takeHome, lo1, hi1, iter, mid, netIncome, lo, hi);
      iter := iter + 1;
    }
    r := Success((lo + hi) / 2.0);
    low, high, iterations := lo, hi, iter;
    GrossFromBracket(db, takeHome, scotland, year, statePension, lookup.value, lo0, hi0, iter0);
    StepsFromBracket(bands, personalAllowance, statePension, takeHome, lo0, hi0, iter0);
  }
}
