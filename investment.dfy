/**
 * The pre-retirement projection: one step per year of age from the current
 * age up to (not including) the retirement age.  Each year fixes the four
 * accounts' contributions, works out the pension tax relief and the refund
 * from the income-tax model, and then grows the four balances in place,
 * contribution first and return second, while keeping running totals of the
 * net and gross amounts paid in.
 */
module Investment {
  import opened Wrappers
  import opened Bands
  import opened Tax
  import opened Settings

  /** One amount per account. */
  datatype Pots = Pots(lisa: real, isa: real, workplace: real, sipp: real)

  function AddPots(a: Pots, b: Pots): (r: Pots)
    ensures r.lisa == a.lisa + b.lisa && r.isa == a.isa + b.isa
    ensures r.workplace == a.workplace + b.workplace && r.sipp == a.sipp + b.sipp
  {
    Pots(a.lisa + b.lisa, a.isa + b.isa, a.workplace + b.workplace, a.sipp + b.sipp)
  }

  const ZeroPots: Pots := Pots(0.0, 0.0, 0.0, 0.0)

  function PotsTotal(p: Pots): real
  {
    p.lisa + p.isa + p.workplace + p.sipp
  }

  /** Every amount of `a` is at most the matching amount of `b`. */
  predicate PotsBelow(a: Pots, b: Pots)
  {
    a.lisa <= b.lisa && a.isa <= b.isa && a.workplace <= b.workplace && a.sipp <= b.sipp
  }

  // ---------------------------------------------------------------------------
  // The year's contributions

  const LisaBonusRate: real := 0.25
  const PensionReliefRate: real := 0.25

  datatype LisaContribution = LisaContribution(net: real, bonus: real, gross: real)
  datatype IsaContribution = IsaContribution(net: real, gross: real)
  datatype WorkplaceContribution = WorkplaceContribution(er: real, eeNet: real, eeGross: real, taxRelief: real)
  datatype SippContribution = SippContribution(net: real, gross: real, taxRelief: real)

  /** The four contribution records of one year. */
  datatype Contributions = Contributions(
    lisa: LisaContribution, isa: IsaContribution, workplace: WorkplaceContribution, sipp: SippContribution)

  /** LISA: the configured amount below the maximum contribution age, nothing from it on; a 25% bonus on top. */
  function LisaContributionAt(p: ProfileSettings, lisaMaxAge: int, age: int): LisaContribution
  {
    var net := if age < lisaMaxAge then p.contributionSettings.lisaContribution else 0.0;
    var bonus := net * LisaBonusRate;
    LisaContribution(net, bonus, net + bonus)
  }

  /** ISA: the configured amount, plus the redirected LISA money from the maximum LISA age on. */
  function IsaContributionAt(p: ProfileSettings, lisaMaxAge: int, age: int): IsaContribution
  {
    var base := p.contributionSettings.isaContribution;
    var net := if age >= lisaMaxAge then base + p.post50ContributionSettings.post50LisaToIsaContribution else base;
    IsaContribution(net, net)
  }

  /** Workplace pension: the employer's amount, and the employee's net amount grossed up by 25% relief. */
  function WorkplaceContributionOf(p: ProfileSettings): WorkplaceContribution
  {
    var er := p.contributionSettings.workplaceErContribution;
    var ee := p.contributionSettings.workplaceEeContribution;
    var relief := ee * PensionReliefRate;
    WorkplaceContribution(er, ee, ee + relief, relief)
  }

  /** SIPP: the configured amount, plus the redirected LISA money from the maximum LISA age on, grossed up by 25%. */
  function SippContributionAt(p: ProfileSettings, lisaMaxAge: int, age: int): SippContribution
  {
    var base := p.contributionSettings.sippContribution;
    var net := if age >= lisaMaxAge then base + p.post50ContributionSettings.post50LisaToSippContribution else base;
    var relief := net * PensionReliefRate;
    SippContribution(net, net + relief, relief)
  }

  function YearContributions(p: ProfileSettings, lisaMaxAge: int, age: int): Contributions
  {
    Contributions(LisaContributionAt(p, lisaMaxAge, age), IsaContributionAt(p, lisaMaxAge, age),
                  WorkplaceContributionOf(p), SippContributionAt(p, lisaMaxAge, age))
  }

  /** What each account receives after relief and bonus (the workplace pot gets the employer's part too). */
  function GrossPaid(c: Contributions): Pots
  {
    Pots(c.lisa.gross, c.isa.gross, c.workplace.eeGross + c.workplace.er, c.sipp.gross)
  }

  /** What the saver pays into each account. */
  function NetPaid(c: Contributions): Pots
  {
    Pots(c.lisa.net, c.isa.net, c.workplace.eeNet, c.sipp.net)
  }

  /**
   * The contribution rules: LISA money stops at the maximum LISA age and is
   * redirected to the ISA and the SIPP from then on; the LISA bonus and the
   * pension relief are a quarter of the net amount, so the gross is 1.25 times
   * the net; the ISA gets no top-up.
   */
  lemma ContributionRules(p: ProfileSettings, lisaMaxAge: int, age: int)
    ensures var c := YearContributions(p, lisaMaxAge, age);
      && (age < lisaMaxAge ==> c.lisa.net == p.contributionSettings.lisaContribution
                               && c.isa.net == p.contributionSettings.isaContribution
                               && c.sipp.net == p.contributionSettings.sippContribution)
      && (age >= lisaMaxAge ==> c.lisa.net == 0.0 && c.lisa.gross == 0.0
                                && c.isa.net == p.contributionSettings.isaContribution
                                                + p.post50ContributionSettings.post50LisaToIsaContribution
                                && c.sipp.net == p.contributionSettings.sippContribution
                                                 + p.post50ContributionSettings.post50LisaToSippContribution)
      && c.lisa.bonus == 0.25 * c.lisa.net && c.lisa.gross == 1.25 * c.lisa.net
      && c.isa.gross == c.isa.net
      && c.workplace.eeNet == p.contributionSettings.workplaceEeContribution
      && c.workplace.er == p.contributionSettings.workplaceErContribution
      && c.workplace.taxRelief == 0.25 * c.workplace.eeNet && c.workplace.eeGross == 1.25 * c.workplace.eeNet
      && c.sipp.taxRelief == 0.25 * c.sipp.net && c.sipp.gross == 1.25 * c.sipp.net
  {
  }

  /**
   * Crossing the maximum LISA age moves money rather than creating it: the net
   * amount paid into LISA, ISA and SIPP together changes by exactly the two
   * redirected amounts less the LISA contribution that stopped.
   */
  lemma LisaRedirection(p: ProfileSettings, lisaMaxAge: int, before: int, after: int)
    requires before < lisaMaxAge <= after
    ensures var a := NetPaid(YearContributions(p, lisaMaxAge, before));
            var b := NetPaid(YearContributions(p, lisaMaxAge, after));
            (b.lisa + b.isa + b.sipp) - (a.lisa + a.isa + a.sipp)
            == p.post50ContributionSettings.post50LisaToIsaContribution
               + p.post50ContributionSettings.post50LisaToSippContribution
               - p.contributionSettings.lisaContribution
  {
  }

  // ---------------------------------------------------------------------------
  // Tax relief and refund

  datatype TaxReliefAndRefund = TaxReliefAndRefund(taxRelief: real, taxRefund: real)

  /**
   * The relief added to the pension contributions, and the refund: the tax the
   * salary loses by paying the grossed-up employee contributions out of it, less
   * the relief already given, never below zero.
   */
  function ReliefFor(d: RegionData, p: ProfileSettings, c: Contributions): TaxReliefAndRefund
  {
    var relief := c.workplace.taxRelief + c.sipp.taxRelief;
    var totalEePension := c.workplace.eeGross + c.sipp.gross;
    var salary := p.personalDetails.salary;
    var before := IncomeTax(d.bands, d.personalAllowance, salary);
    var after := IncomeTax(d.bands, d.personalAllowance, salary - totalEePension);
    TaxReliefAndRefund(relief, Max(before - after - relief, 0.0))
  }

  function ReliefAndRefund(db: TaxTable, p: ProfileSettings, c: Contributions): Result<TaxReliefAndRefund, TaxError>
  {
    var lookup := GetTaxBands(db, p.scotland, p.taxYear);
    if lookup.Failure? then Failure(lookup.error) else Success(ReliefFor(lookup.value, p, c))
  }

  /**
   * The refund is never negative and never more than the tax saved over the relief;
   * with ordered bands, non-negative rates and non-negative employee contributions
   * the tax saved is itself non-negative, so the refund is at most the tax saved.
   */
  lemma RefundBounds(d: RegionData, p: ProfileSettings, c: Contributions)
    ensures var r := ReliefFor(d, p, c);
            var salary := p.personalDetails.salary;
            var saved := IncomeTax(d.bands, d.personalAllowance, salary)
                         - IncomeTax(d.bands, d.personalAllowance, salary - (c.workplace.eeGross + c.sipp.gross));
            && r.taxRefund >= 0.0
            && r.taxRefund >= saved - r.taxRelief
            && (r.taxRefund == 0.0 || r.taxRefund == saved - r.taxRelief)
    ensures Ascending(d.bands, d.personalAllowance) && NonNegativeRates(d.bands)
            && c.workplace.eeGross + c.sipp.gross >= 0.0
            && c.workplace.taxRelief + c.sipp.taxRelief >= 0.0 ==>
              var salary := p.personalDetails.salary;
              0.0 <= ReliefFor(d, p, c).taxRefund
                  <= IncomeTax(d.bands, d.personalAllowance, salary)
                     - IncomeTax(d.bands, d.personalAllowance, salary - (c.workplace.eeGross + c.sipp.gross))
  {
    var salary := p.personalDetails.salary;
    if Ascending(d.bands, d.personalAllowance) && NonNegativeRates(d.bands) && c.workplace.eeGross + c.sipp.gross >= 0.0 {
      TaxMonotone(d.bands, d.personalAllowance, salary - (c.workplace.eeGross + c.sipp.gross), salary);
    }
  }

  // ---------------------------------------------------------------------------
  // Balances and running totals

  /** The twelve running amounts: balances, cumulative net and cumulative gross contributions. */
  datatype Ledger = Ledger(balance: Pots, net: Pots, gross: Pots)

  /** The four annual returns before retirement. */
  function Returns(p: ProfileSettings): Pots
  {
    var e := p.expectedReturnsAndInflation;
    Pots(e.expectedLisaAnnualReturn, e.expectedIsaAnnualReturn, e.expectedWorkplaceAnnualReturn, e.expectedSippAnnualReturn)
  }

  /** Pay the gross contribution in, then apply the year's return. */
  function Grow(balance: Pots, paid: Pots, rates: Pots): Pots
  {
    Pots((balance.lisa + paid.lisa) * (1.0 + rates.lisa), (balance.isa + paid.isa) * (1.0 + rates.isa),
         (balance.workplace + paid.workplace) * (1.0 + rates.workplace),
         (balance.sipp + paid.sipp) * (1.0 + rates.sipp))
  }

  function NextLedger(l: Ledger, c: Contributions, rates: Pots): Ledger
  {
    Ledger(Grow(l.balance, GrossPaid(c), rates), AddPots(l.net, NetPaid(c)), AddPots(l.gross, GrossPaid(c)))
  }

  /** The ledger after `years` yearly steps from `before`, the first step being at `age`. */
  function LedgerFrom(p: ProfileSettings, lisaMaxAge: int, before: Ledger, age: int, years: nat): Ledger
    decreases years
  {
    if years == 0 then before
    else LedgerFrom(p, lisaMaxAge, NextLedger(before, YearContributions(p, lisaMaxAge, age), Returns(p)),
                    age + 1, years - 1)
  }

  /** The aggregate columns of a row. */
  datatype Aggregate = Aggregate(
    balance: Pots, net: Pots, gross: Pots,
    portfolioBalance: real, portfolioNetContribution: real, portfolioGrossContribution: real,
    annualNetContribution: real, annualGrossContribution: real)

  function AggregateOf(l: Ledger, c: Contributions): Aggregate
  {
    Aggregate(l.balance, l.net, l.gross,
              l.balance.lisa + l.balance.isa + l.balance.sipp + l.balance.workplace,
              l.net.lisa + l.net.isa + l.net.workplace + l.net.sipp,
              l.gross.lisa + l.gross.isa + l.gross.workplace + l.gross.sipp,
              c.lisa.net + c.isa.net + c.workplace.eeNet + c.sipp.net,
              c.lisa.gross + c.isa.gross + c.workplace.eeGross + c.sipp.gross + c.workplace.er)
  }

  datatype InvestmentRow = InvestmentRow(
    age: int, salary: real, takeHomeSalary: real, incomeTax: real, niContribution: real,
    contributions: Contributions, relief: TaxReliefAndRefund, aggregate: Aggregate)

  function RowAt(p: ProfileSettings, lisaMaxAge: int, d: RegionData, before: Ledger, age: int): InvestmentRow
  {
    var c := YearContributions(p, lisaMaxAge, age);
    var pd := p.personalDetails;
    InvestmentRow(age, pd.salary, pd.takeHomeSalary, pd.incomeTax, pd.niContribution, c,
                  ReliefFor(d, p, c), AggregateOf(NextLedger(before, c, Returns(p)), c))
  }

  /** The rows of `years` yearly steps from `before`, the first step being at `age`. */
  function RowsFrom(p: ProfileSettings, lisaMaxAge: int, d: RegionData, before: Ledger, age: int, years: nat)
    : (r: seq<InvestmentRow>)
    ensures |r| == years
    decreases years
  {
    if years == 0 then []
    else
      [RowAt(p, lisaMaxAge, d, before, age)]
      + RowsFrom(p, lisaMaxAge, d, NextLedger(before, YearContributions(p, lisaMaxAge, age), Returns(p)),
                 age + 1, years - 1)
  }

  /** Appending to a sequence with a first element. */
  lemma SnocOfCons<T>(x: T, rest: seq<T>, shorterRest: seq<T>, y: T, whole: seq<T>, shorter: seq<T>)
    requires whole == [x] + rest && rest == shorterRest + [y] && shorter == [x] + shorterRest
    ensures whole == shorter + [y]
  {
    assert [x] + (shorterRest + [y]) == ([x] + shorterRest) + [y];
  }

  /** Equal ledgers and ages give equal rows. */
  lemma SameRow(p: ProfileSettings, lisaMaxAge: int, d: RegionData, l: Ledger, a: int, l2: Ledger, a2: int)
    requires l == l2 && a == a2
    ensures RowAt(p, lisaMaxAge, d, l, a) == RowAt(p, lisaMaxAge, d, l2, a2)
  {
  }

  /** The projection of one more year is the shorter projection with that year's row appended. */
  lemma {:induction false} RowsSnoc(p: ProfileSettings, lisaMaxAge: int, d: RegionData, before: Ledger, age: int,
                                    years: nat)
    ensures RowsFrom(p, lisaMaxAge, d, before, age, years + 1)
         == RowsFrom(p, lisaMaxAge, d, before, age, years)
            + [RowAt(p, lisaMaxAge, d, LedgerFrom(p, lisaMaxAge, before, age, years), age + years)]
    decreases years
  {
    if years > 0 {
      var after := NextLedger(before, YearContributions(p, lisaMaxAge, age), Returns(p));
      var next, k := age + 1, years - 1;
      var ledger, lastAge := LedgerFrom(p, lisaMaxAge, after, next, k), next + k;
      RowsSnoc(p, lisaMaxAge, d, after, next, k);
      var last := RowAt(p, lisaMaxAge, d, ledger, lastAge);
      var whole, end := LedgerFrom(p, lisaMaxAge, before, age, years), age + years;
      SameRow(p, lisaMaxAge, d, ledger, lastAge, whole, end);
      SnocOfCons(RowAt(p, lisaMaxAge, d, before, age), RowsFrom(p, lisaMaxAge, d, after, next, years),
                 RowsFrom(p, lisaMaxAge, d, after, next, years - 1), last,
                 RowsFrom(p, lisaMaxAge, d, before, age, years + 1), RowsFrom(p, lisaMaxAge, d, before, age, years));
    } else {
      assert age + years == age;
    }
  }

  /** One pass of the `simulate` loop keeps the rows and the ledger equal to the projection so far. */
  lemma SimulationStep(p: ProfileSettings, lisaMaxAge: int, d: RegionData, start: Ledger, startAge: int, done: nat,
                       age: int, records: seq<InvestmentRow>, before: Ledger, row: InvestmentRow, after: Ledger)
    requires age == startAge + done
    requires records == RowsFrom(p, lisaMaxAge, d, start, startAge, done)
    requires before == LedgerFrom(p, lisaMaxAge, start, startAge, done)
    requires row == RowAt(p, lisaMaxAge, d, before, age)
    requires after == NextLedger(before, YearContributions(p, lisaMaxAge, age), Returns(p))
    ensures records + [row] == RowsFrom(p, lisaMaxAge, d, start, startAge, done + 1)
    ensures after == LedgerFrom(p, lisaMaxAge, start, startAge, done + 1)
  {
    RowsSnoc(p, lisaMaxAge, d, start, startAge, done);
    LedgerStep(p, lisaMaxAge, start, startAge, done);
  }

  /** The ledger a new simulator starts from: the profile's balances, nothing paid in yet. */
  function InitialLedger(p: ProfileSettings): Ledger
  {
    var b := p.accountBalances;
    Ledger(Pots(b.lisaBalance, b.isaBalance, b.workplacePensionBalance, b.sippBalance), ZeroPots, ZeroPots)
  }

  // ---------------------------------------------------------------------------
  // The simulator

  class InvestmentSimulator {
    const profile: ProfileSettings
    const limits: Limits
    const taxDb: TaxTable
    const taxYear: int
    const currentAge: int
    const retirementAge: int
    const salary: real
    const takeHomeSalary: real
    const incomeTax: real
    const niContribution: real

    var lisaBalance: real
    var isaBalance: real
    var sippBalance: real
    var workplaceBalance: real

    var lisaNetContribution: real
    var isaNetContribution: real
    var workplaceNetContribution: real
    var sippNetContribution: real

    var lisaGrossContribution: real
    var isaGrossContribution: real
    var workplaceGrossContribution: real
    var sippGrossContribution: real

    /** The twelve mutable fields as one value. */
    function State(): Ledger
      reads this
    {
      Ledger(
        Pots(lisaBalance, isaBalance, workplaceBalance, sippBalance),
        Pots(lisaNetContribution, isaNetContribution, workplaceNetContribution, sippNetContribution),
        Pots(lisaGrossContribution, isaGrossContribution, workplaceGrossContribution, sippGrossContribution))
    }

    /** The fixed inputs are the profile's; the ledger starts at the profile's balances with nothing paid in. */
    ghost predicate Consistent()
    {
      taxYear == profile.taxYear
      && currentAge == profile.personalDetails.currentAge
      && retirementAge == profile.personalDetails.retirementAge
      && salary == profile.personalDetails.salary
      && takeHomeSalary == profile.personalDetails.takeHomeSalary
      && incomeTax == profile.personalDetails.incomeTax
      && niContribution == profile.personalDetails.niContribution
    }

    constructor (profile: ProfileSettings, limits: Limits, taxDb: TaxTable)
      ensures this.profile == profile && this.limits == limits && this.taxDb == taxDb
      ensures Consistent()
      ensures State() == InitialLedger(profile)
    {
      this.profile := profile;
      this.limits := limits;
      this.taxDb := taxDb;
      this.taxYear := profile.taxYear;
      this.currentAge := profile.personalDetails.currentAge;
      this.retirementAge := profile.personalDetails.retirementAge;
      this.salary := profile.personalDetails.salary;
      this.takeHomeSalary := profile.personalDetails.takeHomeSalary;
      this.incomeTax := profile.personalDetails.incomeTax;
      this.niContribution := profile.personalDetails.niContribution;
      lisaBalance := profile.accountBalances.lisaBalance;
      isaBalance := profile.accountBalances.isaBalance;
      sippBalance := profile.accountBalances.sippBalance;
      workplaceBalance := profile.accountBalances.workplacePensionBalance;
      lisaNetContribution, isaNetContribution, workplaceNetContribution, sippNetContribution := 0.0, 0.0, 0.0, 0.0;
      lisaGrossContribution, isaGrossContribution, workplaceGrossContribution, sippGrossContribution := 0.0, 0.0, 0.0, 0.0;
    }

    /** `_calculate_tax_relief_and_refund`: the tax on the salary before and after the employee contributions. */
    method CalculateTaxReliefAndRefund(c: Contributions) returns (r: Result<TaxReliefAndRefund, TaxError>)
      ensures r == ReliefAndRefund(taxDb, profile, c)
    {
      var relief := c.workplace.taxRelief + c.sipp.taxRelief;
      var totalEePension := c.workplace.eeGross + c.sipp.gross;
      var lookup := GetTaxBands(taxDb, profile.scotland, profile.taxYear);
      if lookup.Failure? {
        return Failure(lookup.error);
      }
      var d := lookup.value;
      var before := TaxDue(d.bands, d.personalAllowance, profile.personalDetails.salary);
      var after := TaxDue(d.bands, d.personalAllowance, profile.personalDetails.salary - totalEePension);
      r := Success(TaxReliefAndRefund(relief, Max(before - after - relief, 0.0)));
    }

    /** The first half of `_aggregate_returns`: pay the gross contributions in, then apply the returns. */
    method GrowBalances(c: Contributions)
      modifies this
      ensures State() == Ledger(Grow(old(State()).balance, GrossPaid(c), Returns(profile)), old(State()).net,
                                old(State()).gross)
    {
      var e := profile.expectedReturnsAndInflation;
      var lisa := (lisaBalance + c.lisa.gross) * (1.0 + e.expectedLisaAnnualReturn);
      var isa := (isaBalance + c.isa.gross) * (1.0 + e.expectedIsaAnnualReturn);
      var workplace := (workplaceBalance + (c.workplace.eeGross + c.workplace.er))
                       * (1.0 + e.expectedWorkplaceAnnualReturn);
      var sipp := (sippBalance + c.sipp.gross) * (1.0 + e.expectedSippAnnualReturn);
      lisaBalance, isaBalance, workplaceBalance, sippBalance := lisa, isa, workplace, sipp;
    }

    /** The second half of `_aggregate_returns`: add the year's amounts to the running totals. */
    method AddToTotals(c: Contributions)
      modifies this
      ensures State() == Ledger(old(State()).balance, AddPots(old(State()).net, NetPaid(c)),
                                AddPots(old(State()).gross, GrossPaid(c)))
    {
      var net := AddPots(State().net, NetPaid(c));
      var gross := AddPots(State().gross, GrossPaid(c));
      lisaNetContribution, isaNetContribution, workplaceNetContribution, sippNetContribution
        := net.lisa, net.isa, net.workplace, net.sipp;
      lisaGrossContribution, isaGrossContribution, workplaceGrossContribution, sippGrossContribution
        := gross.lisa, gross.isa, gross.workplace, gross.sipp;
    }

    /** `_aggregate_returns`: grow the balances in place, add to the running totals, report the row's aggregates. */
    method AggregateReturns(c: Contributions) returns (a: Aggregate)
      modifies this
      ensures State() == NextLedger(old(State()), c, Returns(profile))
      ensures a == AggregateOf(State(), c)
    {
      GrowBalances(c);
      AddToTotals(c);
      a := AggregateOf(State(), c);
    }

    /**
     * The body of the `simulate` loop: the row of one year of age, built from
     * the four contributions, the relief and refund, and the grown balances.
     * When the tax lookup fails nothing has changed.
     */
    method YearRecord(age: int) returns (r: Result<InvestmentRow, TaxError>)
      requires Consistent()
      modifies this
      ensures var lookup := GetTaxBands(taxDb, profile.scotland, profile.taxYear);
              var lisaMaxAge := LisaMaximumContributionAge(limits);
              && (lookup.Failure? ==> r == Failure(lookup.error) && State() == old(State()))
              && (lookup.Success? ==>
                    r == Success(RowAt(profile, lisaMaxAge, lookup.value, old(State()), age))
                    && State() == NextLedger(old(State()), YearContributions(profile, lisaMaxAge, age), Returns(profile)))
    {
      var lisaMaxAge := LisaMaximumContributionAge(limits);
      var c := Contributions(LisaContributionAt(profile, lisaMaxAge, age), IsaContributionAt(profile, lisaMaxAge, age),
                             WorkplaceContributionOf(profile), SippContributionAt(profile, lisaMaxAge, age));
      var relief := CalculateTaxReliefAndRefund(c);
      if relief.Failure? {
        return Failure(relief.error);
      }
      var aggregate := AggregateReturns(c);
      r := Success(InvestmentRow(age, salary, takeHomeSalary, incomeTax, niContribution, c, relief.value, aggregate));
    }

    /**
     * `simulate`: one row per year of age from the current age up to the
     * retirement age.  The tax lookup is the only way to fail; it fails in the
     * first year or never, before anything has changed.
     */
    method Simulate() returns (r: Result<seq<InvestmentRow>, TaxError>)
      requires Consistent()
      modifies this
      ensures var lookup := GetTaxBands(taxDb, profile.scotland, profile.taxYear);
              var years := retirementAge - currentAge;
              var lisaMaxAge := LisaMaximumContributionAge(limits);
              && (years <= 0 ==> r == Success([]) && State() == old(State()))
              && (years > 0 && lookup.Failure? ==> r == Failure(lookup.error) && State() == old(State()))
              && (years > 0 && lookup.Success? ==>
                    r == Success(RowsFrom(profile, lisaMaxAge, lookup.value, old(State()), currentAge, years))
                    && State() == LedgerFrom(profile, lisaMaxAge, old(State()), currentAge, years))
    {
      ghost var lisaMaxAge := LisaMaximumContributionAge(limits);
      ghost var lookup := GetTaxBands(taxDb, profile.scotland, profile.taxYear);
      ghost var d := if lookup.Success? then lookup.value else RegionData([], 0.0);
      ghost var start := State();
      var simulationYears := retirementAge - currentAge;
      var records: seq<InvestmentRow> := [];
      var i: nat := 0;
      while i < simulationYears
        invariant i == 0 || (i <= simulationYears && lookup.Success?)
        invariant records == RowsFrom(profile, lisaMaxAge, d, start, currentAge, i)
        invariant State() == LedgerFrom(profile, lisaMaxAge, start, currentAge, i)
      {
        var age := currentAge + i;
        ghost var done, before := i, State();
        var row := YearRecord(age);
        if row.Failure? {
          return Failure(row.error);
        }
        assert d == lookup.value;
        SimulationStep(profile, lisaMaxAge, d, start, currentAge, done, age, records, before, row.value, State());
        records := records + [row.value];
        i := i + 1;
      }
      r := Success(records);
    }
  }

  // ---------------------------------------------------------------------------
  // Properties of the projection

  /** The ledger after one more year is the ledger after `j` years grown once. */
  lemma {:induction false} LedgerStep(p: ProfileSettings, lisaMaxAge: int, before: Ledger, age: int, j: nat)
    ensures LedgerFrom(p, lisaMaxAge, before, age, j + 1)
         == NextLedger(LedgerFrom(p, lisaMaxAge, before, age, j), YearContributions(p, lisaMaxAge, age + j), Returns(p))
    decreases j
  {
    if j > 0 {
      LedgerStep(p, lisaMaxAge, NextLedger(before, YearContributions(p, lisaMaxAge, age), Returns(p)), age + 1, j - 1);
    }
  }

  /** Row `j` is the row of age `age + j`, grown from the ledger after `j` years. */
  lemma RowIndex(p: ProfileSettings, lisaMaxAge: int, d: RegionData, before: Ledger, age: int, years: nat, j: nat)
    requires j < years
    ensures RowsFrom(p, lisaMaxAge, d, before, age, years)[j]
         == RowAt(p, lisaMaxAge, d, LedgerFrom(p, lisaMaxAge, before, age, j), age + j)
  {
    RowsPrefix(p, lisaMaxAge, d, before, age, years, j + 1);
    RowsSnoc(p, lisaMaxAge, d, before, age, j);
    var rows := RowsFrom(p, lisaMaxAge, d, before, age, years);
    assert rows[j] == rows[..j + 1][j];
  }


  /**
   * Exactly `years` rows, for the ages `age`, `age + 1`, ...; salary,
   * take-home pay, income tax and NI copied into every row; each row's
   * contributions are the ones its age calls for, its relief and refund are
   * worked out from them, and its balances and running totals are the ledger
   * after that year.
   */
  lemma RowsShape(p: ProfileSettings, lisaMaxAge: int, d: RegionData, before: Ledger, age: int, years: nat)
    ensures |RowsFrom(p, lisaMaxAge, d, before, age, years)| == years
    ensures forall j :: 0 <= j < years ==>
              var row := RowsFrom(p, lisaMaxAge, d, before, age, years)[j];
              && row.age == age + j
              && row.salary == p.personalDetails.salary
              && row.takeHomeSalary == p.personalDetails.takeHomeSalary
              && row.incomeTax == p.personalDetails.incomeTax
              && row.niContribution == p.personalDetails.niContribution
              && row.contributions == YearContributions(p, lisaMaxAge, age + j)
              && row.relief == ReliefFor(d, p, row.contributions)
              && row.aggregate == AggregateOf(LedgerFrom(p, lisaMaxAge, before, age, j + 1), row.contributions)
  {
    forall j | 0 <= j < years
      ensures RowsFrom(p, lisaMaxAge, d, before, age, years)[j]
           == RowAt(p, lisaMaxAge, d, LedgerFrom(p, lisaMaxAge, before, age, j), age + j)
      ensures LedgerFrom(p, lisaMaxAge, before, age, j + 1)
           == NextLedger(LedgerFrom(p, lisaMaxAge, before, age, j), YearContributions(p, lisaMaxAge, age + j), Returns(p))
    {
      RowIndex(p, lisaMaxAge, d, before, age, years, j);
      LedgerStep(p, lisaMaxAge, before, age, j);
    }
  }

  /** The year amounts paid by a run of rows, added up account by account. */
  function SumNetPaid(rows: seq<InvestmentRow>): Pots
    decreases |rows|
  {
    if |rows| == 0 then ZeroPots else AddPots(NetPaid(rows[0].contributions), SumNetPaid(rows[1..]))
  }

  function SumGrossPaid(rows: seq<InvestmentRow>): Pots
    decreases |rows|
  {
    if |rows| == 0 then ZeroPots else AddPots(GrossPaid(rows[0].contributions), SumGrossPaid(rows[1..]))
  }

  /** The running totals after `years` years are the starting totals plus the year amounts of the rows produced. */
  lemma {:induction false} LedgerTotals(p: ProfileSettings, lisaMaxAge: int, d: RegionData, before: Ledger, age: int,
                                        years: nat)
    ensures var rows := RowsFrom(p, lisaMaxAge, d, before, age, years);
            && LedgerFrom(p, lisaMaxAge, before, age, years).net == AddPots(before.net, SumNetPaid(rows))
            && LedgerFrom(p, lisaMaxAge, before, age, years).gross == AddPots(before.gross, SumGrossPaid(rows))
    decreases years
  {
    if years > 0 {
      var c := YearContributions(p, lisaMaxAge, age);
      var after := NextLedger(before, c, Returns(p));
      var rest := RowsFrom(p, lisaMaxAge, d, after, age + 1, years - 1);
      var rows := [RowAt(p, lisaMaxAge, d, before, age)] + rest;
      assert rows[1..] == rest;
      LedgerTotals(p, lisaMaxAge, d, after, age + 1, years - 1);
    }
  }

  /** Taking the first `k` elements of a sequence with a first element. */
  lemma PrefixOfCons<T>(x: T, s: seq<T>, k: nat)
    requires 0 < k <= |s| + 1
    ensures ([x] + s)[..k] == [x] + s[..k - 1]
  {
    assert forall i :: 0 <= i < k ==> ([x] + s)[..k][i] == ([x] + s[..k - 1])[i];
  }

  /** A shorter projection is a prefix of a longer one from the same start. */
  lemma {:induction false} RowsPrefix(p: ProfileSettings, lisaMaxAge: int, d: RegionData, before: Ledger, age: int,
                                      years: nat, k: nat)
    requires k <= years
    ensures RowsFrom(p, lisaMaxAge, d, before, age, years)[..k] == RowsFrom(p, lisaMaxAge, d, before, age, k)
    decreases k
  {
    if k > 0 {
      var after := NextLedger(before, YearContributions(p, lisaMaxAge, age), Returns(p));
      var rest := RowsFrom(p, lisaMaxAge, d, after, age + 1, years - 1);
      RowsPrefix(p, lisaMaxAge, d, after, age + 1, years - 1, k - 1);
      PrefixOfCons(RowAt(p, lisaMaxAge, d, before, age), rest, k);
    }
  }


  /** Row `j`'s cumulative totals are the starting totals plus the year amounts of rows 0 to `j`. */
  lemma CumulativeRow(p: ProfileSettings, lisaMaxAge: int, d: RegionData, before: Ledger, age: int, years: nat, j: nat)
    requires j < years
    ensures var rows := RowsFrom(p, lisaMaxAge, d, before, age, years);
            && rows[j].aggregate.net == AddPots(before.net, SumNetPaid(rows[..j + 1]))
            && rows[j].aggregate.gross == AddPots(before.gross, SumGrossPaid(rows[..j + 1]))
  {
    RowIndex(p, lisaMaxAge, d, before, age, years, j);
    LedgerStep(p, lisaMaxAge, before, age, j);
    LedgerTotals(p, lisaMaxAge, d, before, age, j + 1);
    RowsPrefix(p, lisaMaxAge, d, before, age, years, j + 1);
  }

  /** The portfolio and annual columns of row `j` add up its accounts. */
  lemma RowParts(p: ProfileSettings, lisaMaxAge: int, d: RegionData, before: Ledger, age: int, years: nat, j: nat)
    requires j < years
    ensures var row := RowsFrom(p, lisaMaxAge, d, before, age, years)[j];
            var g := row.aggregate;
            && g.portfolioBalance == PotsTotal(g.balance)
            && g.portfolioNetContribution == PotsTotal(g.net)
            && g.portfolioGrossContribution == PotsTotal(g.gross)
            && g.annualNetContribution == PotsTotal(NetPaid(row.contributions))
            && g.annualGrossContribution == PotsTotal(GrossPaid(row.contributions))
  {
    RowIndex(p, lisaMaxAge, d, before, age, years, j);
  }

  /** The summation invariants of row `j`. */
  lemma RowSums(p: ProfileSettings, lisaMaxAge: int, d: RegionData, before: Ledger, age: int, years: nat, j: nat)
    requires j < years
    ensures var rows := RowsFrom(p, lisaMaxAge, d, before, age, years);
            var a := rows[j].aggregate;
            && a.net == AddPots(before.net, SumNetPaid(rows[..j + 1]))
            && a.gross == AddPots(before.gross, SumGrossPaid(rows[..j + 1]))
            && a.portfolioBalance == PotsTotal(a.balance)
            && a.portfolioNetContribution == PotsTotal(a.net)
            && a.portfolioGrossContribution == PotsTotal(a.gross)
            && a.annualNetContribution == PotsTotal(NetPaid(rows[j].contributions))
            && a.annualGrossContribution == PotsTotal(GrossPaid(rows[j].contributions))
  {
    CumulativeRow(p, lisaMaxAge, d, before, age, years, j);
    RowParts(p, lisaMaxAge, d, before, age, years, j);
  }

  /** Row `j` holds the ledger's balances after `k = j + 1` years and the contributions of its age. */
  lemma RowBalance(p: ProfileSettings, lisaMaxAge: int, d: RegionData, before: Ledger, age: int, years: nat,
                   j: nat, k: nat)
    requires j < years && k == j + 1
    ensures var rows := RowsFrom(p, lisaMaxAge, d, before, age, years);
            && rows[j].aggregate.balance == LedgerFrom(p, lisaMaxAge, before, age, k).balance
            && rows[j].contributions == YearContributions(p, lisaMaxAge, age + j)
  {
    RowIndex(p, lisaMaxAge, d, before, age, years, j);
    LedgerStep(p, lisaMaxAge, before, age, j);
  }

  /** Row `j`'s balance grown from the one before it, or from the start for row 0. */
  lemma RowRecurrence(p: ProfileSettings, lisaMaxAge: int, d: RegionData, before: Ledger, age: int, years: nat,
                      j: nat)
    requires j < years
    ensures var rows := RowsFrom(p, lisaMaxAge, d, before, age, years);
            rows[j].aggregate.balance
            == Grow(if j == 0 then before.balance else rows[j - 1].aggregate.balance,
                    GrossPaid(rows[j].contributions), Returns(p))
  {
    RowBalance(p, lisaMaxAge, d, before, age, years, j, j + 1);
    LedgerStep(p, lisaMaxAge, before, age, j);
    if j > 0 {
      RowBalance(p, lisaMaxAge, d, before, age, years, j - 1, j);
    }
  }

  /**
   * Summation invariants of the rows: each row's cumulative net and gross
   * contributions are the starting totals plus the year amounts of that row
   * and the rows before it (nothing, for a fresh simulator), the portfolio
   * columns add up the four accounts, and the annual columns add up that row's
   * own contributions (the gross one with the employer's part).
   */
  lemma CumulativeSums(p: ProfileSettings, lisaMaxAge: int, d: RegionData, before: Ledger, age: int, years: nat)
    ensures var rows := RowsFrom(p, lisaMaxAge, d, before, age, years);
            forall j :: 0 <= j < years ==>
              var a := rows[j].aggregate;
              && a.net == AddPots(before.net, SumNetPaid(rows[..j + 1]))
              && a.gross == AddPots(before.gross, SumGrossPaid(rows[..j + 1]))
              && a.portfolioBalance == PotsTotal(a.balance)
              && a.portfolioNetContribution == PotsTotal(a.net)
              && a.portfolioGrossContribution == PotsTotal(a.gross)
              && a.annualNetContribution == PotsTotal(NetPaid(rows[j].contributions))
              && a.annualGrossContribution == PotsTotal(GrossPaid(rows[j].contributions))
  {
    var rows := RowsFrom(p, lisaMaxAge, d, before, age, years);
    forall j | 0 <= j < years
      ensures var a := rows[j].aggregate;
              && a.net == AddPots(before.net, SumNetPaid(rows[..j + 1]))
              && a.gross == AddPots(before.gross, SumGrossPaid(rows[..j + 1]))
              && a.portfolioBalance == PotsTotal(a.balance)
              && a.portfolioNetContribution == PotsTotal(a.net)
              && a.portfolioGrossContribution == PotsTotal(a.gross)
              && a.annualNetContribution == PotsTotal(NetPaid(rows[j].contributions))
              && a.annualGrossContribution == PotsTotal(GrossPaid(rows[j].contributions))
    {
      RowSums(p, lisaMaxAge, d, before, age, years, j);
    }
  }

  /** Each year's balance is the previous one plus the gross contribution, times one plus the return. */
  lemma BalanceRecurrence(p: ProfileSettings, lisaMaxAge: int, d: RegionData, before: Ledger, age: int, years: nat)
    ensures var rows := RowsFrom(p, lisaMaxAge, d, before, age, years);
            forall j :: 0 <= j < years ==>
              rows[j].aggregate.balance
              == Grow(if j == 0 then before.balance else rows[j - 1].aggregate.balance,
                      GrossPaid(rows[j].contributions), Returns(p))
  {
    var rows := RowsFrom(p, lisaMaxAge, d, before, age, years);
    forall j | 0 <= j < years
      ensures rows[j].aggregate.balance
              == Grow(if j == 0 then before.balance else rows[j - 1].aggregate.balance,
                      GrossPaid(rows[j].contributions), Returns(p))
    {
      RowRecurrence(p, lisaMaxAge, d, before, age, years, j);
    }
  }

  ghost predicate NonNegativePots(x: Pots)
  {
    x.lisa >= 0.0 && x.isa >= 0.0 && x.workplace >= 0.0 && x.sipp >= 0.0
  }

  /** All configured contributions and all returns are non-negative. */
  ghost predicate NonNegativeInputs(p: ProfileSettings)
  {
    var cs := p.contributionSettings;
    var post := p.post50ContributionSettings;
    && cs.lisaContribution >= 0.0 && cs.isaContribution >= 0.0 && cs.workplaceErContribution >= 0.0
    && cs.workplaceEeContribution >= 0.0 && cs.sippContribution >= 0.0
    && post.post50LisaToIsaContribution >= 0.0 && post.post50LisaToSippContribution >= 0.0
    && NonNegativePots(Returns(p))
  }

  lemma GrowNeverShrinks(balance: Pots, paid: Pots, rates: Pots)
    requires NonNegativePots(balance) && NonNegativePots(paid) && NonNegativePots(rates)
    ensures PotsBelow(balance, Grow(balance, paid, rates)) && NonNegativePots(Grow(balance, paid, rates))
  {
    GrowOne(balance.lisa, paid.lisa, rates.lisa);
    GrowOne(balance.isa, paid.isa, rates.isa);
    GrowOne(balance.workplace, paid.workplace, rates.workplace);
    GrowOne(balance.sipp, paid.sipp, rates.sipp);
  }

  lemma GrowOne(b: real, g: real, r: real)
    requires b >= 0.0 && g >= 0.0 && r >= 0.0
    ensures b <= (b + g) * (1.0 + r)
  {
    assert (b + g) * (1.0 + r) == (b + g) + (b + g) * r;
    assert (b + g) * r >= 0.0;
  }

  /** With non-negative balances, contributions and returns, the balances stay non-negative year after year. */
  lemma {:induction false} LedgerNonNegative(p: ProfileSettings, lisaMaxAge: int, before: Ledger, age: int, years: nat)
    requires NonNegativePots(before.balance) && NonNegativeInputs(p)
    ensures NonNegativePots(LedgerFrom(p, lisaMaxAge, before, age, years).balance)
    decreases years
  {
    if years > 0 {
      var c := YearContributions(p, lisaMaxAge, age);
      ContributionRules(p, lisaMaxAge, age);
      GrowNeverShrinks(before.balance, GrossPaid(c), Returns(p));
      LedgerNonNegative(p, lisaMaxAge, NextLedger(before, c, Returns(p)), age + 1, years - 1);
    }
  }

  /**
   * With non-negative starting balances, contributions and returns, no balance
   * ever goes down from one year to the next (so by `RowsShape` no row's
   * balance is below the previous row's), and none is ever negative.
   */
  lemma BalancesNeverDecrease(p: ProfileSettings, lisaMaxAge: int, before: Ledger, age: int, j: nat)
    requires NonNegativePots(before.balance) && NonNegativeInputs(p)
    ensures NonNegativePots(LedgerFrom(p, lisaMaxAge, before, age, j + 1).balance)
    ensures PotsBelow(LedgerFrom(p, lisaMaxAge, before, age, j).balance,
                      LedgerFrom(p, lisaMaxAge, before, age, j + 1).balance)
  {
    var previous := LedgerFrom(p, lisaMaxAge, before, age, j);
    var c := YearContributions(p, lisaMaxAge, age + j);
    LedgerNonNegative(p, lisaMaxAge, before, age, j);
    LedgerStep(p, lisaMaxAge, before, age, j);
    ContributionRules(p, lisaMaxAge, age + j);
    GrowNeverShrinks(previous.balance, GrossPaid(c), Returns(p));
  }
}
