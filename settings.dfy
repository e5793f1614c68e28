/**
 * The profile settings the projections read, and the per-year limits and
 * state-pension entries they look up.  Only the fields the projections
 * actually read are kept.
 */
module Settings {
  import opened Wrappers

  datatype PersonalDetails = PersonalDetails(
    currentAge: int,
    retirementAge: int,
    salary: real,
    takeHomeSalary: real,
    incomeTax: real,
    niContribution: real)

  datatype AccountBalances = AccountBalances(
    lisaBalance: real,
    isaBalance: real,
    sippBalance: real,
    workplacePensionBalance: real)

  /** Yearly contributions, all net of tax relief. */
  datatype ContributionSettings = ContributionSettings(
    lisaContribution: real,
    isaContribution: real,
    workplaceErContribution: real,
    workplaceEeContribution: real,
    sippContribution: real)

  /** Where the LISA money goes once LISA contributions stop. */
  datatype Post50ContributionSettings = Post50ContributionSettings(
    post50LisaToIsaContribution: real,
    post50LisaToSippContribution: real)

  datatype ExpectedReturnsAndInflation = ExpectedReturnsAndInflation(
    expectedLisaAnnualReturn: real,
    expectedIsaAnnualReturn: real,
    expectedWorkplaceAnnualReturn: real,
    expectedSippAnnualReturn: real,
    expectedInflation: real)

  datatype PostRetirementSettings = PostRetirementSettings(
    withdrawalTodayAmount: real,
    lisaTargetedWithdrawalPercentage: real,
    isaTargetedWithdrawalPercentage: real,
    taxfreePensionTargetedWithdrawalPercentage: real,
    taxablePensionTargetedWithdrawalPercentage: real,
    lisaWithdrawalAge: int,
    isaWithdrawalAge: int,
    taxfreePensionWithdrawalAge: int,
    taxablePensionWithdrawalAge: int,
    expectedPostRetirementLisaAnnualReturn: real,
    expectedPostRetirementIsaAnnualReturn: real,
    expectedPostRetirementPensionAnnualReturn: real)

  datatype ProfileSettings = ProfileSettings(
    taxYear: int,
    scotland: bool,
    personalDetails: PersonalDetails,
    accountBalances: AccountBalances,
    contributionSettings: ContributionSettings,
    post50ContributionSettings: Post50ContributionSettings,
    expectedReturnsAndInflation: ExpectedReturnsAndInflation,
    postRetirementSettings: PostRetirementSettings)

  /** The limits entry of the profile's tax year; a missing key falls back to its default. */
  datatype Limits = Limits(lisaMaximumContributionAge: Option<int>, lumpSumAllowance: Option<real>)

  /** The state-pension entry of the profile's tax year. */
  datatype StatePensionEntry = StatePensionEntry(statePensionAge: Option<int>, statePensionPerYear: Option<real>)

  const DefaultLisaMaximumContributionAge: int := 50
  const DefaultLumpSumAllowance: real := 268275.0
  const DefaultStatePensionAge: int := 67
  const DefaultStatePensionPerYear: real := 11502.0

  function LisaMaximumContributionAge(limits: Limits): (r: int)
    ensures limits.lisaMaximumContributionAge.None? ==> r == DefaultLisaMaximumContributionAge
    ensures limits.lisaMaximumContributionAge.Some? ==> r == limits.lisaMaximumContributionAge.value
  {
    limits.lisaMaximumContributionAge.GetOr(DefaultLisaMaximumContributionAge)
  }

  function LumpSumAllowance(limits: Limits): (r: real)
    ensures limits.lumpSumAllowance.None? ==> r == DefaultLumpSumAllowance
    ensures limits.lumpSumAllowance.Some? ==> r == limits.lumpSumAllowance.value
  {
    limits.lumpSumAllowance.GetOr(DefaultLumpSumAllowance)
  }

  function StatePensionAge(entry: StatePensionEntry): (r: int)
    ensures entry.statePensionAge.None? ==> r == DefaultStatePensionAge
    ensures entry.statePensionAge.Some? ==> r == entry.statePensionAge.value
  {
    entry.statePensionAge.GetOr(DefaultStatePensionAge)
  }

  function StatePensionPerYear(entry: StatePensionEntry): (r: real)
    ensures entry.statePensionPerYear.None? ==> r == DefaultStatePensionPerYear
    ensures entry.statePensionPerYear.Some? ==> r == entry.statePensionPerYear.value
  {
    entry.statePensionPerYear.GetOr(DefaultStatePensionPerYear)
  }
}
