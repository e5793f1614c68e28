# Planwise money arithmetic in Dafny

A model of the sequential money arithmetic of Planwise, a UK retirement
planner. It covers four pieces:

- **Income tax** (`tax.dfy`). The lookup of a region's bands and personal
  allowance for a tax year, and the progressive band walk of
  `calculate_income_tax`. Also the bounded bisection of
  `calculate_gross_from_take_home`, which finds the gross income that nets a
  wanted take-home amount. It can lower the personal allowance by a state
  pension.
- **National Insurance** (`ni.py` → `ni.dfy`). The two-level lookup by year
  and category, and the band walk from zero with its early `break`.
- **Projections** (`core.py` → `investment.dfy`, `retirement.dfy`).
  - `InvestmentSimulator` is a class whose twelve balance and running-total
    fields are updated in place once per year of age, until retirement.
  - `RetirementSimulator` is a class. It splits the pension pot into tax-free
    and taxable parts. Then, for every year from retirement to age 100, it
    draws four balances down in today's money by a withdrawal plan, spreads
    any shortfall in at most three rounds, and applies growth.
- **Profile file names** (`profile.py` → `profile.dfy`). `safe_filename`
  (strip, substitute, collapse, truncate) and `profile_path`.

Shared pieces:

- `bands.dfy` holds the band type. A band's `threshold` is its upper bound.
  The top band is `Unbounded`, which the data files write as `"inf"`.
- `settings.dfy` holds the profile record with exactly the fields the
  projections read. It also holds the limits and state-pension table entries,
  with the defaults the code falls back on: LISA contributions stop at 50, a
  lump-sum allowance of 268,275, a state-pension age of 67 and 11,502 a year.
- `wrappers.dfy` holds `Option` and `Result`.

Amounts are `real`. Every loop of the source is a `method` with a `while` or
`for` loop. Each is proved equal to a recursive specification function, and
the properties are proved as lemmas about that function. The tax and NI
tables are parameters, so a missing year, region or category is an error
value, not a precondition. The limits and state-pension tables are not: the
model takes the year's entry (or its absence) as a parameter.

Where the code and its surrounding description disagree, the model follows
the code:

- The field comment in `src/planwise/databases.py:64` calls a threshold the
  "lower threshold". The band walk at `src/planwise/tax.py:52` and the tests
  treat it as the band's upper bound.
- `core.py` does no clipping to annual allowances (ISA, LISA, pension), no
  salary inflation, no qualifying-earnings band and no rate-versus-amount
  interpretation of contributions. Contributions are fixed yearly amounts,
  and salary, take-home pay, income tax and NI are copied unchanged into
  every row. The model does the same. `tests/test_core.py` and `cli.py`
  target an older interface and are not followed.
- The projection methods raise no income, rate or age errors. A non-positive
  number of years simply gives no rows.

Some behaviour is modelled as written even though it looks surprising:

- "Total Withdrawal After Tax" is the total withdrawal, which already
  includes the state pension, with the state pension added a second time
  (`src/planwise/core.py:399-406`). `Retirement.YearRow` states it.
- The first draw-down pass charges the taxable pension the gross amount. It
  records the net amount as withdrawn unless the pot runs out.
- The tax-free pension's return is credited to the taxable pension.
- Redistribution stops after three rounds, possibly with a shortfall left.

## Model

| member | source | states |
|---|---|---|
| `Tax.GetTaxBands` | src/planwise/tax.py:13-29 | succeeds exactly when the year and region are in the table, returning that entry; an unknown year is the "No tax band data for year" error, a year without the region a separate error |
| `Tax.TaxDue` | src/planwise/tax.py:43-57 | the band loop computes the band-walk tax of `max(income - PA, 0)`; income at or below the allowance pays 0 |
| `Tax.CalculateIncomeTax` | src/planwise/tax.py:32-57 | fails exactly when the band lookup fails, with its error; otherwise returns the band-walk tax of the looked-up bands and allowance |
| `Tax.TaxWalkConserves` | src/planwise/tax.py:44-55 | income taxed band by band plus income left equals the taxable income, what is left is never negative, and with an unbounded band everything is taxed |
| `Tax.NoTaxWithinAllowance` | src/planwise/tax.py:44-51 | income at or below the personal allowance pays no tax |
| `Tax.TaxWalkClosedForm` | src/planwise/tax.py:48-55 | for income ending inside band k, the walk from any floor is every lower band in full at its rate plus the part inside band k at band k's rate |
| `Tax.TaxClosedForm` | src/planwise/tax.py:44-55 | tax is the sum of the full bands below band k times their rates plus (income - lower edge of k) times band k's rate, for ascending thresholds |
| `Tax.TaxNonNegative` | src/planwise/tax.py:45-55 | with thresholds ascending from the allowance and non-negative rates, tax is never negative |
| `Tax.TaxMonotone` | tests/test_tax.py:146-157 | with ascending thresholds and non-negative rates, more income never means less tax |
| `Tax.ReducedAllowanceIsNeutral` | src/planwise/tax.py:79-107 | when the first band is the allowance at 0%, walking from a lowered allowance (the state-pension branch) gives the same tax |
| `Tax.UkBands2025Ascending` | tests/test_tax.py:23-38 | the 2025/26 rest-of-UK table is ordered with non-negative rates |
| `Tax.BasicRateExample` | tests/test_tax.py:72-77 | 20,000 pays (20,000 - 12,570) x 20% |
| `Tax.HigherRateExample` | tests/test_tax.py:79-94 | 60,000 pays the whole basic band plus 40% above 50,270 |
| `Tax.AdditionalRateExample` | tests/test_tax.py:113-124 | 150,000 pays the basic, higher and additional bands |
| `Tax.ScottishBands2025Ascending` | tests/test_tax.py:40-51 | the seven-band Scottish 2025/26 table is ordered with non-negative rates |
| `Tax.ScottishExample` | tests/test_tax.py:96-111 | Scottish 30,000 pays the starter and basic bands in full plus 21% above 27,491 |
| `Tax.BisectSteps` | src/planwise/tax.py:88-114 | the number of halvings along the bisection's own branches, at most 20 less the steps already taken; the loop of `CalculateGrossFromTakeHome` runs exactly that many times |
| `Tax.BisectWithin` | src/planwise/tax.py:85-116 | the bisection's answer never leaves its starting bracket |
| `Tax.NegativeTakeHome` | src/planwise/tax.py:85-89 | for a negative take-home amount the loop never runs and the answer is the amount itself |
| `Tax.GrossBounds` | src/planwise/tax.py:79-116 | the gross income fails exactly when the lookup fails; for take-home >= 0 it lies in [0, 2 x take-home], for a negative take-home it is the take-home itself |
| `Tax.CalculateGrossFromTakeHome` | src/planwise/tax.py:64-116 | the while loop equals the bisection, runs exactly `BisectSteps` times (at most 20), keeps 0 <= low <= high <= 2 x take-home, and ends with low netting less than the target (or 0) and high netting at least the target (or its start) |
| `NationalInsurance.GetNiBands` | src/planwise/ni.py:13-30 | succeeds exactly when year and category are present; an unknown year and a known year with an unknown category are two distinct errors |
| `NationalInsurance.NiBandLoop` | src/planwise/ni.py:49-58 | the for loop with its `break` computes the NI band walk from 0 |
| `NationalInsurance.CalculateNi` | src/planwise/ni.py:33-60 | income <= 0 gives exactly 0 before any lookup; otherwise a failed lookup is the error and a successful one gives the band walk |
| `NationalInsurance.NoNiWithoutIncome` | src/planwise/ni.py:46-47 | zero or negative income pays no NI |
| `NationalInsurance.FirstBandNi` | src/planwise/ni.py:53-55 | positive income at or below the first threshold pays income x first rate |
| `NationalInsurance.NiWalkClosedForm` | src/planwise/ni.py:52-58 | income above the first k thresholds and covered by band k pays the k lower bands in full plus the non-negative part inside band k, without any ordering of thresholds |
| `NationalInsurance.NiWalkAboveAll` | src/planwise/ni.py:52-58 | with no unbounded band, income above every threshold pays every band in full |
| `NationalInsurance.NiClosedForm` | src/planwise/ni.py:52-58 | positive income inside band k pays every full lower band at its rate plus the partial band k |
| `NationalInsurance.NiAtThreshold` | src/planwise/ni.py:53-55 | income exactly at band k's threshold pays bands 0..k in full and nothing of band k + 1 |
| `NationalInsurance.NiNonNegative` | src/planwise/ni.py:52-58 | with thresholds ascending from 0 and non-negative rates NI is never negative |
| `NationalInsurance.NiMonotone` | src/planwise/ni.py:46-58 | with ascending thresholds and non-negative rates, more income never means less NI |
| `NationalInsurance.BelowFirstThresholdExample` | tests/test_ni.py:59-71 | on the two-band table [10,000 at 10%, unbounded at 20%], 5,000 and 10,000 pay income x 10% |
| `NationalInsurance.SecondBandExample` | tests/test_ni.py:74-88 | 15,000 pays 10,000 x 10% + 5,000 x 20% |
| `NationalInsurance.ThirdBandExample` | tests/test_ni.py:89-90 | 25,000 pays all three bands |
| `NationalInsurance.SecondThresholdExample` | tests/test_ni.py:105-119 | exactly 20,000 pays the first two bands and nothing at 30% |
| `Settings.LisaMaximumContributionAge` | src/planwise/core.py:72-74 | the limits entry's age, or 50 when it has none |
| `Settings.LumpSumAllowance` | src/planwise/core.py:260-262 | the limits entry's lump-sum allowance, or 268,275 |
| `Settings.StatePensionAge` | src/planwise/core.py:263-265 | the state-pension entry's age, or 67 |
| `Settings.StatePensionPerYear` | src/planwise/core.py:266-268 | the state-pension entry's yearly amount, or 11,502 |
| `Investment.ContributionRules` | src/planwise/core.py:71-132 | LISA net is the configured amount below the maximum LISA age and 0 from it on; bonus and pension relief are 25% of net, gross 1.25 x net; ISA and SIPP gain the post-50 amounts from that age on and equal their base amounts before |
| `Investment.LisaRedirection` | src/planwise/core.py:88-126 | crossing the maximum LISA age changes LISA + ISA + SIPP net by exactly the two redirected amounts less the stopped LISA contribution |
| `Investment.RefundBounds` | src/planwise/core.py:134-156 | the refund is `max(saved - relief, 0)`, so never negative; with ordered bands, non-negative rates and contributions it is at most the tax saved |
| `Investment.InvestmentSimulator.constructor` | src/planwise/core.py:22-46 | fixed inputs copied from the profile; balances from the profile, every running total 0 |
| `Investment.InvestmentSimulator.CalculateTaxReliefAndRefund` | src/planwise/core.py:134-156 | computes the relief and refund from the tax before and after the employee pension, or the lookup error |
| `Investment.InvestmentSimulator.GrowBalances` | src/planwise/core.py:159-177 | each balance becomes (old + gross contribution) x (1 + return), workplace receiving EE gross + ER; totals untouched |
| `Investment.InvestmentSimulator.AddToTotals` | src/planwise/core.py:179-189 | the cumulative net and gross fields gain the year's amounts; balances untouched |
| `Investment.InvestmentSimulator.AggregateReturns` | src/planwise/core.py:158-242 | the twelve fields become the next ledger and the returned columns are its aggregates |
| `Investment.InvestmentSimulator.YearRecord` | src/planwise/core.py:52-66 | one year's row and ledger step; on a failed tax lookup nothing changes |
| `Investment.InvestmentSimulator.Simulate` | src/planwise/core.py:48-69 | returns the specified rows and leaves the fields at the ledger after `retirement_age - current_age` years; no rows for a non-positive count; a lookup failure leaves the state unchanged |
| `Investment.RowsShape` | src/planwise/core.py:49-59 | exactly `retirement_age - current_age` rows with ages current, current + 1, ...; salary, take-home, income tax and NI copied into every row; each row's contributions, relief and aggregates are its year's |
| `Investment.LedgerTotals` | src/planwise/core.py:179-189 | the running totals after n years are the starting totals plus the sums of the rows' yearly net and gross amounts |
| `Investment.CumulativeSums` | src/planwise/core.py:179-222 | each row's cumulative fields are the sums of the yearly values so far; Portfolio Balance sums the four balances; Annual Net and Gross sum that row's values |
| `Investment.BalanceRecurrence` | src/planwise/core.py:158-177 | each row's balances are the previous row's plus the gross contribution, times one plus the return |
| `Investment.GrowNeverShrinks` | src/planwise/core.py:159-177 | one year's growth with non-negative inputs keeps every balance non-negative and at least what it was |
| `Investment.LedgerNonNegative` | src/planwise/core.py:158-177 | with non-negative starting balances, contributions and returns, balances stay non-negative |
| `Investment.BalancesNeverDecrease` | src/planwise/core.py:158-177 | with non-negative balances, contributions and returns, no balance goes down from one year to the next |
| `Retirement.InflationStep` | src/planwise/core.py:649-651 | the adjustment is 1 at the current age and grows by 1 + inflation per year of age |
| `Retirement.InflationNonZero` | src/planwise/core.py:649-651 | the adjustment is never 0, and is positive when 1 + inflation is |
| `Retirement.SplitPension` | src/planwise/core.py:274-283 | tax-free is min(25% of the pot, allowance) and tax-free + taxable = the pot |
| `Retirement.Unavailable` | src/planwise/core.py:596-624 | an account is flagged for redistribution exactly when the age is below its withdrawal age |
| `Retirement.CountSet` | src/planwise/core.py:628 | the number of flagged accounts is at most 4, is 4 exactly when all are flagged and 0 exactly when none are |
| `Retirement.PlanShares` | src/planwise/core.py:623-647 | a plan exists exactly when some account is open; a closed account gets 0, an open one its percentage plus an equal part of the closed ones' |
| `Retirement.PlanKeepsTotal` | src/planwise/core.py:627-647 | an existing plan's entries add up to the input percentages' total |
| `Retirement.PlanNonNegative` | src/planwise/core.py:639-647 | with non-negative percentages every plan entry is non-negative |
| `Retirement.PlanAvailableLater` | src/planwise/core.py:595-621 | accounts only open with age, so a plan that exists at one age exists at every later age |
| `Retirement.PlannedSplit` | src/planwise/core.py:368-387 | the planned withdrawals plus the taxable shortfall are the plan applied to what is left; the taxable withdrawal never exceeds its balance and the shortfall is non-negative |
| `Retirement.RoundsRun` | src/planwise/core.py:446-510 | the shortfall loop runs at most 3 rounds |
| `Retirement.DrawEffect` | src/planwise/core.py:408-444 | drawing from an open account exhausts it exactly when its balance is below the amount, then withdrawing the whole balance; otherwise the balance drops by the amount; the shortfall never falls |
| `Retirement.FirstDrawEffect` | src/planwise/core.py:408-444 | the first pass leaves every balance non-negative and an exhausted one at 0; each account's balance plus withdrawal is what it held (the taxable one charged the gross amount) |
| `Retirement.ShareOutEffect` | src/planwise/core.py:450-508 | one account's share-out keeps it sound, keeps balance + withdrawal and shortfall + withdrawal, never reopens it, and cuts the shortfall by at most what it could pay |
| `Retirement.RoundEffect` | src/planwise/core.py:449-508 | a round keeps accounts sound, only moves money from balance to withdrawal, and cuts the shortfall by at most the per-account share times the open accounts |
| `Retirement.RoundLeavesNoDebt` | src/planwise/core.py:446-510 | splitting a positive shortfall equally over the open accounts never drives it below 0 |
| `Retirement.RedistributeEffect` | src/planwise/core.py:446-510 | the shortfall loop keeps balances and the shortfall non-negative, never reopens an exhausted account and preserves shortfall + withdrawals |
| `Retirement.DrawdownAccounting` | src/planwise/core.py:408-510 | after the first pass and redistribution, each account's balance plus withdrawal is what it held (the taxable one charged gross when it did not run out), and shortfall + withdrawals is the planned total plus the tax on a pot that ran out |
| `Retirement.PlannedTotal` | src/planwise/core.py:363-387 | the planned withdrawals plus the taxable shortfall are the targets' total times the amount left after the state pension, or 0 when the state pension covers the target |
| `Retirement.DrawnSound` | src/planwise/core.py:408-510 | a year's draw-down never drives a today's-money balance below 0, whatever the balances before |
| `Retirement.YearDrawnAccounting` | src/planwise/core.py:363-510 | withdrawn plus still short is the targets' share of the target less the state pension, plus the tax when the taxable pot ran out; each account's old balance is split between what is left and what was withdrawn |
| `Retirement.GrowthInTodaysMoney` | src/planwise/core.py:512-556 | in today's money LISA and ISA grow by their returns, the tax-free pension stays, the taxable pension grows on both pension parts; nominal = today x adjustment |
| `Retirement.GrowthKeepsNonNegative` | src/planwise/core.py:521-535 | growth keeps balances non-negative when LISA/ISA returns are >= -100% and the pension return >= 0 |
| `Retirement.YearColumns` | src/planwise/core.py:512-593 | the reported balances are the drawn-down ones grown a year, the shortfall is non-negative and the total is today's balances summed |
| `Retirement.YearRow` | src/planwise/core.py:322-406 | a row's age, inflated target, state pension only from its age on, total withdrawal including the state pension and after-tax total adding it again |
| `Retirement.YearAfter` | src/planwise/core.py:512-556 | the balances a year leaves are those its row reports, nominal = today x adjustment |
| `Retirement.YearFacts` | src/planwise/core.py:319-335 | a year's row is for its age, pays the state pension only from its age, reports the balances the year leaves and is never short by a negative amount |
| `Retirement.RowChain` | src/planwise/core.py:319-335 | row j reports the balances that start year j + 1 |
| `Retirement.RowsShape` | src/planwise/core.py:317-335 | exactly n rows for ages retirement, retirement + 1, ...; state pension only from its age; non-negative shortfall; each row's balances start the next year |
| `Retirement.RetirementSimulator.constructor` | src/planwise/core.py:246-300 | balances from the last investment row, the pension split into tax-free and taxable parts, everything also in today's money |
| `Retirement.RetirementSimulator.GetWithdrawPlan` | src/planwise/core.py:595-647 | the three loops compute the withdrawal plan, or none when every account is closed (the division by zero) |
| `Retirement.RetirementSimulator.PlanYear` | src/planwise/core.py:363-387 | the withdrawals planned from the fields are the planning function of the target left after the state pension and the taxable balance (whose properties `PlannedSplit` and `PlannedTotal` state) |
| `Retirement.RetirementSimulator.DrawAndGrow` | src/planwise/core.py:405-556 | the draw-down is the redistribution of the first draw from today's balances, and the new state is those balances grown |
| `Retirement.RetirementSimulator.FirstPass` | src/planwise/core.py:408-444 | the first pass over the four balances, as the first-draw function |
| `Retirement.RetirementSimulator.ShareOutAccount` | src/planwise/core.py:450-508 | one account's part of a redistribution round |
| `Retirement.RetirementSimulator.ShareOutRound` | src/planwise/core.py:450-508 | the loop over the four accounts performs one redistribution round, as the round function |
| `Retirement.RetirementSimulator.RedistributeShortfall` | src/planwise/core.py:446-510 | the bounded while loop equals the redistribution function and runs at most 3 rounds |
| `Retirement.RetirementSimulator.ApplyGrowth` | src/planwise/core.py:512-556 | the ten balance fields become the grown state |
| `Retirement.RetirementSimulator.CalculateAccountsWithdrawalAndIncomeTax` | src/planwise/core.py:360-593 | returns the year's columns and leaves the grown balances; no open account and a failed lookup are errors with the balances unchanged |
| `Retirement.RetirementSimulator.YearRecord` | src/planwise/core.py:319-335 | one pass of `simulate`: the year's row and the balances it leaves, or the error |
| `Retirement.RetirementSimulator.SimulateYear` | src/planwise/core.py:319-335 | one pass of the `simulate` loop extends the rows so far with the row of that year of age and leaves the balances of the projection one year further; only the first year can fail, with the plan or lookup error |
| `Retirement.RetirementSimulator.Simulate` | src/planwise/core.py:302-335 | no rows unless the targeted percentages sum to 1; otherwise the `100 - retirement_age` rows of the projection, failing only in the first year |
| `Profile.TrimStart` | src/planwise/profile.py:15 | leading whitespace removed: a suffix that starts with a non-space |
| `Profile.TrimEnd` | src/planwise/profile.py:15 | trailing whitespace removed: a prefix that ends with a non-space |
| `Profile.StripKeepsTrimmed` | src/planwise/profile.py:15 | a name without whitespace at either end is unchanged by stripping |
| `Profile.Substitute` | src/planwise/profile.py:12-16 | same length; each safe character kept, each other one becomes exactly one `_` |
| `Profile.SubstituteSpaces` | src/planwise/profile.py:12-16 | substitution leaves only safe characters and keeps exactly the spaces of the input |
| `Profile.SubstituteKeepsSafe` | src/planwise/profile.py:12-16 | a name of safe characters is unchanged by substitution |
| `Profile.StripIsSlice` | src/planwise/profile.py:15 | the stripped name is a slice of the input with no whitespace at either end |
| `Profile.CollapseNoDoubleSpaces` | src/planwise/profile.py:17 | collapsing leaves no two adjacent spaces |
| `Profile.CollapseFromInput` | src/planwise/profile.py:17 | collapsing never lengthens the name or adds a character |
| `Profile.CollapseKeepsSingleSpaces` | src/planwise/profile.py:17 | a name without two adjacent spaces is unchanged by collapsing |
| `Profile.CollapseKeepsNonSpaces` | src/planwise/profile.py:17 | collapsing removes only spaces; other characters stay in order |
| `Profile.CollapseDropsRepeat` | src/planwise/profile.py:17 | dropping one space of two adjacent spaces does not change the result, so every run of spaces collapses to exactly one space (with `CollapseKeepsSingleSpaces` this determines the output on every input) |
| `Profile.SafeFilenameShape` | src/planwise/profile.py:14-18 | at most 80 characters, all in `[A-Za-z0-9 _.-]`, no two adjacent spaces, no leading space |
| `Profile.SafeNameIsKept` | src/planwise/profile.py:14-18 | a name that is already safe, trimmed, single-spaced and at most 80 long is its own file name |
| `Profile.OnlySubstitution` | src/planwise/profile.py:14-18 | for a trimmed, single-spaced name the result is the substitution cut to 80 |
| `Profile.IdempotentWithoutTrailingSpace` | src/planwise/profile.py:14-18 | sanitising twice equals sanitising once when the first result does not end in a space |
| `Profile.TruncationLeavesTrailingSpace` | src/planwise/profile.py:15-18 | a counterexample to idempotence: a cut just after a space leaves a trailing space a second pass strips |
| `Profile.LongNameExample` | tests/test_profile.py:85 | "A" x 100 gives "A" x 80 |
| `Profile.DoubleSpaceExample` | src/planwise/profile.py:14-18 | "a  b" (two spaces) gives "a b" |
| `Profile.PunctuationExample` | tests/test_profile.py:84 | "Test Profile!@#" gives "Test Profile___" |
| `Profile.ProfilePathShape` | src/planwise/profile.py:20-21 | the path is in ".profiles", its file name is the sanitised name + ".json" with no `/`, and its stem is the sanitised name when that is non-empty (and ".json" when it is empty) |
| `Profile.ProfilePathExample` | tests/test_profile.py:88-92 | "TestProfile" maps to ".profiles/TestProfile.json" |

## Left out

- Streamlit UI, command-line interface, plotting, JSON loading of the tables and the profile save/load/list/delete functions are not part of this model; the tables and the profile are parameters.
- `st.warning` in `simulate` is modelled as returning no rows, and the `st.write` notice for tax-free withdrawals above 61,000 is dropped: both are display side effects.
- `lru_cache` on `calculate_gross_from_take_home` is not modelled: it changes no result.
- Floating point: amounts are exact reals, so rounding, `float("inf")` arithmetic and the exact `!= 1.0` test on a float sum are modelled on reals. No claim is made about the bisection's accuracy; with 20 iterations the 0.001 tolerance is not guaranteed.
- The `LIMITS_DB[str(year)]` and `STATE_PENSION_DB[str(year)]` lookups raise `KeyError` for a missing year; the model takes the year's entry as a parameter and models only the missing-key defaults.
- Retirement.RetirementSimulator.constructor: requires a non-empty investment projection, because the source's `iloc[-1]` on an empty frame raises an error the model does not carry.
- Retirement.RetirementSimulator.constructor: requires `1 + inflation != 0`, because the source then divides by a zero inflation adjustment (or raises in `0.0 ** -n`); that failure is not modelled.
- Retirement.InflationStep: stated only for `1 + inflation != 0`, for the same reason.
- Tax.TaxNonNegative: needs thresholds ascending from the personal allowance; with a band narrower than the previous one the source's walk can produce negative band income, so no unconditional claim holds.
- Tax.TaxMonotone: needs the same ordering and non-negative rates.
- NationalInsurance.NiNonNegative: needs thresholds ascending from 0 and non-negative rates.
- Investment.BalancesNeverDecrease: needs non-negative balances, contributions and returns; negative returns do shrink balances.
- Retirement.GrowthKeepsNonNegative: needs LISA and ISA returns of at least -100% and a non-negative pension return, since a negative pension return is charged to the taxable pot for the tax-free part too.
- After an unbounded tax band the walk keeps its lower edge instead of setting it to infinity; nothing is left to tax then, so the next step stops either way.
