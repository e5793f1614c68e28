/**
 * The post-retirement projection: one step per year of age from the
 * retirement age up to (not including) age 100.  The final pension pot is
 * split into a tax-free and a taxable part; each year a withdrawal plan shares
 * the targeted withdrawal between the accounts that may already be drawn on,
 * the four balances in today's money are drawn down (the taxable pension by
 * the gross amount that nets the wanted withdrawal), any shortfall is spread
 * over the accounts not yet exhausted in at most three rounds, and the
 * balances grow by the post-retirement returns.
 */
module Retirement {
  import opened Wrappers
  import opened Bands
  import opened Tax
  import opened Settings
  import Investment

  // ---------------------------------------------------------------------------
  // Accounts

  /** The decumulation accounts in their fixed order: LISA, ISA, tax-free pension, taxable pension. */
  const AccountCount: nat := 4

  /** One amount per decumulation account. */
  datatype Accounts = Accounts(lisa: real, isa: real, taxfreePension: real, taxablePension: real)
  {
    /** The amount of the `k`-th account in the fixed order. */
    function Get(k: nat): real
      requires k < AccountCount
    {
      if k == 0 then lisa else if k == 1 then isa else if k == 2 then taxfreePension else taxablePension
    }

    /** The same amounts with the `k`-th replaced by `v`. */
    function With(k: nat, v: real): (r: Accounts)
      requires k < AccountCount
      ensures r.Get(k) == v
      ensures forall j :: 0 <= j < AccountCount && j != k ==> r.Get(j) == Get(j)
    {
      if k == 0 then this.(lisa := v)
      else if k == 1 then this.(isa := v)
      else if k == 2 then this.(taxfreePension := v)
      else this.(taxablePension := v)
    }

    function Total(): real
    {
      lisa + isa + taxfreePension + taxablePension
    }

    function Scaled(f: real): Accounts
    {
      Accounts(lisa * f, isa * f, taxfreePension * f, taxablePension * f)
    }
  }

  const ZeroAccounts: Accounts := Accounts(0.0, 0.0, 0.0, 0.0)

  ghost predicate NonNegativeAccounts(a: Accounts)
  {
    a.lisa >= 0.0 && a.isa >= 0.0 && a.taxfreePension >= 0.0 && a.taxablePension >= 0.0
  }

  /** One flag per account, in the fixed order. */
  type Flags = f: seq<bool> | |f| == AccountCount witness [false, false, false, false]

  const NoFlags: Flags := [false, false, false, false]

  function Bit(b: bool): nat
  {
    if b then 1 else 0
  }

  /** How many flags are set (`sum` of the flag list). */
  function CountSet(f: Flags): (n: nat)
    ensures n <= AccountCount
    ensures n == AccountCount <==> (forall k :: 0 <= k < AccountCount ==> f[k])
    ensures n == 0 <==> (forall k :: 0 <= k < AccountCount ==> !f[k])
  {
    Bit(f[0]) + Bit(f[1]) + Bit(f[2]) + Bit(f[3])
  }

  // ---------------------------------------------------------------------------
  // Inflation

  function Power(b: real, n: nat): real
  {
    if n == 0 then 1.0 else b * Power(b, n - 1)
  }

  lemma PowerNonZero(b: real, n: nat)
    requires b != 0.0
    ensures Power(b, n) != 0.0
  {
  }

  lemma {:induction false} PowerPositive(b: real, n: nat)
    requires b > 0.0
    ensures Power(b, n) > 0.0
  {
    if n > 0 {
      PowerPositive(b, n - 1);
    }
  }

  /**
   * `_inflation_adjustment`: prices grow by `1 + inflation` a year, counted
   * from the current age; before it the factor is the reciprocal power.  A
   * factor of 0 that would be divided by is excluded by the requirement.
   */
  function InflationAdjustment(inflation: real, currentAge: int, age: int): real
    requires 1.0 + inflation != 0.0
  {
    var years := age - currentAge;
    if years >= 0 then Power(1.0 + inflation, years)
    else
      PowerNonZero(1.0 + inflation, -years);
      1.0 / Power(1.0 + inflation, -years)
  }

  /** The factor is 1 at the current age and grows by `1 + inflation` with every year of age. */
  lemma InflationStep(inflation: real, currentAge: int, age: int)
    requires 1.0 + inflation != 0.0
    ensures InflationAdjustment(inflation, currentAge, currentAge) == 1.0
    ensures InflationAdjustment(inflation, currentAge, age + 1)
         == InflationAdjustment(inflation, currentAge, age) * (1.0 + inflation)
  {
    var b := 1.0 + inflation;
    var years := age - currentAge;
    if years < -1 {
      var n := -years;
      var shorter := Power(b, n - 1);
      PowerNonZero(b, n - 1);
      assert Power(b, n) == b * shorter;
      assert (age + 1) - currentAge == -(n - 1);
      assert 1.0 / (b * shorter) * b == 1.0 / shorter;
    } else if years == -1 {
      assert Power(b, 1) == b;
    }
  }

  /** The factor is never 0, and it is positive when prices do not fall by 100% or more. */
  lemma InflationNonZero(inflation: real, currentAge: int, age: int)
    requires 1.0 + inflation != 0.0
    ensures InflationAdjustment(inflation, currentAge, age) != 0.0
    ensures 1.0 + inflation > 0.0 ==> InflationAdjustment(inflation, currentAge, age) > 0.0
  {
    var years := age - currentAge;
    var n := if years >= 0 then years else -years;
    PowerNonZero(1.0 + inflation, n);
    if 1.0 + inflation > 0.0 {
      PowerPositive(1.0 + inflation, n);
    }
  }

  // ---------------------------------------------------------------------------
  // The pension split at retirement

  const TaxFreeShare: real := 0.25

  datatype PensionSplit = PensionSplit(taxfree: real, taxable: real)

  /**
   * A quarter of the pension pot is tax free, but no more than the (inflated)
   * lump-sum allowance; the rest is taxable.
   */
  function SplitPension(pension: real, allowance: real): (r: PensionSplit)
    ensures r.taxfree + r.taxable == pension
    ensures r.taxfree <= pension * TaxFreeShare && r.taxfree <= allowance
    ensures r.taxfree == pension * TaxFreeShare || r.taxfree == allowance
    ensures pension >= 0.0 && allowance >= 0.0 ==> 0.0 <= r.taxfree <= r.taxable
  {
    var taxfree := Min(pension * TaxFreeShare, allowance);
    PensionSplit(taxfree, pension - taxfree)
  }

  // ---------------------------------------------------------------------------
  // The withdrawal plan

  /** The targeted withdrawal percentages, one per account. */
  function Targets(s: PostRetirementSettings): Accounts
  {
    Accounts(s.lisaTargetedWithdrawalPercentage, s.isaTargetedWithdrawalPercentage,
             s.taxfreePensionTargetedWithdrawalPercentage, s.taxablePensionTargetedWithdrawalPercentage)
  }

  /** The age from which the `k`-th account may be drawn on. */
  function WithdrawalAge(s: PostRetirementSettings, k: nat): int
    requires k < AccountCount
  {
    if k == 0 then s.lisaWithdrawalAge
    else if k == 1 then s.isaWithdrawalAge
    else if k == 2 then s.taxfreePensionWithdrawalAge
    else s.taxablePensionWithdrawalAge
  }

  /** The accounts not yet open for withdrawal at `age`: their share is redistributed. */
  function Unavailable(s: PostRetirementSettings, age: int): (f: Flags)
    ensures forall k :: 0 <= k < AccountCount ==> f[k] == (age < WithdrawalAge(s, k))
  {
    [age < s.lisaWithdrawalAge, age < s.isaWithdrawalAge,
     age < s.taxfreePensionWithdrawalAge, age < s.taxablePensionWithdrawalAge]
  }

  /** The percentages of the flagged accounts among the first `k`. */
  function FlaggedSum(t: Accounts, f: Flags, k: nat): real
    requires k <= AccountCount
  {
    if k == 0 then 0.0 else FlaggedSum(t, f, k - 1) + (if f[k - 1] then t.Get(k - 1) else 0.0)
  }

  /** What each open account receives on top of its own percentage. */
  function ShareOfUnavailable(t: Accounts, f: Flags): real
  {
    var n := CountSet(f);
    if 0 < n < AccountCount then FlaggedSum(t, f, AccountCount) / (AccountCount - n) as real else 0.0
  }

  /** The plan's entry for each account: nothing for a closed account, its own percentage plus the share otherwise. */
  function PlanEntries(t: Accounts, f: Flags): Accounts
  {
    var share := ShareOfUnavailable(t, f);
    Accounts(if f[0] then 0.0 else t.lisa + share, if f[1] then 0.0 else t.isa + share,
             if f[2] then 0.0 else t.taxfreePension + share, if f[3] then 0.0 else t.taxablePension + share)
  }

  /**
   * `_get_withdraw_plan` as a value: the share of the closed accounts is
   * divided by the number of open ones, which fails (a division by zero) when
   * every account is closed.
   */
  function WithdrawPlan(t: Accounts, f: Flags): Option<Accounts>
  {
    if CountSet(f) == AccountCount then None else Some(PlanEntries(t, f))
  }

  lemma FlaggedSumOfAll(t: Accounts, f: Flags)
    ensures FlaggedSum(t, f, AccountCount)
         == (if f[0] then t.lisa else 0.0) + (if f[1] then t.isa else 0.0)
            + (if f[2] then t.taxfreePension else 0.0) + (if f[3] then t.taxablePension else 0.0)
  {
    assert FlaggedSum(t, f, 1) == (if f[0] then t.lisa else 0.0);
    assert FlaggedSum(t, f, 3) == FlaggedSum(t, f, 2) + (if f[2] then t.taxfreePension else 0.0);
  }

  /**
   * There is a plan exactly when some account is open; a closed account gets
   * nothing and an open one its own percentage plus an equal part of the
   * closed accounts' percentages.
   */
  lemma PlanShares(t: Accounts, f: Flags)
    ensures WithdrawPlan(t, f).None? <==> (forall k :: 0 <= k < AccountCount ==> f[k])
    ensures forall k :: 0 <= k < AccountCount ==>
              PlanEntries(t, f).Get(k) == (if f[k] then 0.0 else t.Get(k) + ShareOfUnavailable(t, f))
    ensures 0 < CountSet(f) < AccountCount ==>
              ShareOfUnavailable(t, f) * (AccountCount - CountSet(f)) as real == FlaggedSum(t, f, AccountCount)
    ensures CountSet(f) == 0 ==> ShareOfUnavailable(t, f) == 0.0
  {
  }

  /** Redistribution keeps the total: an available plan shares out exactly the targeted percentages. */
  lemma PlanKeepsTotal(t: Accounts, f: Flags)
    requires WithdrawPlan(t, f).Some?
    ensures WithdrawPlan(t, f).value.Total() == t.Total()
  {
    FlaggedSumOfAll(t, f);
    var n := CountSet(f);
    var share := ShareOfUnavailable(t, f);
    var size := FlaggedSum(t, f, AccountCount);
    if n == 1 {
      assert share * 3.0 == size;
    } else if n == 2 {
      assert share * 2.0 == size;
    } else if n == 3 {
      assert share == size;
    }
  }

  /** With non-negative percentages every entry of the plan is non-negative. */
  lemma PlanNonNegative(t: Accounts, f: Flags)
    requires NonNegativeAccounts(t)
    ensures NonNegativeAccounts(PlanEntries(t, f))
  {
    FlaggedSumOfAll(t, f);
  }

  /** An account open at some age stays open at every later age, so a plan that exists stays available. */
  lemma PlanAvailableLater(s: PostRetirementSettings, t: Accounts, age: int, later: int)
    requires age <= later
    requires WithdrawPlan(t, Unavailable(s, age)).Some?
    ensures WithdrawPlan(t, Unavailable(s, later)).Some?
    ensures forall k :: 0 <= k < AccountCount ==> Unavailable(s, later)[k] ==> Unavailable(s, age)[k]
  {
    var k :| 0 <= k < AccountCount && !Unavailable(s, age)[k];
    assert !Unavailable(s, later)[k];
  }

  // ---------------------------------------------------------------------------
  // Drawing down the accounts

  /** The year's withdrawals as planned, and the part of the taxable one its balance cannot cover. */
  datatype Planned = Planned(withdrawals: Accounts, shortfall: real)

  /**
   * The plan applied to what the state pension leaves to withdraw: nothing
   * when it covers the whole target; otherwise each account its share, the
   * taxable pension capped at its balance with the excess counted short.
   */
  function PlannedWithdrawals(plan: Accounts, left: real, taxableToday: real): Planned
  {
    if left <= 0.0 then Planned(ZeroAccounts, 0.0)
    else
      var w := plan.Scaled(left);
      if w.taxablePension > taxableToday
      then Planned(w.(taxablePension := taxableToday), w.taxablePension - taxableToday)
      else Planned(w, 0.0)
  }

  /**
   * What is planned plus what is short is the plan applied to the amount left;
   * the taxable withdrawal never exceeds the taxable balance and the shortfall
   * is never negative.
   */
  lemma PlannedSplit(plan: Accounts, left: real, taxableToday: real)
    requires left > 0.0
    ensures var r := PlannedWithdrawals(plan, left, taxableToday);
            && r.withdrawals.lisa == plan.lisa * left && r.withdrawals.isa == plan.isa * left
            && r.withdrawals.taxfreePension == plan.taxfreePension * left
            && r.withdrawals.taxablePension + r.shortfall == plan.taxablePension * left
            && r.withdrawals.taxablePension <= taxableToday && r.shortfall >= 0.0
            && r.withdrawals.Total() + r.shortfall == plan.Total() * left
  {
  }

  /** One account during a year's draw-down: today's balance, the amount withdrawn, whether it is exhausted. */
  datatype Pot = Pot(balance: real, withdrawal: real, exhausted: bool)

  /** The four accounts during the draw-down, and the shortfall so far. */
  datatype Drawdown = Drawdown(lisa: Pot, isa: Pot, taxfreePension: Pot, taxablePension: Pot, shortfall: real)
  {
    function Balances(): Accounts
    {
      Accounts(lisa.balance, isa.balance, taxfreePension.balance, taxablePension.balance)
    }

    function Withdrawals(): Accounts
    {
      Accounts(lisa.withdrawal, isa.withdrawal, taxfreePension.withdrawal, taxablePension.withdrawal)
    }

    /** The account flags, in the fixed order. */
    function Exhausted(): Flags
    {
      [lisa.exhausted, isa.exhausted, taxfreePension.exhausted, taxablePension.exhausted]
    }

    /** The `k`-th account in the fixed order. */
    function PotAt(k: nat): Pot
      requires k < AccountCount
    {
      if k == 0 then lisa else if k == 1 then isa else if k == 2 then taxfreePension else taxablePension
    }

    /** Accounts not yet exhausted. */
    function Open(): nat
    {
      Bit(!lisa.exhausted) + Bit(!isa.exhausted) + Bit(!taxfreePension.exhausted) + Bit(!taxablePension.exhausted)
    }
  }

  /** An account and the shortfall after taking money from it. */
  datatype Taken = Taken(pot: Pot, shortfall: real)

  /**
   * Take `amount` from an account: from its balance when that is enough;
   * otherwise the whole balance is withdrawn, the rest is added to the
   * shortfall and the account is marked exhausted.
   */
  function Draw(pot: Pot, amount: real, shortfall: real): Taken
  {
    if pot.balance >= amount then Taken(pot.(balance := pot.balance - amount), shortfall)
    else Taken(Pot(0.0, pot.balance, true), shortfall - (pot.balance - amount))
  }

  /** The first pass: each account its planned amount, the taxable pension the gross amount. */
  function FirstDraw(today: Accounts, planned: Planned, gross: real): Drawdown
  {
    var w := planned.withdrawals;
    var lisa := Draw(Pot(today.lisa, w.lisa, false), w.lisa, planned.shortfall);
    var isa := Draw(Pot(today.isa, w.isa, false), w.isa, lisa.shortfall);
    var taxfree := Draw(Pot(today.taxfreePension, w.taxfreePension, false), w.taxfreePension, isa.shortfall);
    var taxable := Draw(Pot(today.taxablePension, w.taxablePension, false), gross, taxfree.shortfall);
    Drawdown(lisa.pot, isa.pot, taxfree.pot, taxable.pot, taxable.shortfall)
  }

  /** One account's part of a redistribution round: `per` more from it, or all that is left. */
  function ShareOut(pot: Pot, per: real, shortfall: real): Taken
  {
    if pot.exhausted then Taken(pot, shortfall)
    else if pot.balance >= per then Taken(Pot(pot.balance - per, pot.withdrawal + per, false), shortfall - per)
    else Taken(Pot(0.0, pot.withdrawal + pot.balance, true), shortfall - pot.balance)
  }

  /** The `k`-th account's part of a round. */
  function ShareOutAt(dd: Drawdown, per: real, k: nat): Drawdown
    requires k < AccountCount
  {
    if k == 0 then var t := ShareOut(dd.lisa, per, dd.shortfall); dd.(lisa := t.pot, shortfall := t.shortfall)
    else if k == 1 then var t := ShareOut(dd.isa, per, dd.shortfall); dd.(isa := t.pot, shortfall := t.shortfall)
    else if k == 2 then
      var t := ShareOut(dd.taxfreePension, per, dd.shortfall); dd.(taxfreePension := t.pot, shortfall := t.shortfall)
    else var t := ShareOut(dd.taxablePension, per, dd.shortfall); dd.(taxablePension := t.pot, shortfall := t.shortfall)
  }

  /** One redistribution round: every account in turn gives `per`, or all it has left. */
  function Round(dd: Drawdown, per: real): Drawdown
  {
    var lisa := ShareOut(dd.lisa, per, dd.shortfall);
    var isa := ShareOut(dd.isa, per, lisa.shortfall);
    var taxfree := ShareOut(dd.taxfreePension, per, isa.shortfall);
    var taxable := ShareOut(dd.taxablePension, per, taxfree.shortfall);
    Drawdown(lisa.pot, isa.pot, taxfree.pot, taxable.pot, taxable.shortfall)
  }

  /** The first `k` accounts' parts of a round. */
  function RoundPrefix(dd: Drawdown, per: real, k: nat): Drawdown
    requires k <= AccountCount
  {
    if k == 0 then dd else ShareOutAt(RoundPrefix(dd, per, k - 1), per, k - 1)
  }

  lemma RoundInParts(dd: Drawdown, per: real)
    ensures RoundPrefix(dd, per, AccountCount) == Round(dd, per)
  {
    var p1 := ShareOutAt(dd, per, 0);
    assert RoundPrefix(dd, per, 1) == p1;
    var p2 := ShareOutAt(p1, per, 1);
    assert RoundPrefix(dd, per, 2) == p2;
    var p3 := ShareOutAt(p2, per, 2);
    assert RoundPrefix(dd, per, 3) == p3;
  }

  const MaxRounds: nat := 3

  /**
   * The shortfall loop: while some account is open, something is short and
   * fewer than three rounds have run, share the shortfall equally among the
   * open accounts.
   */
  function Redistribute(dd: Drawdown, round: nat): Drawdown
    requires round <= MaxRounds
    decreases MaxRounds - round
  {
    if dd.Open() > 0 && dd.shortfall > 0.0 && round < MaxRounds
    then Redistribute(Round(dd, dd.shortfall / dd.Open() as real), round + 1)
    else dd
  }

  /** The number of rounds the shortfall loop runs from round `round` on. */
  function RoundsRun(dd: Drawdown, round: nat): (n: nat)
    requires round <= MaxRounds
    ensures n <= MaxRounds - round
    decreases MaxRounds - round
  {
    if dd.Open() > 0 && dd.shortfall > 0.0 && round < MaxRounds
    then 1 + RoundsRun(Round(dd, dd.shortfall / dd.Open() as real), round + 1)
    else 0
  }

  /** One round of the shortfall loop, with the share each open account gives named `per`. */
  lemma RedistributeStep(dd: Drawdown, per: real, round: nat)
    requires round < MaxRounds && dd.Open() > 0 && dd.shortfall > 0.0
    requires per == dd.shortfall / dd.Open() as real
    ensures Redistribute(dd, round) == Redistribute(Round(dd, per), round + 1)
    ensures RoundsRun(dd, round) == 1 + RoundsRun(Round(dd, per), round + 1)
  {
  }

  /** The share of a shortfall among the open accounts, with its parts named. */
  lemma SameShare(shortfall: real, available: nat, dd: Drawdown)
    requires available > 0 && shortfall == dd.shortfall && available == dd.Open()
    ensures shortfall / available as real == dd.shortfall / dd.Open() as real
  {
  }

  // ---------------------------------------------------------------------------
  // Properties of the draw-down

  /** No balance is negative and an exhausted account holds nothing. */
  ghost predicate PotSound(pot: Pot)
  {
    pot.balance >= 0.0 && (pot.exhausted ==> pot.balance == 0.0)
  }

  ghost predicate DrawdownSound(dd: Drawdown)
  {
    PotSound(dd.lisa) && PotSound(dd.isa) && PotSound(dd.taxfreePension) && PotSound(dd.taxablePension)
  }

  /** Drawing leaves a sound account and never lowers the shortfall. */
  lemma DrawEffect(pot: Pot, amount: real, shortfall: real)
    requires !pot.exhausted
    ensures var r := Draw(pot, amount, shortfall);
            && PotSound(r.pot)
            && r.shortfall >= shortfall
            && (r.pot.exhausted <==> pot.balance < amount)
            && (r.pot.exhausted ==> r.pot.withdrawal == pot.balance)
            && (!r.pot.exhausted ==> r.pot.balance == pot.balance - amount && r.pot.withdrawal == pot.withdrawal)
            && r.shortfall + r.pot.withdrawal
               == shortfall + pot.withdrawal + (if r.pot.exhausted then amount - pot.withdrawal else 0.0)
  {
  }

  /**
   * The first pass leaves every account sound; LISA, ISA and the tax-free
   * pension keep their balance plus withdrawal, the taxable pension is
   * charged the gross amount; what is short plus what is withdrawn is what
   * was planned, plus the tax when the taxable pension ran out.
   */
  lemma FirstDrawEffect(today: Accounts, planned: Planned, gross: real)
    ensures var r := FirstDraw(today, planned, gross);
            var w := planned.withdrawals;
            && DrawdownSound(r)
            && r.lisa.balance + r.lisa.withdrawal == today.lisa
            && r.isa.balance + r.isa.withdrawal == today.isa
            && r.taxfreePension.balance + r.taxfreePension.withdrawal == today.taxfreePension
            && (r.taxablePension.exhausted ==> r.taxablePension.withdrawal == today.taxablePension)
            && (!r.taxablePension.exhausted ==> r.taxablePension.balance == today.taxablePension - gross
                                                && r.taxablePension.withdrawal == w.taxablePension)
            && r.shortfall + r.Withdrawals().Total()
               == planned.shortfall + w.Total()
                  + (if r.taxablePension.exhausted then gross - w.taxablePension else 0.0)
            && r.shortfall >= planned.shortfall
  {
    var w := planned.withdrawals;
    var lisa := Draw(Pot(today.lisa, w.lisa, false), w.lisa, planned.shortfall);
    var isa := Draw(Pot(today.isa, w.isa, false), w.isa, lisa.shortfall);
    var taxfree := Draw(Pot(today.taxfreePension, w.taxfreePension, false), w.taxfreePension, isa.shortfall);
    var taxable := Draw(Pot(today.taxablePension, w.taxablePension, false), gross, taxfree.shortfall);
    DrawEffect(Pot(today.lisa, w.lisa, false), w.lisa, planned.shortfall);
    DrawEffect(Pot(today.isa, w.isa, false), w.isa, lisa.shortfall);
    DrawEffect(Pot(today.taxfreePension, w.taxfreePension, false), w.taxfreePension, isa.shortfall);
    DrawEffect(Pot(today.taxablePension, w.taxablePension, false), gross, taxfree.shortfall);
  }

  /** An account's part of a round keeps it sound and only moves money from its balance to its withdrawal. */
  lemma ShareOutEffect(pot: Pot, per: real, shortfall: real)
    requires per >= 0.0 && PotSound(pot)
    ensures var r := ShareOut(pot, per, shortfall);
            && PotSound(r.pot)
            && r.pot.balance + r.pot.withdrawal == pot.balance + pot.withdrawal
            && r.shortfall + r.pot.withdrawal == shortfall + pot.withdrawal
            && (pot.exhausted ==> r.pot.exhausted)
            && r.shortfall >= shortfall - Cost(pot, per)
  {
  }

  /** What a round does, from its `k`-th account on, as seen in the totals. */
  ghost predicate RoundKeeps(dd: Drawdown, r: Drawdown)
  {
    && DrawdownSound(r)
    && r.lisa.balance + r.lisa.withdrawal == dd.lisa.balance + dd.lisa.withdrawal
    && r.isa.balance + r.isa.withdrawal == dd.isa.balance + dd.isa.withdrawal
    && r.taxfreePension.balance + r.taxfreePension.withdrawal
       == dd.taxfreePension.balance + dd.taxfreePension.withdrawal
    && r.taxablePension.balance + r.taxablePension.withdrawal
       == dd.taxablePension.balance + dd.taxablePension.withdrawal
    && (dd.lisa.exhausted ==> r.lisa.exhausted) && (dd.isa.exhausted ==> r.isa.exhausted)
    && (dd.taxfreePension.exhausted ==> r.taxfreePension.exhausted)
    && (dd.taxablePension.exhausted ==> r.taxablePension.exhausted)
    && r.shortfall + r.Withdrawals().Total() == dd.shortfall + dd.Withdrawals().Total()
  }

  lemma RoundKeepsTransitive(a: Drawdown, b: Drawdown, c: Drawdown)
    requires RoundKeeps(a, b) && RoundKeeps(b, c)
    ensures RoundKeeps(a, c)
  {
  }

  lemma RoundKeepsSelf(dd: Drawdown)
    requires DrawdownSound(dd)
    ensures RoundKeeps(dd, dd)
  {
  }

  /** `per` added up `n` times. */
  function Times(per: real, n: nat): real
  {
    if n == 0 then 0.0 else per + Times(per, n - 1)
  }

  /** What an account can take off the shortfall in a round: `per` when it is open, nothing otherwise. */
  function Cost(pot: Pot, per: real): real
  {
    if pot.exhausted then 0.0 else per
  }

  lemma CostsOfOpen(dd: Drawdown, per: real)
    ensures Cost(dd.lisa, per) + Cost(dd.isa, per) + Cost(dd.taxfreePension, per) + Cost(dd.taxablePension, per)
         == Times(per, dd.Open())
  {
    assert Times(per, 1) == per;
    assert Times(per, 2) == per + per;
    assert Times(per, 3) == per + per + per;
    assert Times(per, 4) == per + per + per + per;
  }

  /**
   * A round keeps the accounts sound, moves money only from balances to
   * withdrawals, and lowers the shortfall by at most `per` for each open
   * account.
   */
  lemma RoundEffect(dd: Drawdown, per: real)
    requires per >= 0.0 && DrawdownSound(dd)
    ensures var r := Round(dd, per);
            && RoundKeeps(dd, r)
            && r.shortfall >= dd.shortfall - Times(per, dd.Open())
  {
    var lisa := ShareOut(dd.lisa, per, dd.shortfall);
    var isa := ShareOut(dd.isa, per, lisa.shortfall);
    var taxfree := ShareOut(dd.taxfreePension, per, isa.shortfall);
    ShareOutEffect(dd.lisa, per, dd.shortfall);
    ShareOutEffect(dd.isa, per, lisa.shortfall);
    ShareOutEffect(dd.taxfreePension, per, isa.shortfall);
    ShareOutEffect(dd.taxablePension, per, taxfree.shortfall);
    CostsOfOpen(dd, per);
  }

  /** Cutting `s` into `n` equal parts and adding them up again gives `s`. */
  lemma EqualParts(s: real, n: nat)
    requires 0 < n <= AccountCount
    ensures Times(s / n as real, n) == s
  {
    var per := s / n as real;
    assert Times(per, 1) == per;
    assert Times(per, 2) == per + per;
    assert Times(per, 3) == per + per + per;
    if n == 2 {
      assert per == s / 2.0;
    } else if n == 3 {
      assert per == s / 3.0;
    } else if n == 4 {
      assert per == s / 4.0;
      assert Times(per, 4) == per + per + per + per;
    }
  }

  /** A full round takes no more than the shortfall it shares out. */
  lemma RoundLeavesNoDebt(dd: Drawdown)
    requires DrawdownSound(dd) && dd.Open() > 0 && dd.shortfall > 0.0
    ensures var r := Round(dd, dd.shortfall / dd.Open() as real);
            RoundKeeps(dd, r) && r.shortfall >= 0.0
  {
    var n := dd.Open();
    RoundEffect(dd, dd.shortfall / n as real);
    EqualParts(dd.shortfall, n);
  }

  /**
   * The shortfall loop keeps the accounts sound and the shortfall
   * non-negative, only moves money from an account's balance to its
   * withdrawal, leaves the shortfall plus the withdrawals unchanged and never
   * reopens an exhausted account.
   */
  lemma {:induction false} RedistributeEffect(dd: Drawdown, round: nat)
    requires round <= MaxRounds && DrawdownSound(dd) && dd.shortfall >= 0.0
    ensures var r := Redistribute(dd, round);
            RoundKeeps(dd, r) && r.shortfall >= 0.0
    decreases MaxRounds - round
  {
    if dd.Open() > 0 && dd.shortfall > 0.0 && round < MaxRounds {
      var next := Round(dd, dd.shortfall / dd.Open() as real);
      RoundLeavesNoDebt(dd);
      RedistributeEffect(next, round + 1);
      RoundKeepsTransitive(dd, next, Redistribute(next, round + 1));
    } else {
      RoundKeepsSelf(dd);
    }
  }

  // ---------------------------------------------------------------------------
  // Growth after the withdrawals

  /** The balances the simulator keeps: nominal ones, and the same in today's money. */
  datatype RetirementState = RetirementState(nominal: Accounts, pension: real, today: Accounts, pensionToday: real)

  /**
   * Inflate today's balances to nominal ones, apply the post-retirement
   * returns (the tax-free pension's return is credited to the taxable
   * pension) and deflate again by the same factor.
   */
  function Grown(p: ProfileSettings, drawn: Accounts, adjustment: real): RetirementState
    requires adjustment != 0.0
  {
    var s := p.postRetirementSettings;
    var lisa := drawn.lisa * adjustment * (1.0 + s.expectedPostRetirementLisaAnnualReturn);
    var isa := drawn.isa * adjustment * (1.0 + s.expectedPostRetirementIsaAnnualReturn);
    var taxfree := drawn.taxfreePension * adjustment;
    var taxable := drawn.taxablePension * adjustment * (1.0 + s.expectedPostRetirementPensionAnnualReturn)
                   + taxfree * s.expectedPostRetirementPensionAnnualReturn;
    var today := Accounts(lisa / adjustment, isa / adjustment, taxfree / adjustment, taxable / adjustment);
    RetirementState(Accounts(lisa, isa, taxfree, taxable), taxfree + taxable,
                    today, today.taxfreePension + today.taxablePension)
  }

  lemma Deflate(x: real, adjustment: real)
    requires adjustment != 0.0
    ensures (x * adjustment) / adjustment == x
  {
  }

  /**
   * In today's money the inflation factor drops out: LISA and ISA grow by
   * their returns, the tax-free pension stays as it is and the taxable
   * pension grows by the pension return on both pension parts.  The nominal
   * balances are today's times the factor, and the pension is the sum of its
   * two parts.
   */
  lemma GrowthInTodaysMoney(p: ProfileSettings, drawn: Accounts, adjustment: real)
    requires adjustment != 0.0
    ensures var r := Grown(p, drawn, adjustment);
            var s := p.postRetirementSettings;
            var rp := s.expectedPostRetirementPensionAnnualReturn;
            && r.today == Accounts(drawn.lisa * (1.0 + s.expectedPostRetirementLisaAnnualReturn),
                                   drawn.isa * (1.0 + s.expectedPostRetirementIsaAnnualReturn),
                                   drawn.taxfreePension,
                                   drawn.taxablePension * (1.0 + rp) + drawn.taxfreePension * rp)
            && r.nominal == r.today.Scaled(adjustment)
            && r.pension == r.nominal.taxfreePension + r.nominal.taxablePension
            && r.pensionToday == r.today.taxfreePension + r.today.taxablePension
  {
    var s := p.postRetirementSettings;
    var rp := s.expectedPostRetirementPensionAnnualReturn;
    var lisa := drawn.lisa * (1.0 + s.expectedPostRetirementLisaAnnualReturn);
    var isa := drawn.isa * (1.0 + s.expectedPostRetirementIsaAnnualReturn);
    var taxable := drawn.taxablePension * (1.0 + rp) + drawn.taxfreePension * rp;
    Deflate(lisa, adjustment);
    Deflate(isa, adjustment);
    Deflate(drawn.taxfreePension, adjustment);
    Deflate(taxable, adjustment);
    assert drawn.lisa * adjustment * (1.0 + s.expectedPostRetirementLisaAnnualReturn) == lisa * adjustment;
    assert drawn.isa * adjustment * (1.0 + s.expectedPostRetirementIsaAnnualReturn) == isa * adjustment;
    assert drawn.taxablePension * adjustment * (1.0 + rp) + drawn.taxfreePension * adjustment * rp
        == taxable * adjustment;
  }

  /**
   * Balances that are not negative stay so when LISA and ISA lose at most
   * everything and the pension return is not negative; a negative pension
   * return is charged to the taxable pension for the tax-free part as well.
   */
  lemma GrowthKeepsNonNegative(p: ProfileSettings, drawn: Accounts, adjustment: real)
    requires adjustment != 0.0 && NonNegativeAccounts(drawn)
    requires p.postRetirementSettings.expectedPostRetirementLisaAnnualReturn >= -1.0
    requires p.postRetirementSettings.expectedPostRetirementIsaAnnualReturn >= -1.0
    requires p.postRetirementSettings.expectedPostRetirementPensionAnnualReturn >= 0.0
    ensures NonNegativeAccounts(Grown(p, drawn, adjustment).today)
  {
    GrowthInTodaysMoney(p, drawn, adjustment);
  }

  // ---------------------------------------------------------------------------
  // One year

  /** A column in today's money and inflation adjusted. */
  datatype Amount = Amount(today: real, inflationAdjusted: real)

  function Inflated(x: real, adjustment: real): Amount
  {
    Amount(x, x * adjustment)
  }

  /** The columns of `_calculate_accounts_withdrawal_and_income_tax`. */
  datatype AccountsWithdrawal = AccountsWithdrawal(
    withdrawalsToday: Accounts, withdrawalsInflationAdjusted: Accounts,
    incomeTax: Amount, totalWithdrawal: Amount, totalWithdrawalAfterTax: Amount, shortfall: Amount,
    balancesToday: Accounts, balancesInflationAdjusted: Accounts, pensionBalance: Amount, totalBalance: Amount)

  /** The columns of a year and the balances it leaves. */
  datatype Withdrawn = Withdrawn(columns: AccountsWithdrawal, after: RetirementState)

  /** The year's planned withdrawals: the plan applied to the target less the state pension. */
  function YearPlanned(p: ProfileSettings, today: Accounts, age: int, statePension: real): Planned
  {
    var s := p.postRetirementSettings;
    PlannedWithdrawals(PlanEntries(Targets(s), Unavailable(s, age)), s.withdrawalTodayAmount - statePension,
                       today.taxablePension)
  }

  /** The gross taxable-pension withdrawal that nets `net` with the given state pension. */
  function GrossFor(d: RegionData, net: real, statePension: real): real
  {
    Bisect(d.bands, d.personalAllowance, statePension, net, 0.0, net * 2.0, 0)
  }

  /** The accounts after the first pass and the shortfall rounds. */
  function YearDrawn(p: ProfileSettings, d: RegionData, today: Accounts, age: int, statePension: real): Drawdown
  {
    var planned := YearPlanned(p, today, age, statePension);
    Redistribute(FirstDraw(today, planned, GrossFor(d, planned.withdrawals.taxablePension, statePension)), 0)
  }

  /** The columns of a year, once the draw-down is done and the balances have grown. */
  function ColumnsOf(drawn: Drawdown, incomeTax: real, total: real, statePension: real, after: RetirementState,
                     adjustment: real): AccountsWithdrawal
  {
    AccountsWithdrawal(
      drawn.Withdrawals(), drawn.Withdrawals().Scaled(adjustment),
      Inflated(incomeTax, adjustment), Inflated(total, adjustment), Inflated(total + statePension, adjustment),
      Inflated(drawn.shortfall, adjustment), after.today, after.nominal,
      Amount(after.pensionToday, after.pension),
      Amount(after.today.lisa + after.today.isa + after.pensionToday,
             after.nominal.lisa + after.nominal.isa + after.pension))
  }

  /** The growth after the draw-down, and the year's columns. */
  function YearFrom(p: ProfileSettings, drawn: Drawdown, incomeTax: real, total: real, statePension: real,
                    adjustment: real): Withdrawn
    requires adjustment != 0.0
  {
    var after := Grown(p, drawn.Balances(), adjustment);
    Withdrawn(ColumnsOf(drawn, incomeTax, total, statePension, after, adjustment), after)
  }

  /**
   * `_calculate_accounts_withdrawal_and_income_tax` as a value, for a year
   * whose plan exists: plan the withdrawals, find the gross taxable-pension
   * withdrawal and the income tax, draw the accounts down, spread the
   * shortfall, then grow what is left.
   */
  function AccountsYear(p: ProfileSettings, d: RegionData, today: Accounts, age: int, adjustment: real,
                        statePension: real): Withdrawn
    requires adjustment != 0.0
  {
    var planned := YearPlanned(p, today, age, statePension);
    var gross := GrossFor(d, planned.withdrawals.taxablePension, statePension);
    var incomeTax := IncomeTax(d.bands, d.personalAllowance, gross + statePension);
    var total := planned.withdrawals.Total() + statePension;
    YearFrom(p, YearDrawn(p, d, today, age, statePension), incomeTax, total, statePension, adjustment)
  }

  /** The looked-up inputs of the projection: the profile, the state pension and the tax bands. */
  datatype Terms = Terms(profile: ProfileSettings, statePensionAge: int, statePensionPerYear: real, region: RegionData)

  /** The inflation factor can be divided by. */
  predicate Deflatable(p: ProfileSettings)
  {
    1.0 + p.expectedReturnsAndInflation.expectedInflation != 0.0
  }

  function Adjustment(p: ProfileSettings, age: int): (r: real)
    requires Deflatable(p)
    ensures r != 0.0
  {
    InflationNonZero(p.expectedReturnsAndInflation.expectedInflation, p.personalDetails.currentAge, age);
    InflationAdjustment(p.expectedReturnsAndInflation.expectedInflation, p.personalDetails.currentAge, age)
  }

  /** `_calculate_state_pension`: the yearly state pension from the state-pension age on, nothing before. */
  function StatePensionAt(t: Terms, age: int, adjustment: real): Amount
  {
    if age >= t.statePensionAge then Inflated(t.statePensionPerYear, adjustment) else Amount(0.0, 0.0)
  }

  /** A row of the post-retirement projection. */
  datatype RetirementRow = RetirementRow(age: int, withdrawal: Amount, statePension: Amount, accounts: AccountsWithdrawal)

  datatype Year = Year(row: RetirementRow, after: RetirementState)

  /** The row of one year of age and the balances it leaves. */
  function YearAt(t: Terms, before: RetirementState, age: int): Year
    requires Deflatable(t.profile)
  {
    var adjustment := Adjustment(t.profile, age);
    var statePension := StatePensionAt(t, age, adjustment);
    var w := AccountsYear(t.profile, t.region, before.today, age, adjustment, statePension.today);
    Year(RetirementRow(age, Inflated(t.profile.postRetirementSettings.withdrawalTodayAmount, adjustment),
                       statePension, w.columns),
         w.after)
  }

  /** A yearly step: the row of a year of age and the balances it leaves, from the balances before it. */
  type Step = (RetirementState, int) --> Year

  ghost predicate StepDefined(step: Step)
  {
    forall before, age :: step.requires(before, age)
  }

  /** The projection's yearly step. */
  function YearStep(t: Terms): (step: Step)
    requires Deflatable(t.profile)
    ensures StepDefined(step)
    ensures forall before, age :: step(before, age) == YearAt(t, before, age)
  {
    (before: RetirementState, age: int) requires Deflatable(t.profile) => YearAt(t, before, age)
  }

  /** The balances after `years` steps from `before`, the first step being at `age`. */
  function Iterate(step: Step, before: RetirementState, age: int, years: nat): RetirementState
    requires StepDefined(step)
    decreases years
  {
    if years == 0 then before else Iterate(step, step(before, age).after, age + 1, years - 1)
  }

  /** The rows of `years` steps from `before`, the first step being at `age`. */
  function Collect(step: Step, before: RetirementState, age: int, years: nat): (r: seq<RetirementRow>)
    requires StepDefined(step)
    ensures |r| == years
    decreases years
  {
    if years == 0 then [] else [step(before, age).row] + Collect(step, step(before, age).after, age + 1, years - 1)
  }

  /** The balances after `years` yearly steps of the projection from `before`, the first at `age`. */
  function StateFrom(t: Terms, before: RetirementState, age: int, years: nat): RetirementState
    requires Deflatable(t.profile)
  {
    Iterate(YearStep(t), before, age, years)
  }

  /** The rows of `years` yearly steps of the projection from `before`, the first at `age`. */
  function RowsFrom(t: Terms, before: RetirementState, age: int, years: nat): (r: seq<RetirementRow>)
    requires Deflatable(t.profile)
    ensures |r| == years
  {
    Collect(YearStep(t), before, age, years)
  }

  /** The balances at retirement: the last investment row's, the pension split, and all of it in today's money. */
  function InitialState(p: ProfileSettings, lumpSumAllowance: real, last: Investment.Pots): RetirementState
    requires Deflatable(p)
  {
    var adjustment := Adjustment(p, p.personalDetails.retirementAge);
    var pension := last.sipp + last.workplace;
    var split := SplitPension(pension, lumpSumAllowance * adjustment);
    RetirementState(Accounts(last.lisa, last.isa, split.taxfree, split.taxable), pension,
                    Accounts(last.lisa / adjustment, last.isa / adjustment, split.taxfree / adjustment,
                             split.taxable / adjustment),
                    pension / adjustment)
  }

  // ---------------------------------------------------------------------------
  // Properties of one year

  /** The post-retirement returns never take more than an account holds, and the pension return is not negative. */
  ghost predicate ReturnsKeepBalances(p: ProfileSettings)
  {
    && p.postRetirementSettings.expectedPostRetirementLisaAnnualReturn >= -1.0
    && p.postRetirementSettings.expectedPostRetirementIsaAnnualReturn >= -1.0
    && p.postRetirementSettings.expectedPostRetirementPensionAnnualReturn >= 0.0
  }

  /**
   * The year's draw-down leaves every balance non-negative and the shortfall
   * non-negative, whatever the balances before: an account that cannot pay
   * is emptied and marked exhausted.
   */
  lemma DrawnSound(p: ProfileSettings, d: RegionData, today: Accounts, age: int, statePension: real)
    ensures DrawdownSound(YearDrawn(p, d, today, age, statePension))
    ensures YearDrawn(p, d, today, age, statePension).shortfall >= 0.0
  {
    var planned := YearPlanned(p, today, age, statePension);
    var gross := GrossFor(d, planned.withdrawals.taxablePension, statePension);
    FirstDrawEffect(today, planned, gross);
    RedistributeEffect(FirstDraw(today, planned, gross), 0);
  }

  /** The draw-down of one year, for any planned withdrawals and gross taxable amount. */
  lemma DrawdownAccounting(today: Accounts, planned: Planned, gross: real)
    requires planned.shortfall >= 0.0
    ensures var first := FirstDraw(today, planned, gross);
            var r := Redistribute(first, 0);
            var w := planned.withdrawals;
            && DrawdownSound(r) && r.shortfall >= 0.0
            && r.lisa.balance + r.lisa.withdrawal == today.lisa
            && r.isa.balance + r.isa.withdrawal == today.isa
            && r.taxfreePension.balance + r.taxfreePension.withdrawal == today.taxfreePension
            && r.taxablePension.balance + r.taxablePension.withdrawal
               == (if first.taxablePension.exhausted then today.taxablePension
                   else today.taxablePension - gross + w.taxablePension)
            && r.shortfall + r.Withdrawals().Total()
               == planned.shortfall + w.Total()
                  + (if first.taxablePension.exhausted then gross - w.taxablePension else 0.0)
  {
    var first := FirstDraw(today, planned, gross);
    FirstDrawEffect(today, planned, gross);
    RedistributeEffect(first, 0);
  }

  /** What is planned plus what the taxable balance cannot cover is the targets' total share of what is left. */
  lemma PlannedTotal(p: ProfileSettings, today: Accounts, age: int, statePension: real)
    requires WithdrawPlan(Targets(p.postRetirementSettings), Unavailable(p.postRetirementSettings, age)).Some?
    ensures var s := p.postRetirementSettings;
            var left := s.withdrawalTodayAmount - statePension;
            var planned := YearPlanned(p, today, age, statePension);
            && planned.shortfall >= 0.0
            && planned.shortfall + planned.withdrawals.Total()
               == (if left <= 0.0 then 0.0 else Targets(s).Total() * left)
  {
    var s := p.postRetirementSettings;
    var left := s.withdrawalTodayAmount - statePension;
    var plan := PlanEntries(Targets(s), Unavailable(s, age));
    var planned := YearPlanned(p, today, age, statePension);
    assert planned == PlannedWithdrawals(plan, left, today.taxablePension);
    if left > 0.0 {
      PlannedSplit(plan, left, today.taxablePension);
      PlanKeepsTotal(Targets(s), Unavailable(s, age));
      SameScale(plan.Total(), Targets(s).Total(), left);
    }
  }

  /** Equal amounts scaled by the same factor stay equal. */
  lemma SameScale(a: real, b: real, factor: real)
    requires a == b
    ensures a * factor == b * factor
  {
  }

  /**
   * The year's accounting.  Each of LISA, ISA and the tax-free pension ends
   * with its old balance split between what is left and what was withdrawn;
   * the taxable pension is charged the gross amount (tax included) unless it
   * ran out in the first pass.  What was withdrawn plus what is still short
   * is the targets' total share of what the state pension leaves to
   * withdraw, plus the tax on the taxable withdrawal when that pension ran
   * out first (the first pass counts the gross amount short).
   */
  lemma YearDrawnAccounting(p: ProfileSettings, d: RegionData, today: Accounts, age: int, statePension: real)
    requires WithdrawPlan(Targets(p.postRetirementSettings), Unavailable(p.postRetirementSettings, age)).Some?
    ensures var s := p.postRetirementSettings;
            var left := s.withdrawalTodayAmount - statePension;
            var planned := YearPlanned(p, today, age, statePension);
            var gross := GrossFor(d, planned.withdrawals.taxablePension, statePension);
            var ranOut := FirstDraw(today, planned, gross).taxablePension.exhausted;
            var r := YearDrawn(p, d, today, age, statePension);
            && r.lisa.balance + r.lisa.withdrawal == today.lisa
            && r.isa.balance + r.isa.withdrawal == today.isa
            && r.taxfreePension.balance + r.taxfreePension.withdrawal == today.taxfreePension
            && r.taxablePension.balance + r.taxablePension.withdrawal
               == (if ranOut then today.taxablePension
                   else today.taxablePension - gross + planned.withdrawals.taxablePension)
            && r.shortfall + r.Withdrawals().Total()
               == (if left <= 0.0 then 0.0 else Targets(s).Total() * left)
                  + (if ranOut then gross - planned.withdrawals.taxablePension else 0.0)
  {
    var planned := YearPlanned(p, today, age, statePension);
    var gross := GrossFor(d, planned.withdrawals.taxablePension, statePension);
    PlannedTotal(p, today, age, statePension);
    DrawdownAccounting(today, planned, gross);
  }

  /**
   * A year's returns in today's money: LISA and ISA grow by their returns,
   * the tax-free pension stays as it is and the taxable pension grows by the
   * pension return on both pension parts.
   */
  function AfterReturns(p: ProfileSettings, left: Accounts): Accounts
  {
    var s := p.postRetirementSettings;
    var rp := s.expectedPostRetirementPensionAnnualReturn;
    Accounts(left.lisa * (1.0 + s.expectedPostRetirementLisaAnnualReturn),
             left.isa * (1.0 + s.expectedPostRetirementIsaAnnualReturn),
             left.taxfreePension,
             left.taxablePension * (1.0 + rp) + left.taxfreePension * rp)
  }

  /** The columns of a year, for any sound draw-down. */
  lemma ColumnsEffect(p: ProfileSettings, drawn: Drawdown, incomeTax: real, total: real, statePension: real,
                      adjustment: real)
    requires adjustment != 0.0 && DrawdownSound(drawn) && drawn.shortfall >= 0.0
    ensures var w := YearFrom(p, drawn, incomeTax, total, statePension, adjustment);
            && w.columns.withdrawalsToday == drawn.Withdrawals()
            && w.columns.balancesToday == w.after.today
            && w.after.today == AfterReturns(p, drawn.Balances())
            && w.columns.shortfall.today >= 0.0
            && w.columns.totalBalance.today == w.after.today.Total()
            && (ReturnsKeepBalances(p) ==> NonNegativeAccounts(w.after.today))
  {
    var left := drawn.Balances();
    GrownToday(p, left, adjustment);
    if ReturnsKeepBalances(p) {
      GrowthKeepsNonNegative(p, left, adjustment);
    }
  }

  /** In today's money the growth is the year's returns on what was left. */
  lemma GrownToday(p: ProfileSettings, left: Accounts, adjustment: real)
    requires adjustment != 0.0
    ensures Grown(p, left, adjustment).today == AfterReturns(p, left)
  {
    GrowthInTodaysMoney(p, left, adjustment);
  }

  /**
   * The year's columns: the balances it reports are what the draw-down left,
   * grown by a year's returns in today's money (the tax-free pension's return
   * going to the taxable pension); they are never negative when the returns
   * cannot take more than an account holds.  The shortfall is never
   * negative, and the total is today's balances added up.
   */
  lemma YearColumns(p: ProfileSettings, d: RegionData, today: Accounts, age: int, adjustment: real,
                    statePension: real)
    requires adjustment != 0.0
    ensures AccountsYear(p, d, today, age, adjustment, statePension).columns.withdrawalsToday
         == YearDrawn(p, d, today, age, statePension).Withdrawals()
    ensures var w := AccountsYear(p, d, today, age, adjustment, statePension);
            w.columns.balancesToday == w.after.today && w.columns.totalBalance.today == w.after.today.Total()
    ensures AccountsYear(p, d, today, age, adjustment, statePension).after.today
            == AfterReturns(p, YearDrawn(p, d, today, age, statePension).Balances())
    ensures AccountsYear(p, d, today, age, adjustment, statePension).columns.shortfall.today >= 0.0
    ensures ReturnsKeepBalances(p) ==>
              NonNegativeAccounts(AccountsYear(p, d, today, age, adjustment, statePension).after.today)
  {
    var planned := YearPlanned(p, today, age, statePension);
    var gross := GrossFor(d, planned.withdrawals.taxablePension, statePension);
    var drawn := YearDrawn(p, d, today, age, statePension);
    var incomeTax := IncomeTax(d.bands, d.personalAllowance, gross + statePension);
    var total := planned.withdrawals.Total() + statePension;
    DrawnSound(p, d, today, age, statePension);
    ColumnsEffect(p, drawn, incomeTax, total, statePension, adjustment);
  }

  /**
   * A row of the projection: the age, the target withdrawal in today's money
   * and inflated, the state pension from its age on only, and the after-tax
   * total, which is the total withdrawal (state pension included) with the
   * state pension added once more.
   */
  lemma YearRow(t: Terms, before: RetirementState, age: int)
    requires Deflatable(t.profile)
    ensures var adjustment := Adjustment(t.profile, age);
            var row := YearAt(t, before, age).row;
            && row.age == age
            && row.withdrawal == Amount(t.profile.postRetirementSettings.withdrawalTodayAmount,
                                        t.profile.postRetirementSettings.withdrawalTodayAmount * adjustment)
            && row.statePension.today == (if age >= t.statePensionAge then t.statePensionPerYear else 0.0)
            && row.statePension.inflationAdjusted == row.statePension.today * adjustment
            && row.accounts.totalWithdrawalAfterTax.today
               == row.accounts.totalWithdrawal.today + row.statePension.today
            && row.accounts.totalWithdrawal.today
               == YearPlanned(t.profile, before.today, age, row.statePension.today).withdrawals.Total()
                  + row.statePension.today
  {
  }

  /** The balances a year leaves are the balances its row reports, in today's money and inflated. */
  lemma YearAfter(t: Terms, before: RetirementState, age: int)
    requires Deflatable(t.profile)
    ensures var y := YearAt(t, before, age);
            && y.after.today == y.row.accounts.balancesToday
            && y.after.nominal == y.row.accounts.balancesInflationAdjusted
            && y.after.nominal == y.after.today.Scaled(Adjustment(t.profile, age))
  {
    var adjustment := Adjustment(t.profile, age);
    var statePension := StatePensionAt(t, age, adjustment);
    var drawn := YearDrawn(t.profile, t.region, before.today, age, statePension.today);
    GrowthInTodaysMoney(t.profile, drawn.Balances(), adjustment);
  }

  // ---------------------------------------------------------------------------
  // Properties of the projection

  /** The balances after one more step are the balances after `j` steps carried through step `j`. */
  lemma {:induction false} IterateStep(step: Step, before: RetirementState, age: int, j: nat)
    requires StepDefined(step)
    ensures Iterate(step, before, age, j + 1) == step(Iterate(step, before, age, j), age + j).after
    decreases j
  {
    if j > 0 {
      var after := step(before, age).after;
      IterateStep(step, after, age + 1, j - 1);
      assert (age + 1) + (j - 1) == age + j;
    }
  }

  /** The rows of one more step are the shorter rows with that step's row appended. */
  lemma {:induction false} CollectSnoc(step: Step, before: RetirementState, age: int, years: nat)
    requires StepDefined(step)
    ensures Collect(step, before, age, years + 1)
         == Collect(step, before, age, years) + [step(Iterate(step, before, age, years), age + years).row]
    decreases years
  {
    if years > 0 {
      var after := step(before, age).after;
      var last := step(Iterate(step, before, age, years), age + years).row;
      assert Iterate(step, before, age, years) == Iterate(step, after, age + 1, years - 1);
      assert (age + 1) + (years - 1) == age + years;
      CollectSnoc(step, after, age + 1, years - 1);
      Investment.SnocOfCons(step(before, age).row, Collect(step, after, age + 1, years),
                            Collect(step, after, age + 1, years - 1), last,
                            Collect(step, before, age, years + 1), Collect(step, before, age, years));
    } else {
      assert age + years == age;
    }
  }

  /** Fewer steps give a prefix of the rows of more steps from the same start. */
  lemma {:induction false} CollectPrefix(step: Step, before: RetirementState, age: int, years: nat, k: nat)
    requires StepDefined(step) && k <= years
    ensures Collect(step, before, age, years)[..k] == Collect(step, before, age, k)
    decreases k
  {
    if k > 0 {
      var after := step(before, age).after;
      CollectPrefix(step, after, age + 1, years - 1, k - 1);
      Investment.PrefixOfCons(step(before, age).row, Collect(step, after, age + 1, years - 1), k);
    }
  }

  /** Row `j` is the row of step `j`, at age `age + j`, from the balances after `j` steps. */
  lemma CollectIndex(step: Step, before: RetirementState, age: int, years: nat, j: nat)
    requires StepDefined(step) && j < years
    ensures Collect(step, before, age, years)[j] == step(Iterate(step, before, age, j), age + j).row
  {
    CollectPrefix(step, before, age, years, j + 1);
    CollectSnoc(step, before, age, j);
    var rows := Collect(step, before, age, years);
    assert rows[j] == rows[..j + 1][j];
  }

  /** No years of projection: no rows, and the balances as they were. */
  lemma NoYears(t: Terms, start: RetirementState, age: int)
    requires Deflatable(t.profile)
    ensures RowsFrom(t, start, age, 0) == [] && StateFrom(t, start, age, 0) == start
  {
  }

  /** One pass of the `simulate` loop keeps the rows and the balances equal to the projection so far. */
  lemma SimulationStep(t: Terms, start: RetirementState, startAge: int, done: nat, age: int,
                       records: seq<RetirementRow>, before: RetirementState, row: RetirementRow, after: RetirementState)
    requires Deflatable(t.profile) && age == startAge + done
    requires records == RowsFrom(t, start, startAge, done)
    requires before == StateFrom(t, start, startAge, done)
    requires row == YearAt(t, before, age).row && after == YearAt(t, before, age).after
    ensures records + [row] == RowsFrom(t, start, startAge, done + 1)
    ensures after == StateFrom(t, start, startAge, done + 1)
  {
    var step := YearStep(t);
    CollectSnoc(step, start, startAge, done);
    IterateStep(step, start, startAge, done);
    assert Iterate(step, start, startAge, done) == before;
    assert step(before, startAge + done) == YearAt(t, before, age);
  }

  /** Row `j` of the projection is the row of age `age + j`, drawn from the balances after `j` years. */
  lemma RowIndex(t: Terms, before: RetirementState, age: int, years: nat, j: nat)
    requires Deflatable(t.profile) && j < years
    ensures RowsFrom(t, before, age, years)[j] == YearAt(t, StateFrom(t, before, age, j), age + j).row
  {
    CollectIndex(YearStep(t), before, age, years, j);
  }

  /**
   * A row is never short by a negative amount, and its balances are not
   * negative when the returns cannot take more than an account holds.
   */
  ghost predicate NothingNegative(p: ProfileSettings, row: RetirementRow)
  {
    row.accounts.shortfall.today >= 0.0
    && (ReturnsKeepBalances(p) ==> NonNegativeAccounts(row.accounts.balancesToday))
  }

  /**
   * What every year guarantees: its row is for its age, pays the state
   * pension only from the state-pension age on, is never short by a negative
   * amount, reports the balances the next year starts from, and those
   * balances are never negative when the returns cannot take more than an
   * account holds.
   */
  lemma YearFacts(t: Terms, before: RetirementState, age: int)
    requires Deflatable(t.profile)
    ensures var y := YearAt(t, before, age);
            && y.row.age == age
            && y.row.statePension.today == (if age >= t.statePensionAge then t.statePensionPerYear else 0.0)
            && y.row.accounts.balancesToday == y.after.today
            && NothingNegative(t.profile, y.row)
  {
    var adjustment := Adjustment(t.profile, age);
    var statePension := StatePensionAt(t, age, adjustment);
    YearRow(t, before, age);
    YearAfter(t, before, age);
    YearColumns(t.profile, t.region, before.today, age, adjustment, statePension.today);
  }

  /** Row `j` of the projection is for age `age + j` and pays the state pension only from its age on. */
  lemma RowAge(t: Terms, before: RetirementState, age: int, years: nat, j: nat)
    requires Deflatable(t.profile) && j < years
    ensures var row := RowsFrom(t, before, age, years)[j];
            && row.age == age + j
            && row.statePension.today == (if age + j >= t.statePensionAge then t.statePensionPerYear else 0.0)
  {
    RowIndex(t, before, age, years, j);
    YearFacts(t, StateFrom(t, before, age, j), age + j);
  }

  /** Row `j` of the projection reports the balances year `j + 1` starts from. */
  lemma RowChain(t: Terms, before: RetirementState, age: int, years: nat, j: nat)
    requires Deflatable(t.profile) && j < years
    ensures RowsFrom(t, before, age, years)[j].accounts.balancesToday == StateFrom(t, before, age, j + 1).today
  {
    RowIndex(t, before, age, years, j);
    IterateStep(YearStep(t), before, age, j);
    YearFacts(t, StateFrom(t, before, age, j), age + j);
  }

  /** No row of the projection holds a negative amount. */
  lemma RowNothingNegative(t: Terms, before: RetirementState, age: int, years: nat, j: nat)
    requires Deflatable(t.profile) && j < years
    ensures NothingNegative(t.profile, RowsFrom(t, before, age, years)[j])
  {
    RowIndex(t, before, age, years, j);
    YearFacts(t, StateFrom(t, before, age, j), age + j);
  }

  /**
   * The projection as a whole: exactly `years` rows, for the ages `age`,
   * `age + 1`, ...; the state pension only from its age on; no negative
   * shortfall; each row's balances are the ones the next year starts from;
   * and, when the returns cannot take more than an account holds, no
   * negative balance anywhere after the first year.
   */
  lemma RowsShape(t: Terms, before: RetirementState, age: int, years: nat)
    requires Deflatable(t.profile)
    ensures var rows := RowsFrom(t, before, age, years);
            && |rows| == years
            && (forall j :: 0 <= j < years ==>
                  && rows[j].age == age + j
                  && rows[j].statePension.today
                     == (if age + j >= t.statePensionAge then t.statePensionPerYear else 0.0)
                  && rows[j].accounts.balancesToday == StateFrom(t, before, age, j + 1).today
                  && NothingNegative(t.profile, rows[j]))
  {
    var rows := RowsFrom(t, before, age, years);
    forall j | 0 <= j < years
      ensures && rows[j].age == age + j
              && rows[j].statePension.today
                 == (if age + j >= t.statePensionAge then t.statePensionPerYear else 0.0)
              && rows[j].accounts.balancesToday == StateFrom(t, before, age, j + 1).today
              && NothingNegative(t.profile, rows[j])
    {
      RowAge(t, before, age, years, j);
      RowChain(t, before, age, years, j);
      RowNothingNegative(t, before, age, years, j);
    }
  }

  // ---------------------------------------------------------------------------
  // The simulator

  /** Why a projection can fail. */
  datatype RetirementError =
    | NoOpenAccount(age: int)   // every account closed at this age: the plan divides by zero
    | TaxLookup(error: TaxError)

  /** The draw-down record of today's balances, the withdrawals so far, the flags and the shortfall. */
  function Pack(today: Accounts, w: Accounts, flags: Flags, shortfall: real): Drawdown
  {
    Drawdown(Pot(today.lisa, w.lisa, flags[0]), Pot(today.isa, w.isa, flags[1]),
             Pot(today.taxfreePension, w.taxfreePension, flags[2]),
             Pot(today.taxablePension, w.taxablePension, flags[3]), shortfall)
  }

  /** The count of open accounts is the number of flags not set. */
  lemma PackOpen(today: Accounts, w: Accounts, flags: Flags, shortfall: real)
    ensures Pack(today, w, flags, shortfall).Open() == AccountCount - CountSet(flags)
  {
  }

  /** Two amounts per account that agree on every account are equal. */
  lemma AccountsByGet(a: Accounts, b: Accounts)
    requires forall k :: 0 <= k < AccountCount ==> a.Get(k) == b.Get(k)
    ensures a == b
  {
    assert a.Get(0) == b.Get(0) && a.Get(1) == b.Get(1) && a.Get(2) == b.Get(2) && a.Get(3) == b.Get(3);
  }

  /**
   * `_calculate_accounts_withdrawal_and_income_tax` in the order the method
   * computes it: once the plan, the gross amount, the tax, the draw-down and
   * the growth are each what the year defines, so are its columns.
   */
  lemma YearAssembled(p: ProfileSettings, d: RegionData, today: Accounts, age: int, adjustment: real,
                      statePension: real, planned: Planned, gross: real, incomeTax: real, total: real,
                      drawn: Drawdown, after: RetirementState)
    requires adjustment != 0.0
    requires planned == YearPlanned(p, today, age, statePension)
    requires gross == GrossFor(d, planned.withdrawals.taxablePension, statePension)
    requires incomeTax == IncomeTax(d.bands, d.personalAllowance, gross + statePension)
    requires total == planned.withdrawals.Total() + statePension
    requires drawn == YearDrawn(p, d, today, age, statePension)
    requires after == Grown(p, drawn.Balances(), adjustment)
    ensures AccountsYear(p, d, today, age, adjustment, statePension)
            == Withdrawn(ColumnsOf(drawn, incomeTax, total, statePension, after, adjustment), after)
  {
  }

  /** Growth of equal balances. */
  lemma SameGrowth(p: ProfileSettings, a: Accounts, b: Accounts, adjustment: real)
    requires adjustment != 0.0 && a == b
    ensures Grown(p, a, adjustment) == Grown(p, b, adjustment)
  {
  }

  /** The bisection's result once the bands are known to be `d`. */
  lemma GrossLookedUp(db: TaxTable, net: real, scotland: bool, year: int, statePension: real,
                      g: Result<real, TaxError>, d: RegionData)
    requires g == GrossFromTakeHome(db, net, scotland, year, statePension) && g.Success?
    requires GetTaxBands(db, scotland, year) == Success(d)
    ensures g.value == GrossFor(d, net, statePension)
  {
  }

  /** A year assembled from its parts, each already known to be the specified one. */
  lemma YearRowIs(t: Terms, before: RetirementState, age: int, adjustment: real, withdrawal: Amount,
                  statePension: Amount, w: Withdrawn)
    requires Deflatable(t.profile) && adjustment == Adjustment(t.profile, age)
    requires withdrawal == Inflated(t.profile.postRetirementSettings.withdrawalTodayAmount, adjustment)
    requires statePension == StatePensionAt(t, age, adjustment)
    requires w == AccountsYear(t.profile, t.region, before.today, age, adjustment, statePension.today)
    ensures YearAt(t, before, age) == Year(RetirementRow(age, withdrawal, statePension, w.columns), w.after)
  {
  }

  class RetirementSimulator {
    const profile: ProfileSettings
    const limits: Limits
    const pensionEntry: StatePensionEntry
    const taxDb: TaxTable
    const taxYear: int
    const annualWithdrawal: real
    const inflation: real
    const currentAge: int
    const retirementAge: int
    const simulationEndAge: int
    const lumpSumAllowance: real
    const statePensionAge: int
    const statePensionAmount: real

    var lisaBalance: real
    var isaBalance: real
    var pensionBalance: real
    var taxfreePensionBalance: real
    var taxablePensionBalance: real

    var lisaBalanceToday: real
    var isaBalanceToday: real
    var pensionBalanceToday: real
    var taxfreePensionBalanceToday: real
    var taxablePensionBalanceToday: real

    /** The ten balance fields as one value. */
    function State(): RetirementState
      reads this
    {
      RetirementState(Accounts(lisaBalance, isaBalance, taxfreePensionBalance, taxablePensionBalance), pensionBalance,
                      Accounts(lisaBalanceToday, isaBalanceToday, taxfreePensionBalanceToday,
                               taxablePensionBalanceToday),
                      pensionBalanceToday)
    }

    /** The fixed inputs are the profile's and the looked-up entries', with their defaults. */
    ghost predicate Consistent()
    {
      && taxYear == profile.taxYear
      && annualWithdrawal == profile.postRetirementSettings.withdrawalTodayAmount
      && inflation == profile.expectedReturnsAndInflation.expectedInflation
      && currentAge == profile.personalDetails.currentAge
      && retirementAge == profile.personalDetails.retirementAge
      && simulationEndAge == 100
      && lumpSumAllowance == LumpSumAllowance(limits)
      && statePensionAge == StatePensionAge(pensionEntry)
      && statePensionAmount == StatePensionPerYear(pensionEntry)
      && Deflatable(profile)
    }

    /** The inputs of the projection, once the tax bands are looked up. */
    ghost function TermsWith(d: RegionData): Terms
    {
      Terms(profile, statePensionAge, statePensionAmount, d)
    }

    /**
     * `__init__`: the balances at retirement are the last investment row's;
     * the pension pot is split into its tax-free and taxable parts, and every
     * balance is also kept in today's money.
     */
    constructor (profile: ProfileSettings, investment: seq<Investment.InvestmentRow>, limits: Limits,
                 pensionEntry: StatePensionEntry, taxDb: TaxTable)
      requires |investment| > 0 && Deflatable(profile)
      ensures this.profile == profile && this.limits == limits && this.pensionEntry == pensionEntry
      ensures this.taxDb == taxDb
      ensures Consistent()
      ensures State() == InitialState(profile, LumpSumAllowance(limits), investment[|investment| - 1].aggregate.balance)
    {
      this.profile := profile;
      this.limits := limits;
      this.pensionEntry := pensionEntry;
      this.taxDb := taxDb;
      this.taxYear := profile.taxYear;
      this.annualWithdrawal := profile.postRetirementSettings.withdrawalTodayAmount;
      this.inflation := profile.expectedReturnsAndInflation.expectedInflation;
      this.currentAge := profile.personalDetails.currentAge;
      this.retirementAge := profile.personalDetails.retirementAge;
      this.simulationEndAge := 100;
      this.lumpSumAllowance := LumpSumAllowance(limits);
      this.statePensionAge := StatePensionAge(pensionEntry);
      this.statePensionAmount := StatePensionPerYear(pensionEntry);
      var last := investment[|investment| - 1].aggregate.balance;
      var adjustment := Adjustment(profile, profile.personalDetails.retirementAge);
      var pension := last.sipp + last.workplace;
      var taxfree := Min(pension * TaxFreeShare, LumpSumAllowance(limits) * adjustment);
      new;
      lisaBalance := last.lisa;
      isaBalance := last.isa;
      pensionBalance := pension;
      taxfreePensionBalance := taxfree;
      taxablePensionBalance := pension - taxfree;
      lisaBalanceToday := lisaBalance / adjustment;
      isaBalanceToday := isaBalance / adjustment;
      pensionBalanceToday := pensionBalance / adjustment;
      taxfreePensionBalanceToday := taxfreePensionBalance / adjustment;
      taxablePensionBalanceToday := taxablePensionBalance / adjustment;
    }

    /**
     * `_get_withdraw_plan`: flag the accounts not yet open at `age`, add up
     * their percentages and share them equally among the open ones.  With
     * every account closed the share divides by zero: there is no plan.
     */
    method GetWithdrawPlan(age: int) returns (r: Option<Accounts>)
      ensures r == WithdrawPlan(Targets(profile.postRetirementSettings), Unavailable(profile.postRetirementSettings, age))
    {
      var s := profile.postRetirementSettings;
      var t := Targets(s);
      var flags: Flags := NoFlags;
      for k := 0 to AccountCount
        invariant forall j :: 0 <= j < k ==> flags[j] == (age < WithdrawalAge(s, j))
      {
        flags := flags[k := age < WithdrawalAge(s, k)];
      }
      assert flags == Unavailable(s, age);
      var unavailable := CountSet(flags);
      var size := 0.0;
      for k := 0 to AccountCount
        invariant size == FlaggedSum(t, flags, k)
      {
        if flags[k] {
          size := size + t.Get(k);
        }
      }
      var share := 0.0;
      if unavailable > 0 {
        if unavailable == AccountCount {
          return None;
        }
        share := size / (AccountCount - unavailable) as real;
      }
      PlanShares(t, flags);
      var plan := ZeroAccounts;
      for k := 0 to AccountCount
        invariant forall j :: 0 <= j < k ==> plan.Get(j) == PlanEntries(t, flags).Get(j)
      {
        if !flags[k] {
          plan := plan.With(k, t.Get(k) + share);
        } else {
          plan := plan.With(k, 0.0);
        }
      }
      AccountsByGet(plan, PlanEntries(t, flags));
      r := Some(plan);
    }

    /**
     * The first pass of the draw-down: each account pays its planned
     * withdrawal from today's balance, the taxable pension the gross amount;
     * an account that cannot pay is emptied and flagged, and what it lacks is
     * added to the shortfall.
     */
    method FirstPass(planned: Planned, gross: real) returns (dd: Drawdown)
      modifies this
      ensures dd == FirstDraw(old(State()).today, planned, gross)
      ensures State() == old(State()).(today := dd.Balances())
    {
      var w := planned.withdrawals;
      var shortfall := planned.shortfall;
      var flags: Flags := NoFlags;
      if lisaBalanceToday >= w.lisa {
        lisaBalanceToday := lisaBalanceToday - w.lisa;
      } else {
        shortfall := shortfall - (lisaBalanceToday - w.lisa);
        w := w.(lisa := lisaBalanceToday);
        lisaBalanceToday := 0.0;
        flags := flags[0 := true];
      }
      if isaBalanceToday >= w.isa {
        isaBalanceToday := isaBalanceToday - w.isa;
      } else {
        shortfall := shortfall - (isaBalanceToday - w.isa);
        w := w.(isa := isaBalanceToday);
        isaBalanceToday := 0.0;
        flags := flags[1 := true];
      }
      if taxfreePensionBalanceToday >= w.taxfreePension {
        taxfreePensionBalanceToday := taxfreePensionBalanceToday - w.taxfreePension;
      } else {
        shortfall := shortfall - (taxfreePensionBalanceToday - w.taxfreePension);
        w := w.(taxfreePension := taxfreePensionBalanceToday);
        taxfreePensionBalanceToday := 0.0;
        flags := flags[2 := true];
      }
      if taxablePensionBalanceToday >= gross {
        taxablePensionBalanceToday := taxablePensionBalanceToday - gross;
      } else {
        shortfall := shortfall - (taxablePensionBalanceToday - gross);
        w := w.(taxablePension := taxablePensionBalanceToday);
        taxablePensionBalanceToday := 0.0;
        flags := flags[3 := true];
      }
      dd := Pack(State().today, w, flags, shortfall);
    }

    /** One account's part of a redistribution round: `per` more from it, or all it has left. */
    method ShareOutAccount(k: nat, per: real, w: Accounts, flags: Flags, shortfall: real)
      returns (w': Accounts, flags': Flags, shortfall': real)
      requires k < AccountCount
      modifies this
      ensures Pack(State().today, w', flags', shortfall') == ShareOutAt(Pack(old(State()).today, w, flags, shortfall), per, k)
      ensures State() == old(State()).(today := State().today)
    {
      w', flags', shortfall' := w, flags, shortfall;
      if k == 0 {
        if !flags[0] {
          if lisaBalanceToday >= per {
            lisaBalanceToday := lisaBalanceToday - per;
            shortfall' := shortfall' - per;
            w' := w'.(lisa := w'.lisa + per);
          } else {
            shortfall' := shortfall' - lisaBalanceToday;
            w' := w'.(lisa := w'.lisa + lisaBalanceToday);
            lisaBalanceToday := 0.0;
            flags' := flags'[0 := true];
          }
        }
      } else if k == 1 {
        if !flags[1] {
          if isaBalanceToday >= per {
            isaBalanceToday := isaBalanceToday - per;
            shortfall' := shortfall' - per;
            w' := w'.(isa := w'.isa + per);
          } else {
            shortfall' := shortfall' - isaBalanceToday;
            w' := w'.(isa := w'.isa + isaBalanceToday);
            isaBalanceToday := 0.0;
            flags' := flags'[1 := true];
          }
        }
      } else if k == 2 {
        if !flags[2] {
          if taxfreePensionBalanceToday >= per {
            taxfreePensionBalanceToday := taxfreePensionBalanceToday - per;
            shortfall' := shortfall' - per;
            w' := w'.(taxfreePension := w'.taxfreePension + per);
          } else {
            shortfall' := shortfall' - taxfreePensionBalanceToday;
            w' := w'.(taxfreePension := w'.taxfreePension + taxfreePensionBalanceToday);
            taxfreePensionBalanceToday := 0.0;
            flags' := flags'[2 := true];
          }
        }
      } else {
        if !flags[3] {
          if taxablePensionBalanceToday >= per {
            taxablePensionBalanceToday := taxablePensionBalanceToday - per;
            shortfall' := shortfall' - per;
            w' := w'.(taxablePension := w'.taxablePension + per);
          } else {
            shortfall' := shortfall' - taxablePensionBalanceToday;
            w' := w'.(taxablePension := w'.taxablePension + taxablePensionBalanceToday);
            taxablePensionBalanceToday := 0.0;
            flags' := flags'[3 := true];
          }
        }
      }
    }

    /** One round of the shortfall loop: every account in turn gives `per`, or all it has left. */
    method ShareOutRound(per: real, w: Accounts, flags: Flags, shortfall: real)
      returns (w': Accounts, flags': Flags, shortfall': real)
      modifies this
      ensures Pack(State().today, w', flags', shortfall') == Round(Pack(old(State()).today, w, flags, shortfall), per)
      ensures State() == old(State()).(today := State().today)
    {
      ghost var start := Pack(State().today, w, flags, shortfall);
      w', flags', shortfall' := w, flags, shortfall;
      for k := 0 to AccountCount
        invariant Pack(State().today, w', flags', shortfall') == RoundPrefix(start, per, k)
        invariant State() == old(State()).(today := State().today)
      {
        w', flags', shortfall' := ShareOutAccount(k, per, w', flags', shortfall');
      }
      RoundInParts(start, per);
    }

    /**
     * The shortfall loop: while an account is open, something is short and
     * fewer than three rounds have run, share the shortfall equally among
     * the open accounts, each paying its part or all it has left.
     */
    method RedistributeShortfall(dd: Drawdown) returns (r: Drawdown, ghost rounds: nat)
      requires State().today == dd.Balances()
      modifies this
      ensures r == Redistribute(dd, 0)
      ensures rounds == RoundsRun(dd, 0) && rounds <= MaxRounds
      ensures State() == old(State()).(today := r.Balances())
    {
      var w := dd.Withdrawals();
      var flags := dd.Exhausted();
      var shortfall := dd.shortfall;
      assert Pack(State().today, w, flags, shortfall) == dd;
      PackOpen(State().today, w, flags, shortfall);
      var available := AccountCount - CountSet(flags);
      var iteration: nat := 0;
      rounds := 0;
      while available > 0 && shortfall > 0.0 && iteration < MaxRounds
        invariant iteration <= MaxRounds
        invariant Redistribute(Pack(State().today, w, flags, shortfall), iteration) == Redistribute(dd, 0)
        invariant rounds + RoundsRun(Pack(State().today, w, flags, shortfall), iteration) == RoundsRun(dd, 0)
        invariant available == Pack(State().today, w, flags, shortfall).Open()
        invariant State() == old(State()).(today := State().today)
        decreases MaxRounds - iteration
      {
        var per := shortfall / available as real;
        ghost var start := Pack(State().today, w, flags, shortfall);
        SameShare(shortfall, available, start);
        RedistributeStep(start, per, iteration);
        w, flags, shortfall := ShareOutRound(per, w, flags, shortfall);
        PackOpen(State().today, w, flags, shortfall);
        available := AccountCount - CountSet(flags);
        iteration := iteration + 1;
        rounds := rounds + 1;
      }
      r := Pack(State().today, w, flags, shortfall);
    }

    /**
     * Growth after the draw-down: today's balances are inflated, grow by the
     * post-retirement returns (the tax-free pension's return credited to the
     * taxable pension) and are deflated again.
     */
    method ApplyGrowth(adjustment: real)
      requires adjustment != 0.0
      modifies this
      ensures State() == Grown(profile, old(State()).today, adjustment)
    {
      var s := profile.postRetirementSettings;
      ghost var g := Grown(profile, State().today, adjustment);
      var lisa := lisaBalanceToday * adjustment;
      var isa := isaBalanceToday * adjustment;
      var taxfree := taxfreePensionBalanceToday * adjustment;
      var taxable := taxablePensionBalanceToday * adjustment;
      lisa := lisa * (1.0 + s.expectedPostRetirementLisaAnnualReturn);
      isa := isa * (1.0 + s.expectedPostRetirementIsaAnnualReturn);
      taxable := taxable * (1.0 + s.expectedPostRetirementPensionAnnualReturn);
      taxable := taxable + taxfree * s.expectedPostRetirementPensionAnnualReturn;
      assert Accounts(lisa, isa, taxfree, taxable) == g.nominal;
      lisaBalance, isaBalance, taxfreePensionBalance, taxablePensionBalance := lisa, isa, taxfree, taxable;
      pensionBalance := taxfree + taxable;
      lisaBalanceToday := lisa / adjustment;
      isaBalanceToday := isa / adjustment;
      taxfreePensionBalanceToday := taxfree / adjustment;
      taxablePensionBalanceToday := taxable / adjustment;
      pensionBalanceToday := taxfreePensionBalanceToday + taxablePensionBalanceToday;
      assert State().nominal == g.nominal;
      assert State().today == g.today;
    }

    /**
     * The first step of a year: what is left of the withdrawal target once the
     * state pension is counted is split by the plan's weights; the taxable
     * pension gives no more than it holds, and the rest of its share is the
     * shortfall.
     */
    method PlanYear(plan: Accounts, statePension: real) returns (planned: Planned)
      ensures planned == PlannedWithdrawals(plan, annualWithdrawal - statePension, taxablePensionBalanceToday)
    {
      var shortfall := 0.0;
      var left := annualWithdrawal - statePension;
      var withdrawals := ZeroAccounts;
      if left > 0.0 {
        withdrawals := plan.Scaled(left);
        if withdrawals.taxablePension > taxablePensionBalanceToday {
          shortfall := withdrawals.taxablePension - taxablePensionBalanceToday;
          withdrawals := withdrawals.(taxablePension := taxablePensionBalanceToday);
        }
      }
      planned := Planned(withdrawals, shortfall);
    }

    /** Draw the planned amounts, spread the shortfall, then grow what is left. */
    method DrawAndGrow(planned: Planned, gross: real, adjustment: real) returns (drawn: Drawdown)
      requires adjustment != 0.0
      modifies this
      ensures drawn == Redistribute(FirstDraw(old(State()).today, planned, gross), 0)
      ensures State() == Grown(profile, drawn.Balances(), adjustment)
    {
      var dd := FirstPass(planned, gross);
      ghost var rounds;
      drawn, rounds := RedistributeShortfall(dd);
      ghost var balances, drawnToday := drawn.Balances(), State().today;
      ApplyGrowth(adjustment);
      SameGrowth(profile, drawnToday, balances, adjustment);
    }

    /** The withdrawal plan at `age`, if any account is open then. */
    ghost function PlanAt(age: int): Option<Accounts>
    {
      WithdrawPlan(Targets(profile.postRetirementSettings), Unavailable(profile.postRetirementSettings, age))
    }

    /** The tax bands of the profile's region and tax year. */
    ghost function Lookup(): Result<RegionData, TaxError>
    {
      GetTaxBands(taxDb, profile.scotland, taxYear)
    }

    /**
     * `_calculate_accounts_withdrawal_and_income_tax`: plan the year's
     * withdrawals, find the gross taxable-pension withdrawal and the income
     * tax, draw the accounts down, spread the shortfall and grow what is
     * left.  The plan fails when every account is closed, the tax
     * calculations when the tax year or region has no bands; in either case
     * the balances are left as they were.
     */
    method CalculateAccountsWithdrawalAndIncomeTax(age: int, adjustment: real, statePension: real)
      returns (r: Result<AccountsWithdrawal, RetirementError>)
      requires Consistent() && adjustment != 0.0
      modifies this
      ensures PlanAt(age).None? ==> r == Failure(NoOpenAccount(age)) && State() == old(State())
      ensures PlanAt(age).Some? && Lookup().Failure? ==>
                r == Failure(TaxLookup(Lookup().error)) && State() == old(State())
      ensures PlanAt(age).Some? && Lookup().Success? ==>
                var y := AccountsYear(profile, Lookup().value, old(State()).today, age, adjustment, statePension);
                r == Success(y.columns) && State() == y.after
    {
      var plan := GetWithdrawPlan(age);
      if plan.None? {
        return Failure(NoOpenAccount(age));
      }
      var planned := PlanYear(plan.value, statePension);
      assert planned == YearPlanned(profile, State().today, age, statePension);
      var withdrawals := planned.withdrawals;
      var gross: Result<real, TaxError>;
      ghost var low: real, high: real, iterations: nat;
      gross, low, high, iterations :=
        CalculateGrossFromTakeHome(taxDb, withdrawals.taxablePension, profile.scotland, taxYear, statePension);
      if gross.Failure? {
        assert Lookup().Failure?;
        return Failure(TaxLookup(gross.error));
      }
      ghost var d := Lookup().value;
      GrossLookedUp(taxDb, withdrawals.taxablePension, profile.scotland, taxYear, statePension, gross, d);
      var incomeTax := CalculateIncomeTax(taxDb, gross.value + statePension, profile.scotland, taxYear);
      var total := withdrawals.lisa + withdrawals.isa + withdrawals.taxfreePension + withdrawals.taxablePension
                   + statePension;
      var totalAfterTax := total + statePension;
      ghost var today := State().today;
      assert today == old(State()).today;
      var drawn := DrawAndGrow(planned, gross.value, adjustment);
      assert drawn == YearDrawn(profile, d, today, age, statePension);
      YearAssembled(profile, d, today, age, adjustment, statePension, planned, gross.value, incomeTax.value, total,
                    drawn, State());
      r := Success(ColumnsOf(drawn, incomeTax.value, total, statePension, State(), adjustment));
    }

    /**
     * One pass of the `simulate` loop: the withdrawal target, the state
     * pension and the accounts of the year of age `age`.
     */
    method YearRecord(age: int) returns (r: Result<RetirementRow, RetirementError>)
      requires Consistent()
      modifies this
      ensures PlanAt(age).None? ==> r == Failure(NoOpenAccount(age)) && State() == old(State())
      ensures PlanAt(age).Some? && Lookup().Failure? ==>
                r == Failure(TaxLookup(Lookup().error)) && State() == old(State())
      ensures PlanAt(age).Some? && Lookup().Success? ==>
                var y := YearAt(TermsWith(Lookup().value), old(State()), age);
                r == Success(y.row) && State() == y.after
    {
      var adjustment := InflationAdjustment(inflation, currentAge, age);
      assert adjustment == Adjustment(profile, age);
      var withdrawal := Inflated(annualWithdrawal, adjustment);
      var statePension := Amount(0.0, 0.0);
      if age >= statePensionAge {
        statePension := Inflated(statePensionAmount, adjustment);
      }
      ghost var before := State();
      var accounts := CalculateAccountsWithdrawalAndIncomeTax(age, adjustment, statePension.today);
      if accounts.Failure? {
        return Failure(accounts.error);
      }
      r := Success(RetirementRow(age, withdrawal, statePension, accounts.value));
      ghost var t := TermsWith(Lookup().value);
      ghost var y := AccountsYear(profile, Lookup().value, before.today, age, adjustment, statePension.today);
      YearRowIs(t, before, age, adjustment, withdrawal, statePension, y);
    }

    /**
     * One pass of the `simulate` loop, `i` years after retirement: the row of
     * that year appended to the rows so far.  Only the first year can fail.
     */
    method SimulateYear(i: nat, records: seq<RetirementRow>, ghost t: Terms, ghost start: RetirementState)
      returns (r: Result<seq<RetirementRow>, RetirementError>)
      requires Consistent() && Deflatable(t.profile)
      requires Lookup().Success? ==> t == TermsWith(Lookup().value)
      requires i > 0 ==> PlanAt(retirementAge).Some? && Lookup().Success?
      requires records == RowsFrom(t, start, retirementAge, i) && State() == StateFrom(t, start, retirementAge, i)
      modifies this
      ensures r.Failure? ==> i == 0 && State() == old(State())
      ensures r.Failure? && PlanAt(retirementAge).None? ==> r.error == NoOpenAccount(retirementAge)
      ensures r.Failure? && PlanAt(retirementAge).Some? ==>
                Lookup().Failure? && r.error == TaxLookup(Lookup().error)
      ensures r.Success? ==>
                && PlanAt(retirementAge).Some? && Lookup().Success?
                && r.value == RowsFrom(t, start, retirementAge, i + 1)
                && State() == StateFrom(t, start, retirementAge, i + 1)
    {
      var s := profile.postRetirementSettings;
      var age := retirementAge + i;
      if i > 0 {
        PlanAvailableLater(s, Targets(s), retirementAge, age);
      }
      ghost var before := State();
      var row := YearRecord(age);
      if row.Failure? {
        assert i == 0 && age == retirementAge;
        return Failure(row.error);
      }
      assert PlanAt(age).Some? && Lookup().Success?;
      if i == 0 {
        assert age == retirementAge;
      }
      ghost var y := YearAt(t, before, age);
      assert row.value == y.row && State() == y.after;
      SimulationStep(t, start, retirementAge, i, age, records, before, row.value, State());
      r := Success(records + [row.value]);
    }

    /**
     * `simulate`: nothing unless the targeted percentages add up to 100%;
     * otherwise one row for every year of age from retirement up to the end
     * age, each drawn from the balances the year before left.  The plan and
     * the tax lookup either fail in the first year or never.
     */
    method Simulate() returns (r: Result<seq<RetirementRow>, RetirementError>)
      requires Consistent()
      modifies this
      ensures Targets(profile.postRetirementSettings).Total() != 1.0 ==> r == Success([]) && State() == old(State())
      ensures simulationEndAge - retirementAge <= 0 ==> r == Success([]) && State() == old(State())
      ensures Targets(profile.postRetirementSettings).Total() == 1.0 && simulationEndAge - retirementAge > 0 ==>
                && (PlanAt(retirementAge).None? ==>
                      r == Failure(NoOpenAccount(retirementAge)) && State() == old(State()))
                && (PlanAt(retirementAge).Some? && Lookup().Failure? ==>
                      r == Failure(TaxLookup(Lookup().error)) && State() == old(State()))
                && (PlanAt(retirementAge).Some? && Lookup().Success? ==>
                      var t := TermsWith(Lookup().value);
                      var years := simulationEndAge - retirementAge;
                      r == Success(RowsFrom(t, old(State()), retirementAge, years))
                      && State() == StateFrom(t, old(State()), retirementAge, years))
    {
      var s := profile.postRetirementSettings;
      var percentage := s.isaTargetedWithdrawalPercentage + s.lisaTargetedWithdrawalPercentage
                        + s.taxfreePensionTargetedWithdrawalPercentage
                        + s.taxablePensionTargetedWithdrawalPercentage;
      if percentage != 1.0 {
        return Success([]);
      }
      var years := simulationEndAge - retirementAge;
      var records: seq<RetirementRow> := [];
      ghost var start := State();
      ghost var d := if Lookup().Success? then Lookup().value else RegionData([], 0.0);
      ghost var t := TermsWith(d);
      NoYears(t, start, retirementAge);
      var i := 0;
      while i < years
        invariant 0 <= i && (i == 0 || i <= years)
        invariant i > 0 ==> PlanAt(retirementAge).Some? && Lookup().Success?
        invariant records == RowsFrom(t, start, retirementAge, i)
        invariant State() == StateFrom(t, start, retirementAge, i)
      {
        var next := SimulateYear(i, records, t, start);
        if next.Failure? {
          return Failure(next.error);
        }
        records := next.value;
        i := i + 1;
      }
      r := Success(records);
    }
  }
}
