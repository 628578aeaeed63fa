/**
 * The investment-return calculator of the home page (`calculateReturn`):
 * a rate looked up from the investment type, then compound interest,
 * monthly for mutual funds and yearly for everything else.
 */
module ReturnEstimator {
  import opened Wrappers
  import opened Compound

  const EquityFunds: string := "Equity Funds"
  const MutualFunds: string := "Mutual Funds"
  const Stocks: string := "Stocks"
  const Gold: string := "Gold"

  /** The nominal yearly rate, in percent, used for equity and mutual funds whatever the user entered. */
  const FixedRate: real := 13.0

  /**
   * The form fields the calculator reads. `duration` (months) is used for
   * mutual funds only, `timePeriod` (years) for every other type, and
   * `desiredInterest` (percent) for stocks and gold only.
   */
  datatype ReturnForm = ReturnForm(
    kind: string, amount: real, duration: nat, timePeriod: nat, desiredInterest: real)

  /** The four option labels are different strings. */
  lemma KindsDistinct()
    ensures EquityFunds != MutualFunds && EquityFunds != Stocks && EquityFunds != Gold
    ensures MutualFunds != Stocks && MutualFunds != Gold && Stocks != Gold
  {
    assert EquityFunds[0] == 'E' && MutualFunds[0] == 'M' && Stocks[0] == 'S' && Gold[0] == 'G';
  }

  predicate KnownKind(kind: string) {
    kind == EquityFunds || kind == MutualFunds || kind == Stocks || kind == Gold
  }

  /** The rate `switch`: `None` for a type outside the four known ones. */
  function RateFor(kind: string, desired: real): (rate: Option<real>)
    ensures rate.Some? <==> KnownKind(kind)
    ensures kind == EquityFunds || kind == MutualFunds ==> rate == Some(FixedRate)
    ensures kind == Stocks || kind == Gold ==> rate == Some(desired)
  {
    if kind == EquityFunds || kind == MutualFunds then Some(FixedRate)
    else if kind == Stocks || kind == Gold then Some(desired)
    else None
  }

  /** One compounding period's growth factor for a yearly `rate` in percent. */
  function MonthlyFactor(rate: real): real { 1.0 + rate / 100.0 / 12.0 }
  function YearlyFactor(rate: real): real { 1.0 + rate / 100.0 }

  /** `amount` compounded over `periods` periods, each multiplying it by `factor`. */
  function Compounded(amount: real, factor: real, periods: nat): real {
    amount * Pow(factor, periods)
  }

  /** What `calculateReturn` stores in `calculatedReturn`, or `None` when it rejects the type. */
  function EstimateReturn(form: ReturnForm): (r: Option<real>)
    ensures r.Some? <==> KnownKind(form.kind)
  {
    var rate := RateFor(form.kind, form.desiredInterest);
    if rate.None? then None
    else if form.kind == MutualFunds then Some(Compounded(form.amount, MonthlyFactor(rate.value), form.duration))
    else Some(Compounded(form.amount, YearlyFactor(rate.value), form.timePeriod))
  }

  /** Mutual funds compound monthly at a twelfth of 13%, over `duration` months. */
  lemma MutualFundsCompoundMonthly(form: ReturnForm)
    requires form.kind == MutualFunds
    ensures EstimateReturn(form) == Some(Compounded(form.amount, 1.0 + 13.0 / 1200.0, form.duration))
  {
  }

  /** Every other known type compounds yearly over `timePeriod` years, at 13% or at the user's rate. */
  lemma OthersCompoundYearly(form: ReturnForm)
    requires KnownKind(form.kind) && form.kind != MutualFunds
    ensures EstimateReturn(form) ==
              Some(Compounded(form.amount, 1.0 + (if form.kind == EquityFunds then 13.0 else form.desiredInterest) / 100.0,
                              form.timePeriod))
  {
  }

  /** For equity and mutual funds the entered interest rate plays no part. */
  lemma FixedRateIgnoresEnteredRate(form: ReturnForm, entered: real)
    requires form.kind == EquityFunds || form.kind == MutualFunds
    ensures EstimateReturn(form.(desiredInterest := entered)) == EstimateReturn(form)
  {
  }

  /** Stocks and gold take whatever rate was entered; an untouched field means 0%, so the amount comes back. */
  lemma MissingRateMeansZero(form: ReturnForm)
    requires (form.kind == Stocks || form.kind == Gold) && form.desiredInterest == 0.0
    ensures EstimateReturn(form) == Some(form.amount)
  {
    PowOfOne(form.timePeriod);
  }

  lemma {:induction false} PowOfOne(n: nat)
    ensures Pow(1.0, n) == 1.0
  {
    if n > 0 {
      PowOfOne(n - 1);
    }
  }

  /** A zero exponent gives back the amount invested. */
  lemma ZeroPeriodsYieldAmount(form: ReturnForm)
    requires KnownKind(form.kind)
    requires if form.kind == MutualFunds then form.duration == 0 else form.timePeriod == 0
    ensures EstimateReturn(form) == Some(form.amount)
  {
  }

  /** Nothing invested, nothing returned. */
  lemma ZeroAmountYieldsZero(form: ReturnForm)
    requires KnownKind(form.kind) && form.amount == 0.0
    ensures EstimateReturn(form) == Some(0.0)
  {
  }

  /** The field a type does not use (duration or time period) does not change its result. */
  lemma UnusedPeriodIgnored(form: ReturnForm, duration: nat, timePeriod: nat)
    ensures form.kind == MutualFunds ==>
              EstimateReturn(form.(timePeriod := timePeriod)) == EstimateReturn(form)
    ensures form.kind != MutualFunds ==>
              EstimateReturn(form.(duration := duration)) == EstimateReturn(form)
  {
  }

  /** With a non-negative rate the projected value never falls below a non-negative amount. */
  lemma NoLossAtNonNegativeRate(form: ReturnForm)
    requires KnownKind(form.kind) && form.amount >= 0.0
    requires (form.kind == Stocks || form.kind == Gold) ==> form.desiredInterest >= 0.0
    ensures EstimateReturn(form).value >= form.amount
  {
  }

  /**
   * The same 13% grows an amount at least as much over 12*y months as a
   * mutual fund as over y years as an equity fund: monthly compounding
   * never loses to yearly compounding.
   */
  lemma {:induction false} MonthlyAtLeastYearly(amount: real, years: nat, duration: nat, timePeriod: nat)
    requires amount >= 0.0
    ensures var monthly := EstimateReturn(ReturnForm(MutualFunds, amount, 12 * years, timePeriod, 0.0));
            var yearly := EstimateReturn(ReturnForm(EquityFunds, amount, duration, years, 0.0));
            monthly.value >= yearly.value
  {
    var m, y := MonthlyFactor(FixedRate), YearlyFactor(FixedRate);
    Bernoulli(m, 12);
    assert Pow(m, 12) >= y;
    PowMul(m, 12, years);
    PowMonotoneInBase(y, Pow(m, 12), years);
    ScaleMonotone(amount, Pow(y, years), Pow(m, 12 * years));
  }

  /** The worked example: 1000 in stocks for 2 years at 10% grows to 1210. */
  lemma StocksExample()
    ensures EstimateReturn(ReturnForm(Stocks, 1000.0, 0, 2, 10.0)) == Some(1210.0)
  {
  }

  /** 1000 in a mutual fund for 12 months at 13% compounded monthly grows to about 1138.03. */
  lemma MutualFundsExample()
    ensures var r := EstimateReturn(ReturnForm(MutualFunds, 1000.0, 12, 0, 0.0)).value;
            1138.03 < r < 1138.04
  {
  }
}
