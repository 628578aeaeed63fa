/**
 * The monthly-savings calculator of the home page (`calculateMonthlySavings`):
 * a validator, a conversion of the remaining milliseconds into whole average
 * months, and one division. Dates are whole milliseconds since the epoch and
 * amounts are exact reals.
 */
module SavingsPlanner {
  import opened Wrappers

  /** Milliseconds in an average month of 30.44 days. */
  const MsPerMonth: int := 2_630_016_000

  lemma MsPerMonthIsAverageMonth()
    ensures MsPerMonth as real == 1000.0 * 60.0 * 60.0 * 24.0 * 30.44
  {
  }

  /** A JavaScript number produced by a division: finite, or one of the IEEE special values. */
  datatype Quotient = Finite(value: real) | PositiveInfinity | NegativeInfinity | NotANumber

  /** The three form fields the calculator reads; `target` is `None` when the date field is empty. */
  datatype SavingsForm = SavingsForm(goal: real, current: real, target: Option<int>)

  datatype Rejection =
    | FieldsIncomplete    // empty date, goal <= 0 or current balance < 0
    | TargetNotInFuture   // target date not after the current time

  datatype SavingsPlan = Rejected(reason: Rejection) | Planned(months: nat, monthly: Quotient)

  /** JavaScript's `x / n` for a whole divisor n >= 0: dividing by zero does not fail. */
  function Divide(x: real, n: nat): (q: Quotient)
    ensures n > 0 ==> q.Finite? && q.value * (n as real) == x
    ensures n == 0 ==> !q.Finite?
    ensures n == 0 ==> (q.PositiveInfinity? <==> x > 0.0) && (q.NegativeInfinity? <==> x < 0.0)
  {
    if n > 0 then Finite(x / n as real)
    else if x > 0.0 then PositiveInfinity
    else if x < 0.0 then NegativeInfinity
    else NotANumber
  }

  /** `Math.floor((target - now) / MsPerMonth)`: the number of whole average months in the interval. */
  function MonthsBetween(now: int, target: int): (months: int)
    ensures months * MsPerMonth <= target - now < (months + 1) * MsPerMonth
    ensures now < target ==> months >= 0
  {
    (target - now) / MsPerMonth
  }

  /**
   * What `calculateMonthlySavings` computes at time `now`: either a rejection
   * (no state change, no memo) or the month count and the monthly amount.
   */
  function PlanSavings(form: SavingsForm, now: int): (plan: SavingsPlan)
    ensures plan == Rejected(FieldsIncomplete) <==>
              form.target.None? || form.goal <= 0.0 || form.current < 0.0
    ensures plan == Rejected(TargetNotInFuture) <==>
              form.target.Some? && form.goal > 0.0 && form.current >= 0.0 && form.target.value <= now
    ensures plan.Planned? ==>
              form.target.Some? && now < form.target.value &&
              plan.months * MsPerMonth <= form.target.value - now < (plan.months + 1) * MsPerMonth
    ensures plan.Planned? && plan.months > 0 ==>
              plan.monthly.Finite? && plan.monthly.value * (plan.months as real) == form.goal - form.current
    ensures plan.Planned? && plan.months == 0 ==> !plan.monthly.Finite?
  {
    if form.target.None? || form.goal <= 0.0 || form.current < 0.0 then
      Rejected(FieldsIncomplete)
    else if form.target.value <= now then
      Rejected(TargetNotInFuture)
    else
      var months := MonthsBetween(now, form.target.value);
      Planned(months, Divide(form.goal - form.current, months))
  }

  /**
   * With at least one whole month left, the monthly amount is negative exactly
   * when the goal is already exceeded, zero exactly when it is met.
   */
  lemma SavingsSign(form: SavingsForm, now: int)
    requires PlanSavings(form, now).Planned? && PlanSavings(form, now).months > 0
    ensures var s := PlanSavings(form, now).monthly.value;
            (s < 0.0 <==> form.goal < form.current) && (s == 0.0 <==> form.goal == form.current)
  {
  }

  /**
   * A valid form whose target lies less than one average month ahead is not
   * rejected: the month count is zero and the division by zero yields
   * Infinity, -Infinity or NaN.
   */
  lemma ShortHorizonIsNotRejected(form: SavingsForm, now: int)
    requires form.target.Some? && form.goal > 0.0 && form.current >= 0.0
    requires now < form.target.value < now + MsPerMonth
    ensures PlanSavings(form, now).Planned?
    ensures PlanSavings(form, now).months == 0
    ensures PlanSavings(form, now).monthly ==
              if form.goal > form.current then PositiveInfinity
              else if form.goal < form.current then NegativeInfinity
              else NotANumber
  {
  }

  /** The further away the target date, the more (or equally many) months the plan spreads over. */
  lemma MonthsMonotone(now: int, t1: int, t2: int)
    requires t1 <= t2
    ensures MonthsBetween(now, t1) <= MonthsBetween(now, t2)
  {
  }
}
