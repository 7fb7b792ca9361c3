/** The proration arithmetic of the plan-upgrade handler: remaining days of
    the current cycle, the value left on the old and new plans, and how the
    credit balance is charged and refilled. Money is exact `real`. */
module Proration {

  /** Milliseconds in a day: the divisor of the remaining-days computation. */
  const MsPerDay: int := 1000 * 60 * 60 * 24

  /** Every plan price is a price per fixed 30-day month. */
  const DaysPerMonth: real := 30.0

  /** `Math.ceil((endDate - now) / MsPerDay)`: the number of whole or partial
      days until `endDate`; zero during the first day after `endDate` and
      negative from one full day after it. */
  function DaysRemaining(endDate: int, now: int): (days: int)
    ensures (days - 1) * MsPerDay < endDate - now <= days * MsPerDay
    ensures days < 0 <==> endDate - now <= -MsPerDay
  {
    -((now - endDate) / MsPerDay)
  }

  /** `Math.max(0, x)`. */
  function ClampZero(x: real): (r: real)
    ensures r >= 0.0 && r >= x
    ensures r == x || r == 0.0
  {
    if x > 0.0 then x else 0.0
  }

  /** `Math.min(a, b)`. */
  function Min(a: real, b: real): (r: real)
    ensures r <= a && r <= b
    ensures r == a || r == b
  {
    if a <= b then a else b
  }

  /** The value of `days` days of a plan priced per 30-day month. */
  function RemainingValue(price: real, days: int): real {
    price / DaysPerMonth * days as real
  }

  /** The figures the upgrade computes. `creditApplied` is the one written
      into the history entry; `newCredits` is the balance stored afterwards. */
  datatype Proration = Proration(
    currentPlanRemainingValue: real,
    newPlanRemainingValue: real,
    upgradeAmount: real,
    finalAmount: real,
    creditApplied: real,
    newCredits: real)

  /** Prorates a move from a plan priced `currentPrice` to one priced
      `newPrice` with `days` days left in the cycle and `credits` on the
      balance. The charge spends only the old balance, while the new balance
      also absorbs the old plan's remaining value. */
  function Prorate(currentPrice: real, newPrice: real, credits: real, days: int): (p: Proration)
    ensures p.upgradeAmount >= 0.0 && p.finalAmount >= 0.0 && p.newCredits >= 0.0
    ensures credits >= 0.0 ==> p.finalAmount + p.creditApplied == p.upgradeAmount
    ensures credits >= p.upgradeAmount ==> p.finalAmount == 0.0 && p.creditApplied == p.upgradeAmount
    ensures p.finalAmount <= p.upgradeAmount || credits < 0.0
  {
    var currentRemaining := RemainingValue(currentPrice, days);
    var newRemaining := RemainingValue(newPrice, days);
    var upgradeAmount := ClampZero(newRemaining - currentRemaining);
    var totalCredits := credits + currentRemaining;
    var finalAmount := ClampZero(upgradeAmount - credits);
    Proration(
      currentRemaining,
      newRemaining,
      upgradeAmount,
      finalAmount,
      Min(credits, upgradeAmount),
      ClampZero(totalCredits - upgradeAmount))
  }

  /** Remaining value is linear in the price. */
  lemma RemainingValueDifference(a: real, b: real, days: int)
    ensures RemainingValue(a, days) - RemainingValue(b, days) == RemainingValue(a - b, days)
  {
  }

  /** A price that is not higher yields no more remaining value while the
      cycle is still running. */
  lemma RemainingValueMonotone(a: real, b: real, days: int)
    requires a <= b && days >= 0
    ensures RemainingValue(a, days) <= RemainingValue(b, days)
  {
    RemainingValueDifference(b, a, days);
    var d := (b - a) / DaysPerMonth;
    assert d >= 0.0;
    assert RemainingValue(b - a, days) == d * days as real;
  }

  /** The upgrade amount is the price difference prorated over the
      remaining days, clamped at zero. */
  lemma UpgradeAmountIsPriceDifference(currentPrice: real, newPrice: real, credits: real, days: int)
    ensures Prorate(currentPrice, newPrice, credits, days).upgradeAmount
         == ClampZero(RemainingValue(newPrice - currentPrice, days))
  {
    RemainingValueDifference(newPrice, currentPrice, days);
  }

  /** Moving to a plan that is not more expensive costs nothing while the
      cycle is still running (given a non-negative balance; a negative one
      would turn into a charge). */
  lemma NoChargeWithoutPriceIncrease(currentPrice: real, newPrice: real, credits: real, days: int)
    requires days >= 0 && newPrice <= currentPrice && credits >= 0.0
    ensures Prorate(currentPrice, newPrice, credits, days).upgradeAmount == 0.0
    ensures Prorate(currentPrice, newPrice, credits, days).finalAmount == 0.0
  {
    RemainingValueMonotone(newPrice, currentPrice, days);
  }

  /** The balance ledger. With a non-negative balance, the new balance is
      the old plan's remaining value plus the unapplied part of the old
      balance, minus the amount charged: the charge is paid AND taken from
      the balance. So when the old balance does not cover the upgrade, the
      payer is charged the shortfall and keeps only what is left of the old
      plan's remaining value after subtracting that charge once more. */
  lemma NewBalance(currentPrice: real, newPrice: real, credits: real, days: int)
    requires credits >= 0.0
    ensures var p := Prorate(currentPrice, newPrice, credits, days);
      p.newCredits == ClampZero(p.currentPlanRemainingValue + (credits - p.creditApplied) - p.finalAmount)
    ensures var p := Prorate(currentPrice, newPrice, credits, days);
      credits < p.upgradeAmount ==>
        && p.finalAmount == p.upgradeAmount - credits
        && p.newCredits == ClampZero(p.currentPlanRemainingValue - p.finalAmount)
  {
  }

  /** From one full day after the cycle end the remaining days are
      negative: when the current price is positive, a move to a plan that is
      not cheaper is free, yet a positive balance shrinks. */
  lemma ExpiredCycle(currentPrice: real, newPrice: real, credits: real, days: int)
    requires days < 0 && currentPrice > 0.0 && newPrice >= currentPrice && credits > 0.0
    ensures Prorate(currentPrice, newPrice, credits, days).upgradeAmount == 0.0
    ensures Prorate(currentPrice, newPrice, credits, days).finalAmount == 0.0
    ensures Prorate(currentPrice, newPrice, credits, days).newCredits < credits
  {
    var p := Prorate(currentPrice, newPrice, credits, days);
    RemainingValueDifference(newPrice, currentPrice, days);
    var d := (newPrice - currentPrice) / DaysPerMonth;
    assert d >= 0.0;
    assert RemainingValue(newPrice - currentPrice, days) == d * days as real <= 0.0;
    var c := currentPrice / DaysPerMonth;
    assert c > 0.0;
    assert p.currentPlanRemainingValue == c * days as real < 0.0;
  }

  /** A larger balance never makes the charge larger. */
  lemma MoreCreditsChargeLess(currentPrice: real, newPrice: real, c1: real, c2: real, days: int)
    requires c1 <= c2
    ensures Prorate(currentPrice, newPrice, c2, days).finalAmount
         <= Prorate(currentPrice, newPrice, c1, days).finalAmount
  {
  }
}
