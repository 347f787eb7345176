/**
 The guarded divisions of the dashboard: payback period, expense ratio and
 profit margin. Each divides only by a positive denominator and otherwise
 falls back to a sentinel.
 */
module Ratios {
  import opened RealArith

  /** Months to recover the investment, or the "unrecoverable" branch taken
      when the monthly profit is not positive. */
  datatype Payback = Months(months: real) | Unrecoverable

  /** Payback period: investment / profit only when profit > 0. */
  function PaybackPeriod(investment: real, profit: real): (p: Payback)
    ensures p.Months? <==> profit > 0.0
    ensures p.Months? ==> p.months * profit == investment
    ensures p.Months? && investment >= 0.0 ==> p.months >= 0.0
  {
    if profit > 0.0 then Months(investment / profit) else Unrecoverable
  }

  /** The number the dashboard keeps for the payback: investment / profit
      when profit is positive, 0 in the unrecoverable branch. */
  function Bep(investment: real, profit: real): (v: real)
    ensures profit > 0.0 ==> v * profit == investment
    ensures profit <= 0.0 ==> v == 0.0
    ensures 0.0 <= investment ==> 0.0 <= v
  {
    if profit > 0.0 then investment / profit else 0.0
  }

  /** The kept number and the payback agree: the months when there are any,
      0 exactly in the unrecoverable branch of a positive investment. */
  lemma BepMatchesPayback(investment: real, profit: real)
    ensures PaybackPeriod(investment, profit).Months? ==>
      Bep(investment, profit) == PaybackPeriod(investment, profit).months
    ensures 0.0 < investment ==>
      (Bep(investment, profit) == 0.0 <==> PaybackPeriod(investment, profit).Unrecoverable?)
  {
    if profit > 0.0 && 0.0 < investment {
      var v := Bep(investment, profit);
      assert v * profit == investment;
    }
  }

  /** A larger positive profit never lengthens the payback of a
      non-negative investment. */
  lemma PaybackShrinksWithProfit(investment: real, p1: real, p2: real)
    requires 0.0 <= investment && 0.0 < p1 <= p2
    ensures PaybackPeriod(investment, p2).months <= PaybackPeriod(investment, p1).months
  {
    DivideByMore(investment, p1, p2);
  }

  /** An amount as a percentage of revenue, 0 when there is no revenue. The
      expense ratio (cost over revenue) and the sensitivity rows' margin
      (profit over revenue) are both this share. */
  function ShareOfRevenue(amount: real, revenue: real): (pct: real)
    ensures revenue > 0.0 ==> pct * revenue == amount * 100.0
    ensures revenue <= 0.0 ==> pct == 0.0
  {
    if revenue > 0.0 then amount / revenue * 100.0 else 0.0
  }

  /** Headline profit margin: shown only when there is revenue, blank
      otherwise. */
  datatype Margin = Percent(pct: real) | Blank

  function HeadlineMargin(profit: real, revenue: real): (m: Margin)
    ensures m.Percent? <==> revenue > 0.0
    ensures m.Percent? ==> m.pct * revenue == profit * 100.0
  {
    if revenue > 0.0 then Percent(profit / revenue * 100.0) else Blank
  }

  /** The headline and the sensitivity rows show the same margin where the
      headline shows one; where the headline is blank, a row shows 0. */
  lemma RowMarginAgreesWithHeadline(profit: real, revenue: real)
    ensures HeadlineMargin(profit, revenue).Percent? ==>
      HeadlineMargin(profit, revenue).pct == ShareOfRevenue(profit, revenue)
    ensures HeadlineMargin(profit, revenue).Blank? ==> ShareOfRevenue(profit, revenue) == 0.0
  {
  }

  /** Where both are shown, the expense ratio and the profit margin add up
      to 100 percent, because profit is revenue minus cost. */
  lemma ExpenseAndMarginComplement(revenue: real, cost: real)
    requires revenue > 0.0
    ensures ShareOfRevenue(cost, revenue) + HeadlineMargin(revenue - cost, revenue).pct == 100.0
  {
    assert cost / revenue + (revenue - cost) / revenue == revenue / revenue;
  }

  /** A quotient guarded the way the per-room figures are: the value when the
      denominator is positive, 0 otherwise. */
  function GuardedDiv(numerator: real, denominator: real): (q: real)
    ensures denominator > 0.0 ==> q * denominator == numerator
    ensures denominator <= 0.0 ==> q == 0.0
  {
    if denominator > 0.0 then numerator / denominator else 0.0
  }
}
