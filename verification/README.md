# Property profitability simulator — calculation engine

A Dafny model of the calculation block of `dashboard.py`, a single-page
short-term-rental simulator. The engine takes one property configuration:

- the start-up budget (eleven one-off items plus rent over 0–6 preparation
  months);
- an ordered list of 1–5 room types (count, nightly price (ADR), consumables
  and utilities per night);
- the operating rates (target occupancy, OTA fee, management fee, CAPEX
  reserve) and the fixed monthly costs.

From it the engine computes the total investment, the headline month
(revenue, each cost component, operating cost, profit, a guarded payback
period, and beside them the expense ratio and the profit margin) and an eight-row
sensitivity table over occupancies 30%, 40%, …, 100%. Each row holds the
effective ADR, RevPAR, GOPPAR, margin and payback.

Modules:

| module | file | contents |
|---|---|---|
| `RealArith` | arith.dfy | small facts about products and quotients of reals |
| `Rooms` | rooms.dfy | room types, per-night sums over the room list, room totals |
| `Investment` | investment.dfy | start-up items, total investment, the investment breakdown |
| `Ratios` | ratios.dfy | payback, expense ratio, margins, guarded per-room quotients |
| `Engine` | engine.dfy | configuration, widget ranges, headline month |
| `Sensitivity` | sensitivity.dfy | the occupancy grid, table rows, table builder |
| `Display` | display.dfy | whole-yen truncation of displayed amounts |
| `Scenario` | scenario.dfy | a worked configuration with its figures |

Modelling choices:

- **Numbers.** Amounts and rates are exact `real`s. Room counts are `nat`
  and preparation months `int`.
- **Widget ranges.** The ranges the input widgets enforce form the
  `Engine.ValidConfig` precondition:
  - 1–5 room types;
  - at least one room per type;
  - 0–6 preparation months;
  - occupancy 10–100%, OTA fee 0–30%, management fee 0–40%, CAPEX 0–10%.

  Amounts of money (rent, prices, per-night costs, fixed costs, start-up
  items) have no lower bound in the widgets. The model therefore allows
  negative amounts, and lemmas that need non-negative amounts take that as
  a hypothesis.
- **Payback branch.** The unrecoverable payback ("回収不可", kept as the
  number 0) is the `Unrecoverable` alternative of `Ratios.Payback`.
- **Blank margin.** The blank headline margin is the `Blank` alternative of
  `Ratios.Margin`.
- **Sensitivity row cost.** The row cost sums its terms in a different
  order from the headline. It also adds consumables and utilities in one
  pass per room type (the `Variable` per-night figure). The model keeps
  that order, and `Sensitivity.RowMatchesHeadline` proves the two agree.

Two points about what the program does, which the model follows:

- **Fee rates.** The calculation takes each fee rate off the revenue
  independently and caps nothing. Only the widget ranges limit the three
  rates, to 30 + 40 + 10 = 80% together (`Engine.ValidConfig`). So with
  non-negative room prices the fees never exceed revenue
  (`Engine.FeesBelowRevenue`). A negative price gives a negative revenue,
  and then the fees do exceed it.
- **Validation.** The calculation never checks its inputs; the widgets make
  out-of-range values impossible. The model states the ranges as
  preconditions rather than as an error result.

## Model

| member | source | states |
|---|---|---|
| Rooms.NightlyTotal | dashboard.py:160-163 | definition of the per-night sums (rate × count × active days, summed over the room types in order); with no active days the sum is 0. See NightlyTotalScalesWithDays and the lemmas below |
| Rooms.TotalRooms | dashboard.py:166 | definition of the total room count; it is at least the count of every room type. See TotalRoomsAtLeastTypes |
| Rooms.NightlyTotalScalesWithDays | dashboard.py:160-163 | a per-night sum over the month is the active-day count times the one-day sum |
| Rooms.VariableSplits | dashboard.py:208 | summing consumables plus utilities per room type, as the sensitivity row does, equals the consumables sum plus the utilities sum |
| Rooms.NightlyTotalDoubles | dashboard.py:160-163 | doubling every room count doubles every per-night sum |
| Rooms.TotalRoomsAtLeastTypes | dashboard.py:166 | with at least one room per type, the total room count is at least the number of room types |
| Rooms.TotalRoomsDoubles | dashboard.py:166 | doubling every count doubles the total room count |
| Rooms.CountWeightedIsProduct | dashboard.py:166 | a constant rate summed over the room types, weighted by count, is that rate times the total room count |
| Rooms.NightlyTotalAtLeast | dashboard.py:160 | if every rate is at least lo, the one-day sum is at least lo weighted by the counts |
| Rooms.NightlyTotalAtMost | dashboard.py:160 | if every rate is at most hi, the one-day sum is at most hi weighted by the counts |
| Rooms.NightlyTotalBetween | dashboard.py:160 | if every rate lies in [lo, hi], the one-day sum lies between lo and hi times the total room count |
| Rooms.NightlyTotalOfZeroRates | dashboard.py:160 | all-zero rates give a zero sum for any day count |
| Rooms.NightlyTotalNonNegative | dashboard.py:162-163 | non-negative rates over non-negative days give a non-negative sum |
| Rooms.NightlyTotalMonotoneInDays | dashboard.py:159-160 | with non-negative rates, more active days never lower the sum |
| Investment.PrepRent | dashboard.py:99 | definition of the preparation rent; it is 0 with no preparation months and non-negative for non-negative rent. See ExtraPrepMonthAddsRent |
| Investment.TotalInvestment | dashboard.py:115-117 | definition of the total investment; with non-negative amounts it is at least the preparation rent. See TotalIsSumOfBreakdown |
| Investment.Breakdown | dashboard.py:190-191 | the breakdown has twelve items and the first is the preparation rent |
| Investment.TotalIsSumOfBreakdown | dashboard.py:115-117 | the total investment equals the sum of the twelve breakdown items, so no item is omitted or counted twice |
| Investment.SumBoundsItems | dashboard.py:115-117 | a sum of non-negative amounts is non-negative and at least each of its amounts |
| Investment.InvestmentCoversItems | dashboard.py:115-117 | with non-negative rent and items, the investment is non-negative and covers every breakdown item, including the preparation rent |
| Investment.ExtraPrepMonthAddsRent | dashboard.py:99 | one more preparation month adds exactly one month's rent to the investment |
| Ratios.PaybackPeriod | dashboard.py:171 | the payback is a number of months exactly when profit is positive; those months times the profit give back the investment; they are non-negative for a non-negative investment |
| Ratios.Bep | dashboard.py:171 | the kept payback number times a positive profit is the investment; it is 0 when profit is not positive; it is non-negative for a non-negative investment |
| Ratios.BepMatchesPayback | dashboard.py:171 | the kept number equals the payback months whenever there are months, and for a positive investment it is 0 exactly in the unrecoverable branch |
| Ratios.PaybackShrinksWithProfit | dashboard.py:171 | a larger positive profit never lengthens the payback of a non-negative investment |
| Ratios.ShareOfRevenue | dashboard.py:178 | the expense ratio times a positive revenue is 100 times the cost; without revenue it is 0 |
| Ratios.HeadlineMargin | dashboard.py:181 | the margin is shown exactly when revenue is positive, and then times revenue it is 100 times the profit |
| Ratios.RowMarginAgreesWithHeadline | dashboard.py:214 | a row's margin equals the headline margin wherever the headline shows one, and is 0 where the headline is blank |
| Ratios.ExpenseAndMarginComplement | dashboard.py:178-181 | with positive revenue, the expense ratio and the headline margin add up to 100 |
| Ratios.GuardedDiv | dashboard.py:210-212 | a guarded per-room quotient times a positive denominator gives the numerator; it is 0 when the denominator is not positive |
| Engine.ValidConfig | dashboard.py:96-155 | the widget ranges (1–5 room types, at least one room each, 0–6 preparation months, occupancy 10–100%, OTA 0–30%, management 0–40%, CAPEX 0–10%); within them there is at least one room and the fee rates sum to at most 80% |
| Engine.ActiveDays | dashboard.py:158-159 | active days times 100 is occupancy times 30; at most 30 for occupancy up to 100%, exactly 30 at 100% |
| Engine.PercentOf | dashboard.py:161-165 | a fee on zero revenue is zero; a rate in 0–100% takes between 0 and all of a non-negative amount |
| Engine.PercentsAdd | dashboard.py:161-165 | fees taken independently off the same revenue add up to one fee at the summed rate, so they are not compounded |
| Engine.PercentScales | dashboard.py:161-165 | a fee on k times the revenue is k times the fee |
| Engine.Headline | dashboard.py:158-171 | active days are 3–30 and occupancy × 30 / 100; revenue, consumables and utilities are the active days times their one-day sums; each fee is its own rate of the revenue and together they are the summed rate of it; cost is rent + fixed + consumables + utilities + fees; profit is revenue − cost; payback is the guarded quotient of the investment |
| Engine.HeadlineIndicators | dashboard.py:178-181 | the headline expense ratio and margin of a configuration: with revenue, the ratio times revenue is 100 times the cost and ratio plus margin is 100; without revenue the ratio is 0 and the margin blank |
| Engine.PercentAtMost | dashboard.py:161-165 | a rate below a cap takes at most the capped share of a non-negative amount |
| Engine.FeesBelowRevenue | dashboard.py:142-165 | within the widget ranges and with non-negative prices, the three fees together take at most 80% of the revenue |
| Engine.DoublingCounts | dashboard.py:158-170 | doubling every room count doubles revenue, consumables, utilities and each fee; cost doubles less rent and fixed costs; profit becomes twice the profit plus rent and fixed costs, so it does not simply double |
| Engine.DoubledConfigValid | dashboard.py:121-127 | doubling every room count keeps a configuration within the widget ranges |
| Engine.DoublingPerNightSums | dashboard.py:160-163 | doubling every room count doubles revenue, consumables and utilities |
| Engine.DoublingFees | dashboard.py:161-165 | doubling every room count doubles each of the three fees, since each is its rate of the doubled revenue |
| Engine.RevenueMonotoneInOccupancy | dashboard.py:159-160 | with non-negative prices, a higher target occupancy never lowers revenue |
| Engine.ZeroPriceIsUnrecoverable | dashboard.py:160-171 | with all prices zero and non-negative costs, revenue and every fee are 0, profit is minus the cost (at most 0) and the payback is unrecoverable |
| Sensitivity.RowAt | dashboard.py:206-214 | definition of one table row; it carries its own occupancy, its revenue is the active days at that occupancy times the one-day price sum, and its profit is revenue − cost. See RowMatchesHeadline and RowRatiosDefined |
| Sensitivity.Table | dashboard.py:205 | the table has eight rows, the i-th at occupancy 30 + 10·i |
| Sensitivity.BuildTable | dashboard.py:204-214 | the loop appends exactly one row per grid occupancy, in grid order |
| Sensitivity.BuildTableIsTable | dashboard.py:204-214 | the loop's result is the table |
| Sensitivity.TableIgnoresTarget | dashboard.py:205-214 | the table is the same whatever the target occupancy is |
| Sensitivity.RowMatchesHeadline | dashboard.py:205-209 | each row's revenue, cost, profit and payback equal the headline month recomputed at that row's occupancy |
| Sensitivity.PerRoomQuotients | dashboard.py:210-212 | with at least one room and occupancy of at least 30%, every per-room guard passes and RevPAR is ADR times the occupancy fraction |
| Sensitivity.RowRatiosDefined | dashboard.py:210-212 | for a valid configuration no row takes a fallback: ADR, RevPAR and GOPPAR are true quotients, and RevPAR is ADR times the occupancy |
| Sensitivity.RowAdrIsWeightedMean | dashboard.py:210 | a row's effective ADR is the count-weighted mean of the room-type prices, the same in every row |
| Sensitivity.RowAdrBetween | dashboard.py:210 | the effective ADR lies between the lowest and highest room-type price |
| Display.TruncateYen | dashboard.py:74-75 | the displayed whole-yen amount drops the fraction toward zero: within one yen below a non-negative amount and within one yen above a negative one |
| Display.TruncateIsOdd | dashboard.py:74-75 | a loss is displayed as the negated display of the same gain |
| Display.TruncateKeepsWholeYen | dashboard.py:74-75 | a whole-yen amount is displayed unchanged |
| Scenario.ExampleMonth | dashboard.py:158-171 | for one type of ten rooms at 8,000 yen, 70% occupancy, 15/20/3% fees, 300,000 yen rent and 5,000 yen fixed costs: 21 active days, revenue 1,680,000, cost 1,048,400, profit 631,600, and a 3,158,000 yen investment paid back in 5 months |
| Scenario.ExampleRow | dashboard.py:205-214 | the example's 70% row has the headline revenue and profit and an effective ADR of 8,000 |

## Left out

- User interface: page setup, sidebar widgets, expanders, columns and the
  slider/number-input synchronisation callbacks and session state. Only the
  widget ranges enter the model, as `Engine.ValidConfig`.
- Slider step sizes (0.1 or 0.5 points) and the integer `format="%d"` of
  the money inputs. The model takes any real in range.
- Password gating and logo loading, which are secrets, session state and
  file I/O.
- The pie charts and their data frames: the `> 0` filtering and the
  `max(0, profit)` slice. These only feed rendering.
- Text formatting: the one-decimal percentages, the "ヶ月" and "回収不可"
  strings, the table's `¥{:,.0f}` styles and the thousands separators of
  the yen display. Only the whole-yen truncation is modelled.
- IEEE-754 floating point. The model uses exact reals, so rounding effects
  of Python floats (for example `30 * (33.3 / 100)`, which Python evaluates
  to 9.989999999999998) are not modelled.
- Break-even and target-ADR analysis, and saving or loading configurations.
  They belong to other variants of the program and are not part of this
  model.
- Engine.Headline: requires the widget ranges (`Engine.ValidConfig`). The
  code would compute the same formulas outside them, but the widgets never
  pass such values.
- Sensitivity.RowRatiosDefined: stated only for valid configurations, where
  every guard passes. Without rooms the code falls back to 0; that branch
  is covered by `Ratios.GuardedDiv` alone.
