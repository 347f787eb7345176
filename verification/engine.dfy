/**
 The headline monthly figures of the simulator: revenue, each cost
 component, operating cost, profit and payback, computed from one property
 configuration at its target occupancy.
 */
module Engine {
  import opened Rooms
  import opened Investment
  import opened Ratios
  import opened RealArith

  /** The dashboard's fixed month length. */
  const DaysPerMonth: real := 30.0

  /** Operating rates, all in percent. */
  datatype Rates = Rates(
    occupancy: real,
    otaFee: real,
    managementFee: real,
    capex: real
  )

  /** One property configuration: rent, start-up costs, room types, rates and
      the fixed monthly costs (software, Wi-Fi and the like). */
  datatype Config = Config(
    monthlyRent: real,
    prepMonths: int,
    costs: InitialCosts,
    rooms: seq<RoomType>,
    rates: Rates,
    fixedCosts: real
  )

  /** The ranges the input widgets allow for the rates. */
  predicate ValidRates(r: Rates) {
    && 10.0 <= r.occupancy <= 100.0
    && 0.0 <= r.otaFee <= 30.0
    && 0.0 <= r.managementFee <= 40.0
    && 0.0 <= r.capex <= 10.0
  }

  /** The ranges the input widgets allow: 1 to 5 room types, each with at
      least one room, 0 to 6 preparation months and the rate ranges. Amounts
      of money have no lower bound in the widgets. Within the ranges there is
      at least one room and the fee rates sum to at most 80%. */
  predicate ValidConfig(cfg: Config)
    ensures ValidConfig(cfg) ==> 1 <= TotalRooms(cfg.rooms) && FeeRate(cfg.rates) <= 80.0
  {
    && 1 <= |cfg.rooms| <= 5
    && AllOccupied(cfg.rooms)
    && 0 <= cfg.prepMonths <= 6
    && ValidRates(cfg.rates)
  }

  /** The same configuration at another occupancy. */
  function AtOccupancy(cfg: Config, occ: real): Config {
    cfg.(rates := cfg.rates.(occupancy := occ))
  }

  function InvestmentOf(cfg: Config): real {
    TotalInvestment(cfg.monthlyRent, cfg.prepMonths, cfg.costs)
  }

  /** Occupied days per room in a 30-day month: a fractional day count. */
  function ActiveDays(occ: real): (d: real)
    ensures 0.0 <= occ ==> 0.0 <= d
    ensures occ <= 100.0 ==> d <= DaysPerMonth
    ensures occ == 100.0 ==> d == DaysPerMonth
    ensures d * 100.0 == occ * DaysPerMonth
  {
    DaysPerMonth * (occ / 100.0)
  }

  /** A percentage of an amount, as every revenue-based fee is computed. */
  function PercentOf(amount: real, pct: real): (fee: real)
    ensures amount == 0.0 ==> fee == 0.0
    ensures 0.0 <= amount && 0.0 <= pct <= 100.0 ==> 0.0 <= fee <= amount
  {
    amount * (pct / 100.0)
  }

  /** Percentages of one amount add: fees taken side by side off the same
      revenue equal one fee at the summed rate. */
  lemma PercentsAdd(amount: real, p: real, q: real)
    ensures PercentOf(amount, p) + PercentOf(amount, q) == PercentOf(amount, p + q)
  {
    assert p / 100.0 + q / 100.0 == (p + q) / 100.0;
  }

  /** A percentage of a multiple is the multiple of the percentage. */
  lemma PercentScales(amount: real, pct: real, k: real)
    ensures PercentOf(k * amount, pct) == k * PercentOf(amount, pct)
  {
  }

  /** The headline figures of one month. */
  datatype Monthly = Monthly(
    activeDays: real,
    revenue: real,
    otaFee: real,
    consumables: real,
    utilities: real,
    maintenance: real,
    management: real,
    operatingCost: real,
    profit: real,
    payback: Payback
  )

  /** Sum of the three revenue-based fees. */
  function FeeTotal(m: Monthly): real {
    m.otaFee + m.maintenance + m.management
  }

  /** Combined fee rate of a rate set, in percent. */
  function FeeRate(r: Rates): real {
    r.otaFee + r.managementFee + r.capex
  }

  /** The headline monthly figures at the configuration's target occupancy. */
  function Headline(cfg: Config): (m: Monthly)
    requires ValidConfig(cfg)
    ensures 3.0 <= m.activeDays <= DaysPerMonth
    ensures m.activeDays * 100.0 == cfg.rates.occupancy * DaysPerMonth
    ensures m.revenue == m.activeDays * NightlyTotal(cfg.rooms, Adr, 1.0)
    ensures m.consumables == m.activeDays * NightlyTotal(cfg.rooms, Consumables, 1.0)
    ensures m.utilities == m.activeDays * NightlyTotal(cfg.rooms, Utilities, 1.0)
    ensures m.otaFee == PercentOf(m.revenue, cfg.rates.otaFee)
    ensures m.maintenance == PercentOf(m.revenue, cfg.rates.capex)
    ensures m.management == PercentOf(m.revenue, cfg.rates.managementFee)
    ensures FeeTotal(m) == PercentOf(m.revenue, FeeRate(cfg.rates))
    ensures m.operatingCost == cfg.monthlyRent + cfg.fixedCosts + m.consumables + m.utilities + FeeTotal(m)
    ensures m.profit == m.revenue - m.operatingCost
    ensures m.payback == PaybackPeriod(InvestmentOf(cfg), m.profit)
  {
    var r := cfg.rates;
    var d := ActiveDays(r.occupancy);
    var revenue := NightlyTotal(cfg.rooms, Adr, d);
    var ota := PercentOf(revenue, r.otaFee);
    var consumables := NightlyTotal(cfg.rooms, Consumables, d);
    var utilities := NightlyTotal(cfg.rooms, Utilities, d);
    var maintenance := PercentOf(revenue, r.capex);
    var management := PercentOf(revenue, r.managementFee);
    var cost := cfg.monthlyRent + consumables + utilities
                + cfg.fixedCosts + maintenance + management + ota;
    var profit := revenue - cost;
    NightlyTotalScalesWithDays(cfg.rooms, Adr, d);
    NightlyTotalScalesWithDays(cfg.rooms, Consumables, d);
    NightlyTotalScalesWithDays(cfg.rooms, Utilities, d);
    PercentsAdd(revenue, r.otaFee, r.capex);
    PercentsAdd(revenue, r.otaFee + r.capex, r.managementFee);
    Monthly(d, revenue, ota, consumables, utilities, maintenance, management,
            cost, profit, PaybackPeriod(InvestmentOf(cfg), profit))
  }

  /** The two headline percentages shown beside cost and profit. */
  datatype Indicators = Indicators(expenseRatio: real, margin: Margin)

  /** The headline expense ratio and margin of a configuration: with revenue,
      the ratio is the cost's share of it and the two add up to 100; without
      revenue the ratio is 0 and the margin is blank. */
  function HeadlineIndicators(cfg: Config): (ind: Indicators)
    requires ValidConfig(cfg)
    ensures var m := Headline(cfg);
      && (m.revenue > 0.0 ==> ind.expenseRatio * m.revenue == m.operatingCost * 100.0)
      && (m.revenue > 0.0 ==> ind.margin.Percent? && ind.expenseRatio + ind.margin.pct == 100.0)
      && (m.revenue <= 0.0 ==> ind.expenseRatio == 0.0 && ind.margin == Blank)
  {
    var m := Headline(cfg);
    var ind := Indicators(ShareOfRevenue(m.operatingCost, m.revenue),
                          HeadlineMargin(m.profit, m.revenue));
    if m.revenue > 0.0 then
      ExpenseAndMarginComplement(m.revenue, m.operatingCost);
      ind
    else
      ind
  }

  /** Within the widget ranges the three fee rates add up to at most 80%, so
      with non-negative prices the fees never exceed four fifths of the
      revenue. */
  lemma FeesBelowRevenue(cfg: Config)
    requires ValidConfig(cfg)
    requires forall i :: 0 <= i < |cfg.rooms| ==> 0.0 <= cfg.rooms[i].adr
    ensures 0.0 <= FeeTotal(Headline(cfg)) <= 0.8 * Headline(cfg).revenue
  {
    var m := Headline(cfg);
    var f := FeeRate(cfg.rates);
    assert 0.0 <= m.revenue by {
      NightlyTotalNonNegative(cfg.rooms, Adr, m.activeDays);
    }
    assert FeeTotal(m) == PercentOf(m.revenue, f);
    PercentAtMost(m.revenue, f, 80.0);
  }

  /** A rate below a cap takes at most the capped share of a non-negative
      amount. */
  lemma PercentAtMost(amount: real, pct: real, cap: real)
    requires 0.0 <= amount && 0.0 <= pct <= cap
    ensures 0.0 <= PercentOf(amount, pct) <= amount * (cap / 100.0)
  {
    ProductNonNegative(amount, pct / 100.0);
    ProductNonNegative(amount, cap / 100.0 - pct / 100.0);
  }

  /** Doubling every room count doubles revenue, per-night costs and fees,
      leaves rent and fixed costs as they are, and so adds rent and fixed
      costs on top of twice the profit rather than just doubling it. */
  lemma DoublingCounts(cfg: Config)
    requires ValidConfig(cfg)
    ensures ValidConfig(cfg.(rooms := DoubleCounts(cfg.rooms)))
    ensures var m := Headline(cfg);
      var m2 := Headline(cfg.(rooms := DoubleCounts(cfg.rooms)));
      && m2.revenue == 2.0 * m.revenue
      && m2.consumables == 2.0 * m.consumables
      && m2.utilities == 2.0 * m.utilities
      && m2.otaFee == 2.0 * m.otaFee
      && m2.maintenance == 2.0 * m.maintenance
      && m2.management == 2.0 * m.management
      && m2.operatingCost == 2.0 * m.operatingCost - cfg.monthlyRent - cfg.fixedCosts
      && m2.profit == 2.0 * m.profit + cfg.monthlyRent + cfg.fixedCosts
  {
    DoubledConfigValid(cfg);
    DoublingPerNightSums(cfg);
    DoublingFees(cfg);
  }

  /** Doubling the counts keeps a configuration within the widget ranges. */
  lemma DoubledConfigValid(cfg: Config)
    requires ValidConfig(cfg)
    ensures ValidConfig(cfg.(rooms := DoubleCounts(cfg.rooms)))
  {
  }

  /** Doubling the counts doubles revenue, consumables and utilities. */
  lemma DoublingPerNightSums(cfg: Config)
    requires ValidConfig(cfg)
    requires ValidConfig(cfg.(rooms := DoubleCounts(cfg.rooms)))
    ensures var m := Headline(cfg);
      var m2 := Headline(cfg.(rooms := DoubleCounts(cfg.rooms)));
      && m2.revenue == 2.0 * m.revenue
      && m2.consumables == 2.0 * m.consumables
      && m2.utilities == 2.0 * m.utilities
  {
    var d := ActiveDays(cfg.rates.occupancy);
    NightlyTotalDoubles(cfg.rooms, Adr, d);
    NightlyTotalDoubles(cfg.rooms, Consumables, d);
    NightlyTotalDoubles(cfg.rooms, Utilities, d);
  }

  /** Doubling the counts doubles revenue and so each fee. */
  lemma DoublingFees(cfg: Config)
    requires ValidConfig(cfg)
    requires ValidConfig(cfg.(rooms := DoubleCounts(cfg.rooms)))
    ensures var m := Headline(cfg);
      var m2 := Headline(cfg.(rooms := DoubleCounts(cfg.rooms)));
      && m2.otaFee == 2.0 * m.otaFee
      && m2.maintenance == 2.0 * m.maintenance
      && m2.management == 2.0 * m.management
  {
    var m := Headline(cfg);
    var r := cfg.rates;
    var m2 := Headline(cfg.(rooms := DoubleCounts(cfg.rooms)));
    assert m2.revenue == 2.0 * m.revenue by {
      DoublingPerNightSums(cfg);
    }
    assert m2.otaFee == 2.0 * m.otaFee by {
      PercentScales(m.revenue, r.otaFee, 2.0);
    }
    assert m2.maintenance == 2.0 * m.maintenance by {
      PercentScales(m.revenue, r.capex, 2.0);
    }
    assert m2.management == 2.0 * m.management by {
      PercentScales(m.revenue, r.managementFee, 2.0);
    }
  }

  /** For non-negative room prices, a higher target occupancy never lowers
      the revenue. */
  lemma RevenueMonotoneInOccupancy(cfg: Config, occ: real)
    requires ValidConfig(cfg)
    requires cfg.rates.occupancy <= occ <= 100.0
    requires forall i :: 0 <= i < |cfg.rooms| ==> 0.0 <= cfg.rooms[i].adr
    ensures ValidConfig(AtOccupancy(cfg, occ))
    ensures Headline(cfg).revenue <= Headline(AtOccupancy(cfg, occ)).revenue
  {
    var d1 := ActiveDays(cfg.rates.occupancy);
    var d2 := ActiveDays(occ);
    assert d1 <= d2;
    NightlyTotalMonotoneInDays(cfg.rooms, Adr, d1, d2);
  }

  /** When no room earns anything, there is no revenue and no fee, the month
      loses its whole operating cost, and the investment is unrecoverable. */
  lemma ZeroPriceIsUnrecoverable(cfg: Config)
    requires ValidConfig(cfg)
    requires forall i :: 0 <= i < |cfg.rooms| ==> cfg.rooms[i].adr == 0.0
    requires 0.0 <= cfg.monthlyRent && 0.0 <= cfg.fixedCosts
    requires forall i :: 0 <= i < |cfg.rooms| ==>
      0.0 <= cfg.rooms[i].consumables && 0.0 <= cfg.rooms[i].utilDay
    ensures var m := Headline(cfg);
      && m.revenue == 0.0
      && m.otaFee == 0.0 && m.maintenance == 0.0 && m.management == 0.0
      && m.profit == -m.operatingCost <= 0.0
      && m.payback == Unrecoverable
  {
    var m := Headline(cfg);
    assert m.revenue == 0.0 by {
      NightlyTotalOfZeroRates(cfg.rooms, Adr, m.activeDays);
    }
    assert 0.0 <= m.consumables by {
      NightlyTotalNonNegative(cfg.rooms, Consumables, m.activeDays);
    }
    assert 0.0 <= m.utilities by {
      NightlyTotalNonNegative(cfg.rooms, Utilities, m.activeDays);
    }
  }
}
