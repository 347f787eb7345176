/**
 The occupancy sensitivity table: the month recomputed at eight fixed
 occupancy levels, with per-room figures (effective ADR, RevPAR, GOPPAR),
 margin and payback per row.
 */
module Sensitivity {
  import opened Rooms
  import opened Ratios
  import opened Engine
  import opened RealArith

  /** The fixed occupancy grid, in percent. */
  const Grid: seq<int> := [30, 40, 50, 60, 70, 80, 90, 100]

  /** One row of the table. */
  datatype Row = Row(
    occupancy: int,
    adr: real,
    revPar: real,
    gopPar: real,
    revenue: real,
    cost: real,
    profit: real,
    margin: real,
    payback: Payback
  )

  /** The row at occupancy `o`. Its cost adds the terms in their own order and
      sums consumables and utilities in one pass per room type. */
  function RowAt(cfg: Config, o: int): (row: Row)
    ensures row.occupancy == o
    ensures row.revenue == ActiveDays(o as real) * NightlyTotal(cfg.rooms, Adr, 1.0)
    ensures row.profit == row.revenue - row.cost
  {
    var r := cfg.rates;
    var d := ActiveDays(o as real);
    var revenue := NightlyTotal(cfg.rooms, Adr, d);
    var cost := cfg.monthlyRent + cfg.fixedCosts
                + PercentOf(revenue, r.capex) + PercentOf(revenue, r.managementFee)
                + PercentOf(revenue, r.otaFee) + NightlyTotal(cfg.rooms, Variable, d);
    var profit := revenue - cost;
    var rooms := TotalRooms(cfg.rooms) as real;
    NightlyTotalScalesWithDays(cfg.rooms, Adr, d);
    Row(o,
        GuardedDiv(revenue, rooms * d),
        GuardedDiv(revenue, rooms * DaysPerMonth),
        GuardedDiv(profit, rooms * DaysPerMonth),
        revenue, cost, profit,
        ShareOfRevenue(profit, revenue),
        PaybackPeriod(InvestmentOf(cfg), profit))
  }

  /** The table: one row per grid occupancy, in grid order. */
  function Table(cfg: Config): (rows: seq<Row>)
    ensures |rows| == 8
    ensures forall i :: 0 <= i < |rows| ==> rows[i].occupancy == 30 + 10 * i
  {
    seq(|Grid|, i requires 0 <= i < |Grid| => RowAt(cfg, Grid[i]))
  }

  /** The table builder as the dashboard runs it: a loop over the grid that
      appends one row per occupancy. */
  method BuildTable(cfg: Config) returns (rows: seq<Row>)
    ensures |rows| == |Grid|
    ensures forall i :: 0 <= i < |Grid| ==> rows[i] == RowAt(cfg, Grid[i])
  {
    rows := [];
    var k := 0;
    while k < |Grid|
      invariant 0 <= k <= |Grid|
      invariant |rows| == k
      invariant forall i :: 0 <= i < k ==> rows[i] == RowAt(cfg, Grid[i])
    {
      rows := rows + [RowAt(cfg, Grid[k])];
      k := k + 1;
    }
  }

  /** The loop and the table agree. */
  lemma BuildTableIsTable(cfg: Config, rows: seq<Row>)
    requires |rows| == |Grid|
    requires forall i :: 0 <= i < |Grid| ==> rows[i] == RowAt(cfg, Grid[i])
    ensures rows == Table(cfg)
  {
  }

  /** The target occupancy only moves the headline: the table is the same
      whatever it is set to. */
  lemma TableIgnoresTarget(cfg: Config, occ: real)
    ensures Table(AtOccupancy(cfg, occ)) == Table(cfg)
  {
    var cfg2 := AtOccupancy(cfg, occ);
    assert cfg2.rooms == cfg.rooms;
    assert cfg2.rates.otaFee == cfg.rates.otaFee;
    assert cfg2.rates.managementFee == cfg.rates.managementFee;
    assert cfg2.rates.capex == cfg.rates.capex;
    assert InvestmentOf(cfg2) == InvestmentOf(cfg);
    forall o: int
      ensures RowAt(cfg2, o) == RowAt(cfg, o)
    {
    }
  }

  /** Each row is the headline month recomputed at that row's occupancy:
      same revenue, same operating cost, same profit and same payback. */
  lemma RowMatchesHeadline(cfg: Config, i: int)
    requires ValidConfig(cfg)
    requires 0 <= i < |Grid|
    ensures ValidConfig(AtOccupancy(cfg, Grid[i] as real))
    ensures var row := Table(cfg)[i];
      var m := Headline(AtOccupancy(cfg, Grid[i] as real));
      && row.revenue == m.revenue
      && row.cost == m.operatingCost
      && row.profit == m.profit
      && row.payback == m.payback
  {
    var o := Grid[i];
    assert 30 <= o <= 100;
    var cfg2 := AtOccupancy(cfg, o as real);
    var d := ActiveDays(o as real);
    VariableSplits(cfg.rooms, d);
  }

  /** The per-room quotients of a row with n >= 1 rooms at occupancy o >= 30:
      every guard passes, and RevPAR is ADR scaled by the occupancy. */
  lemma PerRoomQuotients(revenue: real, profit: real, n: real, o: real)
    requires 1.0 <= n && 30.0 <= o
    ensures var d := ActiveDays(o);
      && 0.0 < n * d && 0.0 < n * DaysPerMonth
      && GuardedDiv(revenue, n * d) == revenue / (n * d)
      && GuardedDiv(revenue, n * DaysPerMonth) == revenue / (n * DaysPerMonth)
      && GuardedDiv(profit, n * DaysPerMonth) == profit / (n * DaysPerMonth)
      && GuardedDiv(revenue, n * DaysPerMonth) == GuardedDiv(revenue, n * d) * (o / 100.0)
  {
    var d := ActiveDays(o);
    ProductPositive(n, d);
    ProductPositive(n, DaysPerMonth);
    assert n * d == (n * DaysPerMonth) * (o / 100.0);
    DivRescale(revenue, n * DaysPerMonth, o / 100.0);
  }

  /** With at least one room and at least 30% occupancy, every per-room
      denominator is positive, so no row takes a fallback: ADR, RevPAR and
      GOPPAR are true quotients, and RevPAR is ADR times the occupancy. */
  lemma RowRatiosDefined(cfg: Config, i: int)
    requires ValidConfig(cfg)
    requires 0 <= i < |Grid|
    ensures var row := Table(cfg)[i];
      var n := TotalRooms(cfg.rooms) as real;
      && 0.0 < n * ActiveDays(Grid[i] as real)
      && row.adr == row.revenue / (n * ActiveDays(Grid[i] as real))
      && row.revPar == row.revenue / (n * DaysPerMonth)
      && row.gopPar == row.profit / (n * DaysPerMonth)
      && row.revPar == row.adr * (Grid[i] as real / 100.0)
  {
    TotalRoomsAtLeastTypes(cfg.rooms);
    var row := Table(cfg)[i];
    var n := TotalRooms(cfg.rooms) as real;
    var o := Grid[i] as real;
    var d := ActiveDays(o);
    assert row == RowAt(cfg, Grid[i]);
    assert row.adr == GuardedDiv(row.revenue, n * d);
    assert row.revPar == GuardedDiv(row.revenue, n * DaysPerMonth);
    assert row.gopPar == GuardedDiv(row.profit, n * DaysPerMonth);
    PerRoomQuotients(row.revenue, row.profit, n, o);
  }

  /** The effective ADR of a row is the count-weighted mean of the room-type
      prices: total one-night takings over total rooms, whatever the row. */
  lemma RowAdrIsWeightedMean(cfg: Config, i: int)
    requires ValidConfig(cfg)
    requires 0 <= i < |Grid|
    ensures 0 < TotalRooms(cfg.rooms)
    ensures Table(cfg)[i].adr == NightlyTotal(cfg.rooms, Adr, 1.0) / (TotalRooms(cfg.rooms) as real)
  {
    RowRatiosDefined(cfg, i);
    TotalRoomsAtLeastTypes(cfg.rooms);
    var n := TotalRooms(cfg.rooms) as real;
    var d := ActiveDays(Grid[i] as real);
    var s := NightlyTotal(cfg.rooms, Adr, 1.0);
    NightlyTotalScalesWithDays(cfg.rooms, Adr, d);
    assert Table(cfg)[i].revenue == NightlyTotal(cfg.rooms, Adr, d);
    CommonFactor(s, n, d);
  }

  /** Being a weighted mean, the effective ADR lies between the lowest and the
      highest room-type price. */
  lemma RowAdrBetween(cfg: Config, i: int, lo: real, hi: real)
    requires ValidConfig(cfg)
    requires 0 <= i < |Grid|
    requires forall j :: 0 <= j < |cfg.rooms| ==> lo <= cfg.rooms[j].adr <= hi
    ensures lo <= Table(cfg)[i].adr <= hi
  {
    var s := NightlyTotal(cfg.rooms, Adr, 1.0);
    var n := TotalRooms(cfg.rooms) as real;
    NightlyTotalBetween(cfg.rooms, Adr, lo, hi);
    TotalRoomsAtLeastTypes(cfg.rooms);
    assert 0.0 < n;
    QuotientBetween(s, n, lo, hi);
    RowAdrIsWeightedMean(cfg, i);
  }
}
