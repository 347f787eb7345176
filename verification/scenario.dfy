/**
 A worked example: one room type of ten rooms at 8,000 yen a night, at 70%
 occupancy, with a 2-month preparation period.
 */
module Scenario {
  import opened Rooms
  import opened Investment
  import opened Ratios
  import opened Engine
  import opened Sensitivity

  function Example(): Config {
    Config(
      300000.0, 2,
      InitialCosts(600000.0, 300000.0, 330000.0, 50000.0, 500000.0, 600000.0,
                   150000.0, 20000.0, 8000.0, 0.0, 0.0),
      [RoomType("A", 10, 8000.0, 200.0, 300.0)],
      Rates(70.0, 15.0, 20.0, 3.0),
      5000.0)
  }

  /** The example month: 21 active days, 1,680,000 yen of revenue against
      1,048,400 yen of cost, and a 3,158,000 yen investment paid back in
      exactly five months. */
  lemma ExampleMonth()
    ensures ValidConfig(Example())
    ensures var m := Headline(Example());
      && m.activeDays == 21.0
      && m.revenue == 1680000.0
      && m.otaFee == 252000.0
      && m.maintenance == 50400.0
      && m.management == 336000.0
      && m.consumables == 42000.0
      && m.utilities == 63000.0
      && m.operatingCost == 1048400.0
      && m.profit == 631600.0
      && InvestmentOf(Example()) == 3158000.0
      && m.payback == Months(5.0)
  {
    var cfg := Example();
    var rooms := cfg.rooms;
    assert rooms[1..] == [];
    assert NightlyTotal(rooms, Adr, 1.0) == 80000.0;
    assert NightlyTotal(rooms, Consumables, 1.0) == 2000.0;
    assert NightlyTotal(rooms, Utilities, 1.0) == 3000.0;
  }

  /** The example's 70% row of the sensitivity table reproduces the headline
      month, and its effective ADR is the single room type's price. */
  lemma ExampleRow()
    ensures var row := Table(Example())[4];
      && row.occupancy == 70
      && row.revenue == 1680000.0
      && row.profit == 631600.0
      && row.adr == 8000.0
  {
    ExampleMonth();
    RowMatchesHeadline(Example(), 4);
    assert Example().rooms[1..] == [];
    RowAdrIsWeightedMean(Example(), 4);
  }
}
