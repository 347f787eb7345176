/**
 The initial investment: rent paid during the preparation months plus the
 eleven one-off line items of the start-up budget.
 */
module Investment {

  /** The eleven one-off start-up costs, in yen. */
  datatype InitialCosts = InitialCosts(
    deposit: real,             // shikikin
    keyMoney: real,            // reikin
    brokerFee: real,
    photography: real,
    renovation: real,
    furnitureAppliances: real,
    guarantorFee: real,
    fireInsurance: real,
    licenseFee: real,
    fireSafetyWork: real,
    contingency: real          // other reserve
  )

  /** Rent carried while the property is being prepared. */
  function PrepRent(monthlyRent: real, prepMonths: int): (r: real)
    ensures prepMonths == 0 ==> r == 0.0
    ensures 0.0 <= monthlyRent && 0 <= prepMonths ==> 0.0 <= r
  {
    monthlyRent * (prepMonths as real)
  }

  /** Total investment, summed field by field as the dashboard does. With
      non-negative amounts it is at least the rent of the preparation
      months. */
  function TotalInvestment(monthlyRent: real, prepMonths: int, c: InitialCosts): (total: real)
    ensures NonNegativeCosts(monthlyRent, prepMonths, c) ==>
      0.0 <= PrepRent(monthlyRent, prepMonths) <= total
  {
    PrepRent(monthlyRent, prepMonths) + c.deposit + c.keyMoney + c.brokerFee + c.photography
      + c.renovation + c.furnitureAppliances + c.guarantorFee
      + c.fireInsurance + c.licenseFee + c.fireSafetyWork + c.contingency
  }

  /** The twelve amounts of the investment breakdown, prep rent first, in the
      order the dashboard lists them. */
  function Breakdown(monthlyRent: real, prepMonths: int, c: InitialCosts): (items: seq<real>)
    ensures |items| == 12
    ensures items[0] == PrepRent(monthlyRent, prepMonths)
  {
    [PrepRent(monthlyRent, prepMonths), c.deposit, c.keyMoney, c.brokerFee, c.photography,
     c.renovation, c.furnitureAppliances, c.guarantorFee, c.fireInsurance,
     c.licenseFee, c.fireSafetyWork, c.contingency]
  }

  function Sum(xs: seq<real>): real
    decreases |xs|
  {
    if |xs| == 0 then 0.0 else xs[0] + Sum(xs[1..])
  }

  /** Every line item (and the monthly rent) is non-negative. */
  predicate NonNegativeCosts(monthlyRent: real, prepMonths: int, c: InitialCosts) {
    && 0.0 <= monthlyRent && 0 <= prepMonths
    && 0.0 <= c.deposit && 0.0 <= c.keyMoney && 0.0 <= c.brokerFee && 0.0 <= c.photography
    && 0.0 <= c.renovation && 0.0 <= c.furnitureAppliances && 0.0 <= c.guarantorFee
    && 0.0 <= c.fireInsurance && 0.0 <= c.licenseFee && 0.0 <= c.fireSafetyWork
    && 0.0 <= c.contingency
  }

  /** A sum of non-negative amounts is at least each of its amounts. */
  lemma {:induction false} SumBoundsItems(xs: seq<real>)
    requires forall i :: 0 <= i < |xs| ==> 0.0 <= xs[i]
    ensures 0.0 <= Sum(xs)
    ensures forall i :: 0 <= i < |xs| ==> xs[i] <= Sum(xs)
    decreases |xs|
  {
    if |xs| > 0 {
      SumBoundsItems(xs[1..]);
      assert forall i :: 1 <= i < |xs| ==> xs[i] == xs[1..][i - 1];
    }
  }

  /** The field-by-field total is exactly the sum of the breakdown items:
      no line item is left out or counted twice. */
  lemma TotalIsSumOfBreakdown(monthlyRent: real, prepMonths: int, c: InitialCosts)
    ensures TotalInvestment(monthlyRent, prepMonths, c) == Sum(Breakdown(monthlyRent, prepMonths, c))
  {
    var b := Breakdown(monthlyRent, prepMonths, c);
    assert b[11..][1..] == [];
    assert Sum(b[11..]) == c.contingency;
    assert Sum(b[10..]) == c.fireSafetyWork + Sum(b[11..]) by { assert b[10..][1..] == b[11..]; }
    assert Sum(b[9..]) == c.licenseFee + Sum(b[10..]) by { assert b[9..][1..] == b[10..]; }
    assert Sum(b[8..]) == c.fireInsurance + Sum(b[9..]) by { assert b[8..][1..] == b[9..]; }
    assert Sum(b[7..]) == c.guarantorFee + Sum(b[8..]) by { assert b[7..][1..] == b[8..]; }
    assert Sum(b[6..]) == c.furnitureAppliances + Sum(b[7..]) by { assert b[6..][1..] == b[7..]; }
    assert Sum(b[5..]) == c.renovation + Sum(b[6..]) by { assert b[5..][1..] == b[6..]; }
    assert Sum(b[4..]) == c.photography + Sum(b[5..]) by { assert b[4..][1..] == b[5..]; }
    assert Sum(b[3..]) == c.brokerFee + Sum(b[4..]) by { assert b[3..][1..] == b[4..]; }
    assert Sum(b[2..]) == c.keyMoney + Sum(b[3..]) by { assert b[2..][1..] == b[3..]; }
    assert Sum(b[1..]) == c.deposit + Sum(b[2..]) by { assert b[1..][1..] == b[2..]; }
  }

  /** With non-negative rent and items the investment is non-negative and
      covers each item of its breakdown, including the prep rent. */
  lemma InvestmentCoversItems(monthlyRent: real, prepMonths: int, c: InitialCosts)
    requires NonNegativeCosts(monthlyRent, prepMonths, c)
    ensures 0.0 <= TotalInvestment(monthlyRent, prepMonths, c)
    ensures forall i :: 0 <= i < 12 ==>
      Breakdown(monthlyRent, prepMonths, c)[i] <= TotalInvestment(monthlyRent, prepMonths, c)
  {
    var b := Breakdown(monthlyRent, prepMonths, c);
    assert 0.0 <= monthlyRent * (prepMonths as real);
    SumBoundsItems(b);
    TotalIsSumOfBreakdown(monthlyRent, prepMonths, c);
  }

  /** One more preparation month adds exactly one month of rent. */
  lemma ExtraPrepMonthAddsRent(monthlyRent: real, prepMonths: int, c: InitialCosts)
    ensures TotalInvestment(monthlyRent, prepMonths + 1, c)
         == TotalInvestment(monthlyRent, prepMonths, c) + monthlyRent
  {
    assert monthlyRent * ((prepMonths + 1) as real) == monthlyRent * (prepMonths as real) + monthlyRent;
  }
}
