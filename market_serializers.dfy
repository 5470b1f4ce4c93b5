/** The market serializers: price, date and target checks, the days until a forecast
    date, and an alert's current price. */
module MarketSerializers {
  import opened Wrappers
  import opened Domain
  import opened Lists
  import opened Sorting
  import opened MarketModels

  function ValidatePricePerKg(value: real): (r: Result<real, string>)
    ensures r.Success? <==> value > 0.0
    ensures r.Success? ==> r.value == value
    ensures r.Failure? ==> r.error == "Price must be greater than 0"
  {
    if value <= 0.0 then Failure("Price must be greater than 0") else Success(value)
  }

  /** A price may be dated today or earlier, never later. */
  function ValidateDate(value: Day, today: Day): (r: Result<Day, string>)
    ensures r.Success? <==> value <= today
    ensures r.Success? ==> r.value == value
    ensures r.Failure? ==> r.error == "Price date cannot be in the future"
  {
    if value > today then Failure("Price date cannot be in the future") else Success(value)
  }

  function ValidateTargetPrice(value: real): (r: Result<real, string>)
    ensures r.Success? <==> value > 0.0
    ensures r.Success? ==> r.value == value
    ensures r.Failure? ==> r.error == "Target price must be greater than 0"
  {
    if value <= 0.0 then Failure("Target price must be greater than 0") else Success(value)
  }

  /** Days from today to the forecast date; negative for a date already past. */
  function DaysAhead(forecastDate: Day, today: Day): (d: int)
    ensures today + d == forecastDate
    ensures d < 0 <==> forecastDate < today
  {
    forecastDate - today
  }

  /** The prices recorded for the alert's crop at the alert's market. */
  function PricesFor(crop: string, market: string, prices: seq<MarketPrice>): (r: seq<MarketPrice>)
    ensures forall p :: p in r <==> p in prices && p.crop == crop && p.market == market
  {
    var keep := (p: MarketPrice) => p.crop == crop && p.market == market;
    FilterMembers(prices, keep);
    Filter(prices, keep)
  }

  /** The current price of a crop at a market: its latest-dated price there, or None.
      An alert shows the current price of its own crop and market. */
  function CurrentPrice(crop: string, market: string, prices: seq<MarketPrice>): (r: Option<MarketPrice>)
    ensures r.None? <==> forall p :: p in prices ==> p.crop != crop || p.market != market
    ensures r.Some? ==>
      r.value in prices && r.value.crop == crop && r.value.market == market
      && forall p :: p in prices && p.crop == crop && p.market == market ==> p.date <= r.value.date
  {
    var mine := PricesFor(crop, market, prices);
    var r := Latest(mine, DateKey);
    assert mine != [] ==> mine[0] in mine;
    assert r.Some? ==> forall p :: p in mine ==> DateKey(p) <= DateKey(r.value) by {
      if r.Some? {
        forall p | p in mine ensures DateKey(p) <= DateKey(r.value) {
          var i :| 0 <= i < |mine| && mine[i] == p;
        }
      }
    }
    r
  }
}
