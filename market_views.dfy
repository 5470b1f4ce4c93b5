/** Market analysis: the latest price per crop, the price trend over a period, the
    forecast horizon with its confidence decay and trend factor, and the sell-or-wait
    advice. */
module MarketViews {
  import opened Wrappers
  import opened Numbers
  import opened Domain
  import opened Lists
  import opened Sorting
  import opened Grouping
  import opened MarketModels
  import opened MarketSerializers

  const DefaultMarket := "national"

  datatype MarketError = BadRequest(message: string) | NotFound(message: string)

  const CropRequired := BadRequest("crop parameter is required")

  /** A missing or empty crop parameter is refused. */
  predicate HasCrop(crop: Option<string>)
  {
    crop.Some? && crop.value != ""
  }

  /** The price column of a series. */
  function Prices(ps: seq<MarketPrice>): (v: seq<real>)
    ensures |v| == |ps| && forall i :: 0 <= i < |ps| ==> v[i] == ps[i].pricePerKg
  {
    if ps == [] then [] else [ps[0].pricePerKg] + Prices(ps[1..])
  }

  /** Prices in date order, earliest first. */
  function Chronological(ps: seq<MarketPrice>): (r: seq<MarketPrice>)
    ensures multiset(r) == multiset(ps)
  {
    SortByKey(ps, EarliestFirst)
  }

  lemma ChronologicalOrdersDates(ps: seq<MarketPrice>)
    ensures forall i, j :: 0 <= i < j < |Chronological(ps)| ==> Chronological(ps)[i].date <= Chronological(ps)[j].date
  {
    SortByKeySorted(ps, EarliestFirst);
  }

  // ---------------------------------------------------------------- latest prices

  /** For each crop in turn, its latest price at the market, skipping crops without one. */
  function LatestPerCrop(crops: seq<string>, market: string, prices: seq<MarketPrice>): seq<MarketPrice>
  {
    if crops == [] then []
    else
      var init := LatestPerCrop(crops[..|crops| - 1], market, prices);
      match CurrentPrice(crops[|crops| - 1], market, prices)
      case None => init
      case Some(p) => init + [p]
  }

  /** A price row's crop and date: the columns the crop query selects once the model's
      default ordering (newest date first, then crop) is applied to it. */
  function CropDate(p: MarketPrice): (string, Day)
  {
    (p.crop, p.date)
  }

  /** Code-point order on names, a prefix first. */
  predicate NameBefore(a: string, b: string)
  {
    if a == [] then true
    else if b == [] then false
    else if a[0] != b[0] then a[0] < b[0]
    else NameBefore(a[1..], b[1..])
  }

  /** Any two names are ordered one way or the other. */
  lemma {:induction false} NameOrderTotal(a: string, b: string)
    ensures NameBefore(a, b) || NameBefore(b, a)
  {
    if a != [] && b != [] && a[0] == b[0] {
      NameOrderTotal(a[1..], b[1..]);
    }
  }

  /** The ordering `-date, crop`: a later date first, equal dates by crop name. */
  predicate RowBefore(x: (string, Day), y: (string, Day))
  {
    x.1 > y.1 || (x.1 == y.1 && NameBefore(x.0, y.0))
  }

  predicate RowsOrdered(rows: seq<(string, Day)>)
  {
    forall i :: 0 < i < |rows| ==> RowBefore(rows[i - 1], rows[i])
  }

  /** Inserts a row before the first row it precedes. */
  function InsertRow(x: (string, Day), rows: seq<(string, Day)>): (r: seq<(string, Day)>)
    ensures multiset(r) == multiset(rows) + multiset{x}
    ensures |r| == |rows| + 1
    ensures r[0] == x || (rows != [] && r[0] == rows[0])
    ensures RowsOrdered(rows) ==> RowsOrdered(r)
  {
    if rows == [] then [x]
    else if RowBefore(x, rows[0]) then [x] + rows
    else
      var rest := InsertRow(x, rows[1..]);
      NameOrderTotal(x.0, rows[0].0);
      assert rows == [rows[0]] + rows[1..];
      [rows[0]] + rest
  }

  /** The rows in the query's order. */
  function SortRows(rows: seq<(string, Day)>): (r: seq<(string, Day)>)
    ensures multiset(r) == multiset(rows)
    ensures RowsOrdered(r)
  {
    if rows == [] then []
    else
      assert rows == [rows[0]] + rows[1..];
      InsertRow(rows[0], SortRows(rows[1..]))
  }

  /** The rows `values_list('crop').distinct()` returns under the default ordering: one per
      distinct (crop, date) pair, newest date first, then by crop. */
  function QueryRows(prices: seq<MarketPrice>): (rows: seq<(string, Day)>)
    ensures RowsOrdered(rows)
  {
    SortRows(Keys(prices, CropDate))
  }

  /** The query has a row for every (crop, date) pair priced, and no other. */
  lemma QueryRowsMembers(prices: seq<MarketPrice>)
    ensures forall row :: row in QueryRows(prices) <==> exists p :: p in prices && CropDate(p) == row
  {
    var pairs := Keys(prices, CropDate);
    var rows := SortRows(pairs);
    forall row ensures row in rows <==> exists p :: p in prices && CropDate(p) == row {
      assert row in rows <==> row in multiset(pairs);
      if row in pairs {
        var i :| 0 <= i < |prices| && CropDate(prices[i]) == row;
        assert prices[i] in prices;
      }
      if p :| p in prices && CropDate(p) == row {
        var i :| 0 <= i < |prices| && prices[i] == p;
        assert row in pairs;
      }
    }
  }

  /** The crop column of those rows: the crops the request loops over. */
  function QueryCrops(prices: seq<MarketPrice>): (crops: seq<string>)
    ensures |crops| == |QueryRows(prices)|
    ensures forall i :: 0 <= i < |crops| ==> crops[i] == QueryRows(prices)[i].0
  {
    var rows := QueryRows(prices);
    seq(|rows|, i requires 0 <= i < |rows| => rows[i].0)
  }

  /** The crops looped over are exactly the crops priced somewhere. */
  lemma QueryCropsMembers(prices: seq<MarketPrice>)
    ensures forall c :: c in QueryCrops(prices) <==> exists p :: p in prices && p.crop == c
  {
    var rows := QueryRows(prices);
    var crops := QueryCrops(prices);
    QueryRowsMembers(prices);
    forall c | c in crops ensures exists p :: p in prices && p.crop == c {
      var i :| 0 <= i < |crops| && crops[i] == c;
      assert rows[i] in rows;
    }
    forall c | exists p :: p in prices && p.crop == c ensures c in crops {
      var p :| p in prices && p.crop == c;
      assert CropDate(p) in rows;
      var i :| 0 <= i < |rows| && rows[i] == CropDate(p);
      assert crops[i] == c;
    }
  }

  /** The latest-prices request as written: one pass over the crop column of the query,
      appending each row's crop's latest price at the market (national by default). */
  method LatestPrices(market: Option<string>, prices: seq<MarketPrice>) returns (latest: seq<MarketPrice>)
    ensures latest == LatestPerCrop(QueryCrops(prices), market.GetOr(DefaultMarket), prices)
  {
    var m := market.GetOr(DefaultMarket);
    var crops := QueryCrops(prices);
    latest := [];
    assert crops[..0] == [];
    for i := 0 to |crops|
      invariant latest == LatestPerCrop(crops[..i], m, prices)
    {
      var done, c := crops[..i], crops[i];
      assert crops[..i + 1] == done + [c];
      LatestPerCropSnoc(done, c, m, prices);
      var price := CurrentPrice(c, m, prices);
      if price.Some? {
        latest := latest + [price.value];
      }
    }
    assert crops[..|crops|] == crops;
  }

  /** A crop priced on two dates is listed twice: the query yields a row per date, and
      each row appends the same latest price. */
  lemma LatestPricesRepeatsCrop(early: MarketPrice, late: MarketPrice)
    requires early.crop == late.crop && early.market == late.market && early.date < late.date
    ensures LatestPerCrop(QueryCrops([early, late]), late.market, [early, late]) == [late, late]
  {
    var prices := [early, late];
    QueryCropsOfRepricedCrop(early, late);
    CurrentPriceOfRepricedCrop(early, late);
    LatestPerCropSnoc([], late.crop, late.market, prices);
    LatestPerCropSnoc([late.crop], late.crop, late.market, prices);
    assert [late.crop] == [] + [late.crop] && [late.crop, late.crop] == [late.crop] + [late.crop];
  }

  lemma QueryCropsOfRepricedCrop(early: MarketPrice, late: MarketPrice)
    requires early.crop == late.crop && early.date < late.date
    ensures QueryCrops([early, late]) == [late.crop, late.crop]
  {
    QueryRowsOfRepricedCrop(early, late);
  }

  lemma CurrentPriceOfRepricedCrop(early: MarketPrice, late: MarketPrice)
    requires early.crop == late.crop && early.market == late.market && early.date < late.date
    ensures CurrentPrice(late.crop, late.market, [early, late]) == Some(late)
  {
    assert late in [early, late];
  }

  /** The query's rows for one crop priced on two dates: the later date first. */
  lemma QueryRowsOfRepricedCrop(early: MarketPrice, late: MarketPrice)
    requires early.crop == late.crop && early.date < late.date
    ensures QueryRows([early, late]) == [CropDate(late), CropDate(early)]
  {
    var one, two := CropDate(early), CropDate(late);
    KeysOfRepricedCrop(early, late);
    assert SortRows([two]) == [two];
    assert [one, two][1..] == [two];
    assert !RowBefore(one, two);
    assert InsertRow(one, [two]) == [two] + InsertRow(one, []);
  }

  /** The request as evidently intended: one entry per distinct crop, each the latest
      price of its crop at the market, and every crop priced there listed. */
  function DistinctLatestPrices(market: Option<string>, prices: seq<MarketPrice>): (latest: seq<MarketPrice>)
    ensures forall i, j :: 0 <= i < j < |latest| ==> latest[i].crop != latest[j].crop
    ensures forall x :: x in latest ==>
      x in prices && x.market == market.GetOr(DefaultMarket)
      && forall p :: p in prices && p.crop == x.crop && p.market == x.market ==> p.date <= x.date
    ensures forall p :: p in prices && p.market == market.GetOr(DefaultMarket) ==>
      exists x :: x in latest && x.crop == p.crop
  {
    var m := market.GetOr(DefaultMarket);
    var crops := Keys(prices, CropOf);
    LatestPerCropDistinct(crops, m, prices);
    LatestPerCropAreLatest(crops, m, prices);
    LatestPerCropComplete(crops, m, prices);
    forall p | p in prices && p.market == m ensures p.crop in crops {
      var k :| 0 <= k < |prices| && prices[k] == p;
      assert CropOf(prices[k]) == p.crop;
    }
    LatestPerCrop(crops, m, prices)
  }

  /** One more crop adds its current price, when it has one. */
  lemma LatestPerCropSnoc(crops: seq<string>, c: string, market: string, prices: seq<MarketPrice>)
    ensures LatestPerCrop(crops + [c], market, prices)
            == LatestPerCrop(crops, market, prices)
               + (if CurrentPrice(c, market, prices).Some? then [CurrentPrice(c, market, prices).value] else [])
  {
    assert (crops + [c])[..|crops|] == crops;
  }

  /** Every listed price is a price of one of the crops at the market, and the latest
      one of its crop there. */
  lemma {:induction false} LatestPerCropAreLatest(crops: seq<string>, market: string, prices: seq<MarketPrice>)
    ensures |LatestPerCrop(crops, market, prices)| <= |crops|
    ensures forall x :: x in LatestPerCrop(crops, market, prices) ==>
      x in prices && x.market == market && x.crop in crops
      && forall p :: p in prices && p.crop == x.crop && p.market == market ==> p.date <= x.date
  {
    if crops != [] {
      var init := crops[..|crops| - 1];
      LatestPerCropAreLatest(init, market, prices);
      assert forall c :: c in init ==> c in crops;
    }
  }

  /** Distinct crops give at most one price per crop. */
  lemma {:induction false} LatestPerCropDistinct(crops: seq<string>, market: string, prices: seq<MarketPrice>)
    requires forall i, j :: 0 <= i < j < |crops| ==> crops[i] != crops[j]
    ensures forall i, j :: 0 <= i < j < |LatestPerCrop(crops, market, prices)| ==>
      LatestPerCrop(crops, market, prices)[i].crop != LatestPerCrop(crops, market, prices)[j].crop
  {
    if crops != [] {
      var init, c := crops[..|crops| - 1], crops[|crops| - 1];
      LatestPerCropDistinct(init, market, prices);
      LatestPerCropAreLatest(init, market, prices);
      var before := LatestPerCrop(init, market, prices);
      assert forall k :: 0 <= k < |init| ==> init[k] != c;
      assert forall x :: x in before ==> x.crop != c;
      var r := LatestPerCrop(crops, market, prices);
      forall i, j | 0 <= i < j < |r| ensures r[i].crop != r[j].crop {
        if j < |before| {
          assert r[i] == before[i] && r[j] == before[j];
        } else {
          assert r[i] == before[i] && r[i] in before;
        }
      }
    }
  }

  /** Every crop of the list with a price at the market gets a listed price. */
  lemma {:induction false} LatestPerCropComplete(crops: seq<string>, market: string, prices: seq<MarketPrice>)
    ensures forall c :: c in crops && (exists p :: p in prices && p.crop == c && p.market == market) ==>
      exists x :: x in LatestPerCrop(crops, market, prices) && x.crop == c
  {
    if crops != [] {
      var init, last := crops[..|crops| - 1], crops[|crops| - 1];
      LatestPerCropComplete(init, market, prices);
      assert crops == init + [last];
      var before := LatestPerCrop(init, market, prices);
      var r := LatestPerCrop(crops, market, prices);
      assert forall x :: x in before ==> x in r;
    }
  }

  lemma KeysOfRepricedCrop(early: MarketPrice, late: MarketPrice)
    requires early.crop == late.crop && early.date < late.date
    ensures Keys([early, late], CropDate) == [CropDate(early), CropDate(late)]
  {
    KeysSnoc([], early, CropDate);
    KeysSnoc([early], late, CropDate);
    assert [early, late] == [early] + [late] && [early] == [] + [early];
  }

  // ---------------------------------------------------------------- price trend

  datatype Trend = Rising | Falling | Stable

  /** The means of the first and second halves (the second half takes the odd element);
      both are the overall mean when there is a single point. */
  function HalfMeans(v: seq<real>): (means: (real, real))
    requires |v| > 0
    ensures |v| == 1 ==> means == (Mean(v), Mean(v))
  {
    var mid := |v| / 2;
    if mid > 0 then (Mean(v[..mid]), Mean(v[mid..])) else (Mean(v), Mean(v))
  }

  /** Rising when the second half's mean is more than 5% above the first's, falling when
      it is more than 5% below, stable otherwise. */
  function TrendOf(v: seq<real>): (t: Trend)
    requires |v| > 0
    ensures t == Rising <==> HalfMeans(v).1 > HalfMeans(v).0 * 1.05
    ensures t == Falling <==> HalfMeans(v).1 <= HalfMeans(v).0 * 1.05 && HalfMeans(v).1 < HalfMeans(v).0 * 0.95
  {
    var (first, second) := HalfMeans(v);
    if second > first * 1.05 then Rising
    else if second < first * 0.95 then Falling
    else Stable
  }

  /** A single non-negative price is a stable trend. */
  lemma SinglePointStable(v: seq<real>)
    requires |v| == 1 && v[0] >= 0.0
    ensures TrendOf(v) == Stable
  {
    MeanConstant(v, v[0]);
  }

  /** A series of one repeated non-negative price is stable. */
  lemma ConstantPricesStable(v: seq<real>, c: real)
    requires |v| > 0 && c >= 0.0 && forall i :: 0 <= i < |v| ==> v[i] == c
    ensures TrendOf(v) == Stable
  {
    var mid := |v| / 2;
    if mid > 0 {
      MeanConstant(v[..mid], c);
      MeanConstant(v[mid..], c);
    } else {
      MeanConstant(v, c);
    }
  }

  datatype TrendReport = TrendReport(
    dateFrom: Day, dateTo: Day, points: seq<MarketPrice>,
    average: real, minPrice: real, maxPrice: real, trend: Trend, dataPoints: nat)

  /** The prices of a crop at a market dated within [dateFrom, dateTo]. */
  function InPeriod(crop: string, market: string, prices: seq<MarketPrice>, dateFrom: Day, dateTo: Day): (r: seq<MarketPrice>)
    ensures forall p :: p in r <==> p in prices && p.crop == crop && p.market == market && dateFrom <= p.date <= dateTo
  {
    var keep := (p: MarketPrice) => p.crop == crop && p.market == market && dateFrom <= p.date <= dateTo;
    FilterMembers(prices, keep);
    Filter(prices, keep)
  }

  /** The trend request: the crop is required, the market defaults to national and the
      period to the last 30 days; a period without prices is 404. */
  function PriceTrend(crop: Option<string>, market: Option<string>, days: Option<int>, today: Day, prices: seq<MarketPrice>)
    : (r: Result<TrendReport, MarketError>)
    ensures !HasCrop(crop) ==> r == Failure(CropRequired)
    ensures HasCrop(crop) ==>
      var m := market.GetOr(DefaultMarket);
      var matching := InPeriod(crop.value, m, prices, today - days.GetOr(30), today);
      (matching == [] <==> r == Failure(NotFound("No price data found for " + crop.value + " in " + m)))
      && (r.Success? ==>
            r.value.points == Chronological(matching)
            && r.value.dataPoints == |matching|
            && r.value.dateFrom == today - days.GetOr(30) && r.value.dateTo == today
            && r.value.average == Mean(Prices(Chronological(matching)))
            && r.value.minPrice == MinOf(Prices(Chronological(matching)))
            && r.value.maxPrice == MaxOf(Prices(Chronological(matching)))
            && r.value.trend == TrendOf(Prices(Chronological(matching))))
  {
    if !HasCrop(crop) then Failure(CropRequired)
    else
      var m := market.GetOr(DefaultMarket);
      var dateFrom := today - days.GetOr(30);
      var series := Chronological(InPeriod(crop.value, m, prices, dateFrom, today));
      if series == [] then Failure(NotFound("No price data found for " + crop.value + " in " + m))
      else
        var v := Prices(series);
        Success(TrendReport(dateFrom, today, series, Mean(v), MinOf(v), MaxOf(v), TrendOf(v), |v|))
  }

  /** The report's statistics: min <= average <= max, the minimum and maximum are prices
      of the period and bound every one of them, and the points run in date order. */
  lemma TrendReportStatistics(crop: Option<string>, market: Option<string>, days: Option<int>, today: Day, prices: seq<MarketPrice>)
    requires PriceTrend(crop, market, days, today, prices).Success?
    ensures var t := PriceTrend(crop, market, days, today, prices).value;
      t.minPrice <= t.average <= t.maxPrice
      && t.dataPoints == |t.points|
      && (exists p :: p in t.points && p.pricePerKg == t.minPrice)
      && (exists p :: p in t.points && p.pricePerKg == t.maxPrice)
      && (forall p :: p in t.points ==> t.minPrice <= p.pricePerKg <= t.maxPrice)
      && (forall i, j :: 0 <= i < j < |t.points| ==> t.points[i].date <= t.points[j].date)
      && (forall p :: p in t.points ==> t.dateFrom <= p.date <= t.dateTo)
  {
    var t := PriceTrend(crop, market, days, today, prices).value;
    var m := market.GetOr(DefaultMarket);
    var matching := InPeriod(crop.value, m, prices, today - days.GetOr(30), today);
    MeanBetweenMinAndMax(Prices(t.points));
    ChronologicalOrdersDates(matching);
    forall p | p in t.points ensures t.dateFrom <= p.date <= t.dateTo {
      assert p in multiset(t.points);
    }
    PriceExtremes(t.points);
  }

  /** The least and greatest prices of a series are prices of the series, and bound all. */
  lemma PriceExtremes(ps: seq<MarketPrice>)
    requires |ps| > 0
    ensures exists p :: p in ps && p.pricePerKg == MinOf(Prices(ps))
    ensures exists p :: p in ps && p.pricePerKg == MaxOf(Prices(ps))
    ensures forall p :: p in ps ==> MinOf(Prices(ps)) <= p.pricePerKg <= MaxOf(Prices(ps))
  {
    var v := Prices(ps);
    var lo :| 0 <= lo < |v| && v[lo] == MinOf(v);
    var hi :| 0 <= hi < |v| && v[hi] == MaxOf(v);
    assert ps[lo] in ps && ps[hi] in ps;
    forall p | p in ps ensures MinOf(v) <= p.pricePerKg <= MaxOf(v) {
      var k :| 0 <= k < |ps| && ps[k] == p;
      assert v[k] == p.pricePerKg;
    }
  }

  // ---------------------------------------------------------------- forecast

  /** The number of forecast days: the requested number (7 by default), at most 30. */
  function Horizon(days: Option<int>): (h: int)
    ensures h <= 30
    ensures h == 30 || h == days.GetOr(7)
    ensures days.GetOr(7) <= 30 ==> h == days.GetOr(7)
  {
    MinInt(days.GetOr(7), 30)
  }

  /** The confidence of the forecast for day i: 3 points less per day, never below 50. */
  function ForecastConfidence(i: int): (c: int)
    ensures c >= 50
    ensures i >= 1 ==> c <= 97
    ensures i == 1 ==> c == 97
    ensures i >= 17 ==> c == 50
  {
    MaxInt(100 - i * 3, 50)
  }

  lemma ConfidenceNonIncreasing(i: int, j: int)
    requires i <= j
    ensures ForecastConfidence(j) <= ForecastConfidence(i)
  {
  }

  /** One forecast: its date and confidence (the predicted price is not modelled). */
  datatype Forecast = Forecast(date: Day, confidence: int)

  /** One forecast per day 1..horizon, dated that many days after today. */
  method ForecastDays(today: Day, horizon: int) returns (fs: seq<Forecast>)
    ensures |fs| == MaxInt(horizon, 0)
    ensures forall k :: 0 <= k < |fs| ==> fs[k].date == today + k + 1 && fs[k].confidence == ForecastConfidence(k + 1)
  {
    fs := [];
    var i := 1;
    while i <= horizon
      invariant 1 <= i <= MaxInt(horizon, 0) + 1
      invariant |fs| == i - 1
      invariant forall k :: 0 <= k < |fs| ==> fs[k].date == today + k + 1 && fs[k].confidence == ForecastConfidence(k + 1)
    {
      fs := fs + [Forecast(today + i, ForecastConfidence(i))];
      i := i + 1;
    }
  }

  /** The trend factor: the last seven prices' mean over the overall mean, 1.0 with fewer
      than seven prices or a non-positive overall mean. */
  function TrendFactor(v: seq<real>): (f: real)
    ensures |v| < 7 ==> f == 1.0
    ensures |v| >= 7 && Mean(v) <= 0.0 ==> f == 1.0
    ensures |v| >= 7 && Mean(v) > 0.0 ==> f * Mean(v) == Mean(v[|v| - 7..])
  {
    if |v| >= 7 then
      var overall := Mean(v);
      if overall > 0.0 then Mean(v[|v| - 7..]) / overall else 1.0
    else 1.0
  }

  /** Constant prices give a trend factor of exactly 1. */
  lemma TrendFactorOfConstant(v: seq<real>, c: real)
    requires |v| > 0 && forall i :: 0 <= i < |v| ==> v[i] == c
    ensures TrendFactor(v) == 1.0
  {
    MeanConstant(v, c);
    if |v| >= 7 {
      var last := v[|v| - 7..];
      assert forall i :: 0 <= i < |last| ==> last[i] == v[|v| - 7 + i];
      MeanConstant(last, c);
      assert Mean(last) == Mean(v);
      if c > 0.0 {
        assert TrendFactor(v) == c / c;
      } else {
        assert TrendFactor(v) == 1.0;
      }
    }
  }

  /** The prices of a crop at a market dated on or after dateFrom (with no upper bound). */
  function Since(crop: string, market: string, prices: seq<MarketPrice>, dateFrom: Day): (r: seq<MarketPrice>)
    ensures forall p :: p in r <==> p in prices && p.crop == crop && p.market == market && dateFrom <= p.date
  {
    var keep := (p: MarketPrice) => p.crop == crop && p.market == market && dateFrom <= p.date;
    FilterMembers(prices, keep);
    Filter(prices, keep)
  }

  datatype ForecastReport = ForecastReport(historicalAvg: real, trendFactor: real, forecasts: seq<Forecast>)

  /** The forecast request: the crop is required; fewer than three prices in the last 30
      days are refused; otherwise one forecast per day of the horizon. */
  method PriceForecast(crop: Option<string>, market: Option<string>, days: Option<int>, today: Day, prices: seq<MarketPrice>)
    returns (r: Result<ForecastReport, MarketError>)
    ensures !HasCrop(crop) ==> r == Failure(CropRequired)
    ensures HasCrop(crop) ==>
      var series := Since(crop.value, market.GetOr(DefaultMarket), prices, today - 30);
      (|series| < 3 <==> r == Failure(BadRequest("Insufficient data for " + crop.value + " forecast. Need at least 3 data points.")))
      && (r.Success? ==>
            var v := Prices(Chronological(series));
            r.value.historicalAvg == Mean(v) && r.value.trendFactor == TrendFactor(v)
            && |r.value.forecasts| == MaxInt(Horizon(days), 0)
            && forall k :: 0 <= k < |r.value.forecasts| ==>
                 r.value.forecasts[k].date == today + k + 1 && r.value.forecasts[k].confidence == ForecastConfidence(k + 1))
  {
    if !HasCrop(crop) {
      return Failure(CropRequired);
    }
    var series := Since(crop.value, market.GetOr(DefaultMarket), prices, today - 30);
    if |series| < 3 {
      return Failure(BadRequest("Insufficient data for " + crop.value + " forecast. Need at least 3 data points."));
    }
    var v := Prices(Chronological(series));
    var fs := ForecastDays(today, Horizon(days));
    r := Success(ForecastReport(Mean(v), TrendFactor(v), fs));
  }

  // ---------------------------------------------------------------- best time to sell

  datatype Decision = Wait | SellNow
  datatype Confidence = LowConfidence | MediumConfidence | HighConfidence

  datatype SellAdvice =
    | ShortHistory(currentPrice: real)
    | Advice(recommendation: Decision, reason: string, confidence: Confidence,
             currentPrice: real, averagePrice: real, recentTrend: Trend)

  /** The mean of the last seven prices, or of all of them when there are fewer. */
  function RecentAverage(v: seq<real>): (a: real)
    requires |v| > 0
    ensures |v| < 7 ==> a == Mean(v)
  {
    if |v| >= 7 then Mean(v[|v| - 7..]) else Mean(v)
  }

  /** Wait when the recent average is more than 10% above the overall one; every other
      branch sells now, with high confidence when the current price is more than 5% above
      average. */
  function Decide(recent: real, average: real, current: real): (d: (Decision, string, Confidence))
    ensures d.0 == Wait <==> recent > average * 1.1
    ensures d.0 == Wait ==> d.2 == MediumConfidence
    ensures d.2 == HighConfidence <==> recent <= average * 1.1 && current > average * 1.05
    ensures d.2 != LowConfidence
  {
    if recent > average * 1.1 then
      (Wait, "Prices are trending upward. Consider waiting a few days for better rates.", MediumConfidence)
    else if current > average * 1.05 then
      (SellNow, "Current price is above average. Good time to sell.", HighConfidence)
    else if recent < average * 0.9 then
      (SellNow, "Prices are declining. Sell now to avoid further losses.", MediumConfidence)
    else
      (SellNow, "Price is stable. Good time to sell.", MediumConfidence)
  }

  /** The sell-or-wait request: the crop is required; no price at all is 404; with fewer
      than three prices in the last 30 days the advice is to sell now at low confidence. */
  function BestTimeToSell(crop: Option<string>, market: Option<string>, today: Day, prices: seq<MarketPrice>)
    : (r: Result<SellAdvice, MarketError>)
    ensures !HasCrop(crop) ==> r == Failure(CropRequired)
    ensures HasCrop(crop) ==>
      var m := market.GetOr(DefaultMarket);
      var current := CurrentPrice(crop.value, m, prices);
      var series := Since(crop.value, m, prices, today - 30);
      (current.None? <==> r == Failure(NotFound("No current price data for " + crop.value)))
      && (current.Some? && |series| < 3 ==> r == Success(ShortHistory(current.value.pricePerKg)))
      && (current.Some? && |series| >= 3 ==>
            var v := Prices(Chronological(series));
            var d := Decide(RecentAverage(v), Mean(v), current.value.pricePerKg);
            r == Success(Advice(d.0, d.1, d.2, current.value.pricePerKg, Mean(v),
                                if RecentAverage(v) > Mean(v) then Rising else Falling)))
  {
    if !HasCrop(crop) then Failure(CropRequired)
    else
      var m := market.GetOr(DefaultMarket);
      var current := CurrentPrice(crop.value, m, prices);
      if current.None? then Failure(NotFound("No current price data for " + crop.value))
      else
        var series := Since(crop.value, m, prices, today - 30);
        if |series| < 3 then Success(ShortHistory(current.value.pricePerKg))
        else
          var v := Prices(Chronological(series));
          var recent, average := RecentAverage(v), Mean(v);
          var d := Decide(recent, average, current.value.pricePerKg);
          Success(Advice(d.0, d.1, d.2, current.value.pricePerKg, average, if recent > average then Rising else Falling))
  }

  /** Waiting needs at least seven prices in the window: with fewer, the recent average
      is the overall one, which cannot exceed itself by 10% for non-negative prices.
      Waiting also implies the recent trend reported beside it is rising. */
  lemma {:induction false} WaitNeedsRisingPrices(v: seq<real>, current: real)
    requires |v| > 0 && forall i :: 0 <= i < |v| ==> v[i] >= 0.0
    ensures Decide(RecentAverage(v), Mean(v), current).0 == Wait ==> |v| >= 7 && RecentAverage(v) > Mean(v)
  {
    SumNonNegative(v);
    assert Mean(v) >= 0.0;
  }

  /** Positive prices give a non-negative price column, in whatever order. */
  lemma ChronologicalPricesPositive(series: seq<MarketPrice>)
    requires forall p :: p in series ==> p.pricePerKg > 0.0
    ensures forall i :: 0 <= i < |series| ==> Prices(Chronological(series))[i] > 0.0
  {
    var c := Chronological(series);
    forall i | 0 <= i < |series| ensures Prices(c)[i] > 0.0 {
      assert c[i] in multiset(c);
    }
  }
}
