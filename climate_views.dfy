/** The climate risk assessment of a farm: piecewise drought, flood and temperature
    scores from the last 30 days of weather at the farm, the advice lines they trigger,
    and the upsert of one assessment per farm and date. */
module ClimateViews {
  import opened Wrappers
  import opened Numbers
  import opened Lists
  import opened Text
  import opened ClimateModels
  import opened FarmModels
  import opened Domain
  import opened ClimateSerializers

  /** Drought score from the average rainfall (Python's `int()` truncates). */
  function DroughtRisk(avgRainfall: real): (r: int)
    ensures 0 <= r <= 100
    ensures avgRainfall < 20.0 ==> r >= 83
    ensures 20.0 <= avgRainfall < 50.0 ==> 40 <= r <= 80
    ensures avgRainfall >= 50.0 ==> r <= 40
    ensures avgRainfall >= 100.0 ==> r == 0
  {
    if avgRainfall < 20.0 then MinInt(100, Trunc(80.0 + 10.0 * (30.0 - avgRainfall) / 30.0))
    else if avgRainfall < 50.0 then Trunc(40.0 + 40.0 * (50.0 - avgRainfall) / 30.0)
    else MaxInt(0, Trunc(40.0 - 40.0 * (avgRainfall - 50.0) / 50.0))
  }

  /** Flood score from the average rainfall. */
  function FloodRisk(avgRainfall: real): (r: int)
    ensures 0 <= r <= 100
    ensures avgRainfall > 200.0 ==> r >= 70
    ensures 150.0 < avgRainfall <= 200.0 ==> 40 <= r <= 70
    ensures avgRainfall <= 150.0 ==> r <= 40
    ensures avgRainfall <= 0.0 ==> r == 0
  {
    if avgRainfall > 200.0 then MinInt(100, Trunc(70.0 + (avgRainfall - 200.0) / 10.0))
    else if avgRainfall > 150.0 then Trunc(40.0 + 30.0 * (avgRainfall - 150.0) / 50.0)
    else MaxInt(0, Trunc(40.0 - 40.0 * (150.0 - avgRainfall) / 150.0))
  }

  /** Extreme-temperature score from the average temperature: 20 in the normal range. */
  function TemperatureRisk(avgTemp: real): (r: int)
    ensures 10.0 <= avgTemp <= 35.0 <==> r == 20
    ensures avgTemp < 10.0 || avgTemp > 35.0 ==> 60 <= r <= 100
  {
    if avgTemp > 35.0 then MinInt(100, Trunc(60.0 + (avgTemp - 35.0) * 5.0))
    else if avgTemp < 10.0 then MinInt(100, Trunc(60.0 + (10.0 - avgTemp) * 5.0))
    else 20
  }

  /** More rain never raises the drought score. */
  lemma {:induction false} DroughtNonIncreasing(a: real, b: real)
    requires a <= b
    ensures DroughtRisk(b) <= DroughtRisk(a)
  {
    if a < 20.0 && b < 20.0 {
      TruncMonotone(80.0 + 10.0 * (30.0 - b) / 30.0, 80.0 + 10.0 * (30.0 - a) / 30.0);
    } else if 20.0 <= a && b < 50.0 {
      TruncMonotone(40.0 + 40.0 * (50.0 - b) / 30.0, 40.0 + 40.0 * (50.0 - a) / 30.0);
    } else if 50.0 <= a {
      TruncMonotone(40.0 - 40.0 * (b - 50.0) / 50.0, 40.0 - 40.0 * (a - 50.0) / 50.0);
    }
  }

  /** More rain never lowers the flood score. */
  lemma {:induction false} FloodNonDecreasing(a: real, b: real)
    requires a <= b
    ensures FloodRisk(a) <= FloodRisk(b)
  {
    if a > 200.0 {
      TruncMonotone(70.0 + (a - 200.0) / 10.0, 70.0 + (b - 200.0) / 10.0);
    } else if a > 150.0 && b <= 200.0 {
      TruncMonotone(40.0 + 30.0 * (a - 150.0) / 50.0, 40.0 + 30.0 * (b - 150.0) / 50.0);
    } else if b <= 150.0 {
      TruncMonotone(40.0 - 40.0 * (150.0 - a) / 150.0, 40.0 - 40.0 * (150.0 - b) / 150.0);
    }
  }

  /** The temperature score only grows as the average moves away from the normal range. */
  lemma {:induction false} TemperatureRiskGrowsOutward(a: real, b: real)
    requires 35.0 < a <= b || b <= a < 10.0
    ensures TemperatureRisk(a) <= TemperatureRisk(b)
  {
    if 35.0 < a {
      TruncMonotone(60.0 + (a - 35.0) * 5.0, 60.0 + (b - 35.0) * 5.0);
    } else {
      TruncMonotone(60.0 + (10.0 - a) * 5.0, 60.0 + (10.0 - b) * 5.0);
    }
  }

  /** The three scores and the assessment's confidence. */
  datatype Scores = Scores(drought: int, flood: int, extremeTemp: int, confidence: int)

  /** The farm's historical observations of the last 30 days: at the farm's coordinates,
      not a forecast, dated no earlier than 30 days ago (there is no upper date bound). */
  function History(weather: seq<WeatherData>, farm: Farm, today: Day): (h: seq<WeatherData>)
    ensures forall x :: x in h <==>
      x in weather && LocatedAt(farm, x.latitude, x.longitude)
      && x.date >= today - 30 && x.forecastDate.None?
  {
    var keep := (x: WeatherData) =>
      LocatedAt(farm, x.latitude, x.longitude) && x.date >= today - 30 && x.forecastDate.None?;
    FilterMembers(weather, keep);
    Filter(weather, keep)
  }

  /** The assessment reads only rows the weather serializer reports as observations:
      every row of the history has is_forecast false, and a forecast row of the farm
      inside the window is never read. */
  lemma HistoryHasNoForecast(weather: seq<WeatherData>, farm: Farm, today: Day)
    ensures forall x :: x in History(weather, farm, today) ==> !IsForecast(x)
    ensures forall x :: x in weather && IsForecast(x) ==> x !in History(weather, farm, today)
  {
  }

  /** A farm with a missing coordinate has no history, so its assessment falls back to
      the default scores. */
  lemma NoCoordinatesNoHistory(weather: seq<WeatherData>, farm: Farm, today: Day)
    requires farm.latitude.None? || farm.longitude.None?
    ensures History(weather, farm, today) == []
    ensures ScoresFor(History(weather, farm, today)) == Scores(30, 20, 25, 30)
  {
    FilterEmpty(weather, (x: WeatherData) =>
      LocatedAt(farm, x.latitude, x.longitude) && x.date >= today - 30 && x.forecastDate.None?);
  }

  /** The scores from the observations: from the average rainfall and temperature when
      there are any, fixed defaults with a low confidence when there are none. */
  function ScoresFor(history: seq<WeatherData>): (s: Scores)
    ensures history == [] ==> s == Scores(30, 20, 25, 30)
    ensures history != [] ==>
      s.confidence == 75
      && s.drought == DroughtRisk(Mean(Rainfalls(history)))
      && s.flood == FloodRisk(Mean(Rainfalls(history)))
      && s.extremeTemp == TemperatureRisk(Mean(Temperatures(history)))
  {
    if history == [] then Scores(30, 20, 25, 30)
    else
      var rain, temp := Mean(Rainfalls(history)), Mean(Temperatures(history));
      Scores(DroughtRisk(rain), FloodRisk(rain), TemperatureRisk(temp), 75)
  }

  /** Every score lies in 0..100 whatever the weather. */
  lemma ScoresInRange(history: seq<WeatherData>)
    ensures var s := ScoresFor(history);
      0 <= s.drought <= 100 && 0 <= s.flood <= 100 && 0 <= s.extremeTemp <= 100
      && (s.confidence == 30 || s.confidence == 75)
  {
  }

  const DroughtAdvice: seq<string> := ["Implement water conservation measures", "Consider drought-resistant crop varieties"]
  const FloodAdvice: seq<string> := ["Ensure proper drainage systems", "Prepare flood mitigation strategies"]
  const HeatAdvice: seq<string> := ["Provide crop shade/protection", "Monitor crops frequently"]
  const DefaultAdvice: seq<string> := ["Continue normal farming practices", "Monitor weather conditions regularly"]

  /** How many of the three scores exceed 50. */
  function Alarms(s: Scores): (n: nat)
    ensures n <= 3
    ensures n == 0 <==> s.drought <= 50 && s.flood <= 50 && s.extremeTemp <= 50
  {
    (if s.drought > 50 then 1 else 0) + (if s.flood > 50 then 1 else 0) + (if s.extremeTemp > 50 then 1 else 0)
  }

  /** The advice lines: two per score above 50, in the order drought, flood, temperature;
      the two default lines when no score is above 50. */
  function Advice(s: Scores): (r: seq<string>)
    ensures Alarms(s) == 0 ==> r == DefaultAdvice
    ensures Alarms(s) > 0 ==> |r| == 2 * Alarms(s)
    ensures |r| == 2 || |r| == 4 || |r| == 6
    ensures s.drought > 50 <==> DroughtAdvice[0] in r && DroughtAdvice[1] in r
    ensures s.flood > 50 <==> FloodAdvice[0] in r && FloodAdvice[1] in r
    ensures s.extremeTemp > 50 <==> HeatAdvice[0] in r && HeatAdvice[1] in r
  {
    var r := (if s.drought > 50 then DroughtAdvice else [])
      + (if s.flood > 50 then FloodAdvice else [])
      + (if s.extremeTemp > 50 then HeatAdvice else []);
    if r == [] then DefaultAdvice else r
  }

  /** None of the advice lines contains a line break. */
  lemma AdviceLinesUnbroken()
    ensures forall l :: l in DroughtAdvice ==> '\n' !in l
    ensures forall l :: l in FloodAdvice ==> '\n' !in l
    ensures forall l :: l in HeatAdvice ==> '\n' !in l
    ensures forall l :: l in DefaultAdvice ==> '\n' !in l
  {
    DroughtAdviceUnbroken();
    FloodAdviceUnbroken();
    HeatAdviceUnbroken();
    DefaultAdviceUnbroken();
  }

  // One advice pair at a time: checking a literal for a character is costly.

  lemma DroughtAdviceUnbroken()
    ensures '\n' !in DroughtAdvice[0] && '\n' !in DroughtAdvice[1]
  {
  }

  lemma FloodAdviceUnbroken()
    ensures '\n' !in FloodAdvice[0] && '\n' !in FloodAdvice[1]
  {
  }

  lemma HeatAdviceUnbroken()
    ensures '\n' !in HeatAdvice[0] && '\n' !in HeatAdvice[1]
  {
  }

  lemma DefaultAdviceUnbroken()
    ensures '\n' !in DefaultAdvice[0] && '\n' !in DefaultAdvice[1]
  {
  }

  /** The stored text splits back into the advice lines. */
  lemma AdviceRoundTrip(s: Scores)
    ensures Split(Join(Advice(s), '\n'), '\n') == Advice(s)
  {
    var r := Advice(s);
    AdviceLinesUnbroken();
    forall i | 0 <= i < |r| ensures '\n' !in r[i] {
      assert r[i] in r;
      assert r[i] in DroughtAdvice || r[i] in FloodAdvice || r[i] in HeatAdvice || r[i] in DefaultAdvice;
    }
    SplitJoin(r, '\n');
  }

  /** The stored assessments, one per (farm, assessment date). */
  type RiskStore = map<(nat, Day), ClimateRisk>

  /** Every stored row sits under its own farm and date. */
  ghost predicate Keyed(store: RiskStore)
  {
    forall k :: k in store ==> store[k].farmId == k.0 && store[k].assessmentDate == k.1
  }

  /** The assessment saved for the farm today, covering today to today + daysAhead. */
  function AssessmentFor(farm: Farm, weather: seq<WeatherData>, today: Day, daysAhead: int): (risk: ClimateRisk)
    ensures var s := ScoresFor(History(weather, farm, today));
      && risk.farmId == farm.id && risk.assessmentDate == today
      && risk.periodStart == today && risk.periodEnd == today + daysAhead
      && risk.droughtRisk == s.drought && risk.floodRisk == s.flood && risk.extremeTempRisk == s.extremeTemp
      && risk.confidence == s.confidence
      && risk.overallRiskLevel == OverallLevel(s.drought, s.flood, s.extremeTemp)
      && Split(risk.recommendations, '\n') == Advice(s)
  {
    var s := ScoresFor(History(weather, farm, today));
    AdviceRoundTrip(s);
    SaveRisk(ClimateRisk(farm.id, today, today, today + daysAhead, s.drought, s.flood, s.extremeTemp,
                         Low, Join(Advice(s), '\n'), s.confidence))
  }

  /** The risk-assessment request: 404 without a farm profile; otherwise the assessment is
      created or replaces the farm's row for today, and no other row changes. The period
      length defaults to 30 days. */
  function AssessRisk(farm: Option<Farm>, weather: seq<WeatherData>, store: RiskStore, today: Day, daysAhead: Option<int>)
    : (r: Result<(ClimateRisk, RiskStore), string>)
    ensures farm.None? <==> r == Failure("Farm profile not found")
    ensures r.Success? ==>
      var (risk, after) := r.value;
      && risk == AssessmentFor(farm.value, weather, today, daysAhead.GetOr(30))
      && after.Keys == store.Keys + {(farm.value.id, today)}
      && after[(farm.value.id, today)] == risk
      && (forall k :: k in store && k != (farm.value.id, today) ==> after[k] == store[k])
      && (Keyed(store) ==> Keyed(after))
  {
    if farm.None? then Failure("Farm profile not found")
    else
      var risk := AssessmentFor(farm.value, weather, today, daysAhead.GetOr(30));
      Success((risk, store[(farm.value.id, today) := risk]))
  }

  /** Assessing the same farm twice on one day leaves one row, the second assessment. */
  lemma ReassessSameDay(farm: Farm, w1: seq<WeatherData>, w2: seq<WeatherData>, store: RiskStore, today: Day)
    ensures var first := AssessRisk(Some(farm), w1, store, today, None).value.1;
      var second := AssessRisk(Some(farm), w2, first, today, None).value.1;
      second.Keys == store.Keys + {(farm.id, today)}
      && second[(farm.id, today)] == AssessmentFor(farm, w2, today, 30)
  {
  }
}
