/** The climate records: weather observations, satellite vegetation readings with their
    derived health status, and risk assessments with their derived overall level. */
module ClimateModels {
  import opened Wrappers
  import opened Domain

  /** One weather observation; forecastDate is None for historical data. */
  datatype WeatherData = WeatherData(
    latitude: real, longitude: real, date: Day, forecastDate: Option<Day>,
    tempAvg: real, rainfall: real)

  /** The rainfall and average-temperature columns of a set of observations. */
  function Rainfalls(w: seq<WeatherData>): (r: seq<real>)
    ensures |r| == |w| && forall i :: 0 <= i < |w| ==> r[i] == w[i].rainfall
  {
    if w == [] then [] else [w[0].rainfall] + Rainfalls(w[1..])
  }

  function Temperatures(w: seq<WeatherData>): (r: seq<real>)
    ensures |r| == |w| && forall i :: 0 <= i < |w| ==> r[i] == w[i].tempAvg
  {
    if w == [] then [] else [w[0].tempAvg] + Temperatures(w[1..])
  }

  datatype Health = Poor | Fair | Good | Excellent

  /** Position of a health status from worst to best. */
  function HealthRank(h: Health): nat
  {
    match h
    case Poor => 0
    case Fair => 1
    case Good => 2
    case Excellent => 3
  }

  /** The health band of an NDVI value; every value falls in exactly one band. */
  function ClassifyHealth(ndvi: real): (h: Health)
    ensures h == Poor <==> ndvi < 0.2
    ensures h == Fair <==> 0.2 <= ndvi < 0.4
    ensures h == Good <==> 0.4 <= ndvi < 0.6
    ensures h == Excellent <==> 0.6 <= ndvi
  {
    if ndvi < 0.2 then Poor
    else if ndvi < 0.4 then Fair
    else if ndvi < 0.6 then Good
    else Excellent
  }

  /** A greener reading never gets a worse status. */
  lemma HealthMonotone(a: real, b: real)
    requires a <= b
    ensures HealthRank(ClassifyHealth(a)) <= HealthRank(ClassifyHealth(b))
  {
  }

  datatype NdviData = NdviData(farmId: nat, ndviValue: real, imageDate: Day, health: Health)

  /** Saving a reading recomputes its health status from the NDVI value. */
  function SaveNdvi(rec: NdviData): (saved: NdviData)
    ensures saved.health == ClassifyHealth(rec.ndviValue)
    ensures saved == rec.(health := saved.health)
  {
    rec.(health := ClassifyHealth(rec.ndviValue))
  }

  /** Whatever status a client supplied, the saved record is the same. */
  lemma SaveNdviOverwritesStatus(rec: NdviData, h: Health)
    ensures SaveNdvi(rec.(health := h)) == SaveNdvi(rec)
  {
  }

  datatype RiskLevel = Low | Medium | High | Critical

  function LevelRank(l: RiskLevel): nat
  {
    match l
    case Low => 0
    case Medium => 1
    case High => 2
    case Critical => 3
  }

  function Max3(a: int, b: int, c: int): (m: int)
    ensures m >= a && m >= b && m >= c
    ensures m == a || m == b || m == c
  {
    if a >= b && a >= c then a else if b >= c then b else c
  }

  /** The level band of a score, lower bounds inclusive. */
  function LevelOf(score: int): (l: RiskLevel)
    ensures l == Critical <==> score >= 75
    ensures l == High <==> 50 <= score < 75
    ensures l == Medium <==> 25 <= score < 50
    ensures l == Low <==> score < 25
  {
    if score >= 75 then Critical
    else if score >= 50 then High
    else if score >= 25 then Medium
    else Low
  }

  /** The overall level of an assessment: the band of its largest score. */
  function OverallLevel(drought: int, flood: int, extremeTemp: int): (l: RiskLevel)
    ensures l == Critical <==> drought >= 75 || flood >= 75 || extremeTemp >= 75
    ensures l == Low <==> drought < 25 && flood < 25 && extremeTemp < 25
  {
    LevelOf(Max3(drought, flood, extremeTemp))
  }

  /** Assessments with the same largest score get the same level. */
  lemma OverallLevelDependsOnlyOnMax(d1: int, f1: int, t1: int, d2: int, f2: int, t2: int)
    requires Max3(d1, f1, t1) == Max3(d2, f2, t2)
    ensures OverallLevel(d1, f1, t1) == OverallLevel(d2, f2, t2)
  {
  }

  /** Raising any single score never lowers the overall level. */
  lemma OverallLevelMonotone(d1: int, f1: int, t1: int, d2: int, f2: int, t2: int)
    requires d1 <= d2 && f1 <= f2 && t1 <= t2
    ensures LevelRank(OverallLevel(d1, f1, t1)) <= LevelRank(OverallLevel(d2, f2, t2))
  {
  }

  datatype ClimateRisk = ClimateRisk(
    farmId: nat, assessmentDate: Day, periodStart: Day, periodEnd: Day,
    droughtRisk: int, floodRisk: int, extremeTempRisk: int,
    overallRiskLevel: RiskLevel, recommendations: string, confidence: int)

  /** Saving an assessment recomputes its overall level from its scores. */
  function SaveRisk(rec: ClimateRisk): (saved: ClimateRisk)
    ensures saved.overallRiskLevel == OverallLevel(rec.droughtRisk, rec.floodRisk, rec.extremeTempRisk)
    ensures saved == rec.(overallRiskLevel := saved.overallRiskLevel)
  {
    rec.(overallRiskLevel := OverallLevel(rec.droughtRisk, rec.floodRisk, rec.extremeTempRisk))
  }
}
