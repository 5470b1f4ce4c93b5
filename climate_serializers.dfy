/** The climate serializers: the forecast flag of a weather row, the two NDVI write paths
    and the range checks on NDVI values and risk scores.  The derived fields (health status, overall level) are
    not among the fields a client writes. */
module ClimateSerializers {
  import opened Wrappers
  import opened Domain
  import opened ClimateModels

  /** A row is a forecast exactly when it has a forecast date. */
  function IsForecast(w: WeatherData): (b: bool)
    ensures b <==> w.forecastDate != None
  {
    w.forecastDate.Some?
  }

  const NdviOutOfRange := "NDVI value must be between -1 and 1"
  const ScoreOutOfRange := "Risk score must be between 0 and 100"

  function ValidateNdviValue(value: real): (r: Result<real, string>)
    ensures r.Success? <==> -1.0 <= value <= 1.0
    ensures r.Success? ==> r.value == value
    ensures r.Failure? ==> r.error == NdviOutOfRange
  {
    if value < -1.0 || value > 1.0 then Failure(NdviOutOfRange) else Success(value)
  }

  /** The check shared by the drought, flood and extreme-temperature scores. */
  function ValidateRiskScore(value: int): (r: Result<int, string>)
    ensures r.Success? <==> 0 <= value <= 100
    ensures r.Success? ==> r.value == value
    ensures r.Failure? ==> r.error == ScoreOutOfRange
  {
    if value < 0 || value > 100 then Failure(ScoreOutOfRange) else Success(value)
  }

  /** The fields a client writes on a reading. */
  datatype NdviInput = NdviInput(ndviValue: real, imageDate: Day)

  /** The precision check of the ndvi_value column (4 digits, 3 of them decimals): at
      most one digit before the point and at most three after it. */
  predicate FitsNdviColumn(v: real)
  {
    -10.0 < v < 10.0 && (v * 1000.0).Floor as real == v * 1000.0
  }

  /** Why a reading is refused: the column's precision, the range check, or no farm. */
  datatype NdviRefusal = PrecisionRefused | RangeRefused(message: string) | FarmRefused(message: string)

  const FarmNotFound := "Farm profile not found. Please create a farm profile first."

  /** A new reading posted to the list route, as the create serializer handles it: only the
      column's precision is checked, then the reading is stored under the user's farm with
      the derived status; a user without a farm is refused after the field checks. */
  function CreateNdvi(farm: Option<nat>, u: NdviInput): (r: Result<NdviData, NdviRefusal>)
    ensures r.Success? <==> FitsNdviColumn(u.ndviValue) && farm.Some?
    ensures !FitsNdviColumn(u.ndviValue) ==> r == Failure(PrecisionRefused)
    ensures FitsNdviColumn(u.ndviValue) && farm.None? ==> r == Failure(FarmRefused(FarmNotFound))
    ensures r.Success? ==> r.value == NdviData(farm.value, u.ndviValue, u.imageDate, ClassifyHealth(u.ndviValue))
  {
    if !FitsNdviColumn(u.ndviValue) then Failure(PrecisionRefused)
    else if farm.None? then Failure(FarmRefused(FarmNotFound))
    else Success(SaveNdvi(NdviData(farm.value, u.ndviValue, u.imageDate, Poor)))
  }

  /** The create route stores a reading outside -1..1: 1.5 is saved, with an excellent
      status, while the detail route refuses the same value. */
  lemma CreateAcceptsOutOfRange(farm: nat, day: Day)
    ensures CreateNdvi(Some(farm), NdviInput(1.5, day)) == Success(NdviData(farm, 1.5, day, Excellent))
    ensures UpdateNdvi(NdviData(farm, 0.5, day, Good), NdviInput(1.5, day)) == Failure(RangeRefused(NdviOutOfRange))
  {
    assert (1.5 * 1000.0).Floor == 1500;
  }

  /** The create route with the range check the detail serializer has: every reading it
      stores lies in -1..1, and on such values it agrees with the create route. */
  function CreateNdviChecked(farm: Option<nat>, u: NdviInput): (r: Result<NdviData, NdviRefusal>)
    ensures r.Success? <==> FitsNdviColumn(u.ndviValue) && -1.0 <= u.ndviValue <= 1.0 && farm.Some?
    ensures r.Success? ==> -1.0 <= r.value.ndviValue <= 1.0
    ensures FitsNdviColumn(u.ndviValue) && !(-1.0 <= u.ndviValue <= 1.0) ==> r == Failure(RangeRefused(NdviOutOfRange))
    ensures -1.0 <= u.ndviValue <= 1.0 ==> r == CreateNdvi(farm, u)
  {
    if !FitsNdviColumn(u.ndviValue) then Failure(PrecisionRefused)
    else match ValidateNdviValue(u.ndviValue)
      case Failure(e) => Failure(RangeRefused(e))
      case Success(_) => CreateNdvi(farm, u)
  }

  /** An edit through the detail route (the full serializer): the precision check, then the
      -1..1 range check, then the save with the derived status; the farm is kept. */
  function UpdateNdvi(rec: NdviData, u: NdviInput): (r: Result<NdviData, NdviRefusal>)
    ensures r.Success? <==> FitsNdviColumn(u.ndviValue) && -1.0 <= u.ndviValue <= 1.0
    ensures !FitsNdviColumn(u.ndviValue) ==> r == Failure(PrecisionRefused)
    ensures FitsNdviColumn(u.ndviValue) && !(-1.0 <= u.ndviValue <= 1.0) ==> r == Failure(RangeRefused(NdviOutOfRange))
    ensures r.Success? ==>
      r.value.health == ClassifyHealth(u.ndviValue)
      && r.value.ndviValue == u.ndviValue && r.value.imageDate == u.imageDate && r.value.farmId == rec.farmId
  {
    if !FitsNdviColumn(u.ndviValue) then Failure(PrecisionRefused)
    else match ValidateNdviValue(u.ndviValue)
      case Failure(e) => Failure(RangeRefused(e))
      case Success(v) => Success(SaveNdvi(rec.(ndviValue := v, imageDate := u.imageDate)))
  }

  /** The scores a client writes on an assessment. */
  datatype RiskInput = RiskInput(droughtRisk: int, floodRisk: int, extremeTempRisk: int)

  /** What the risk serializer would do with a client's scores: each validated, then saved,
      with the level always the derived one.  No route offers this write: the assessment
      view uses the serializer only for output and the risk list is read-only, so these
      validators guard a write the application never performs. */
  function WriteRisk(rec: ClimateRisk, u: RiskInput): (r: Result<ClimateRisk, string>)
    ensures r.Success? <==> 0 <= u.droughtRisk <= 100 && 0 <= u.floodRisk <= 100 && 0 <= u.extremeTempRisk <= 100
    ensures r.Failure? ==> r.error == ScoreOutOfRange
    ensures r.Success? ==>
      r.value.overallRiskLevel == OverallLevel(u.droughtRisk, u.floodRisk, u.extremeTempRisk)
      && r.value == rec.(droughtRisk := u.droughtRisk, floodRisk := u.floodRisk,
                         extremeTempRisk := u.extremeTempRisk, overallRiskLevel := r.value.overallRiskLevel)
  {
    if ValidateRiskScore(u.droughtRisk).Failure? || ValidateRiskScore(u.floodRisk).Failure?
       || ValidateRiskScore(u.extremeTempRisk).Failure?
    then Failure(ScoreOutOfRange)
    else Success(SaveRisk(rec.(droughtRisk := u.droughtRisk, floodRisk := u.floodRisk, extremeTempRisk := u.extremeTempRisk)))
  }
}
