/** The payout simulator of the insurance screen: a what-if payout for slider values of
    30-day rainfall (0..100 mm) and NDVI drop (-50..0 %). */
module InsurancePortal {
  import opened Wrappers
  import opened Numbers

  /** The part of the client's policy record the simulator reads. */
  datatype PolicySummary = PolicySummary(coverageAmount: real)

  /** The rainfall severity: (50 - rain) / 50 below 50 mm, so one at no rain; no
      severity from 50 mm on. */
  function RainSeverity(rain: int): (f: real)
    ensures rain >= 50 ==> f == 0.0
    ensures rain == 0 ==> f == 1.0
    ensures 0 <= rain ==> f <= 1.0
    ensures 0.0 <= f
  {
    if rain < 50 then (50 - rain) as real / 50.0 else 0.0
  }

  /** The NDVI severity beyond a 20 % drop: the size of the drop over 40 %, capped at one
      (the absolute value of such a drop is its negation); no severity up to 20 %. */
  function NdviSeverity(ndvi: int): (f: real)
    ensures ndvi >= -20 ==> f == 0.0
    ensures ndvi <= -40 ==> f == 1.0
    ensures 0.0 <= f <= 1.0
  {
    if ndvi < -20 then Min(1.0, (-ndvi) as real / 40.0) else 0.0
  }

  /** The rainfall component: linear from nothing at 50 mm to the full coverage at 0 mm
      (the source adds nothing from 50 mm on, which is the coverage times a zero
      severity). */
  function RainfallComponent(coverage: real, rain: int): (c: real)
    ensures rain >= 50 ==> c == 0.0
  {
    Scale(coverage, RainSeverity(rain))
  }

  /** The NDVI component: nothing up to a 20 % drop, then the severity's share of the
      coverage. */
  function NdviComponent(coverage: real, ndvi: int): (c: real)
    ensures ndvi >= -20 ==> c == 0.0
  {
    Scale(coverage, NdviSeverity(ndvi))
  }

  /** The simulated payout: the rounded larger component, never above the coverage; no
      policy pays nothing. */
  function SimulatedPayout(policy: Option<PolicySummary>, rain: int, ndvi: int): (payout: real)
    ensures policy.None? ==> payout == 0.0
  {
    if policy.None? then 0.0
    else
      var cov := policy.value.coverageAmount;
      var p := Max(Max(0.0, RainfallComponent(cov, rain)), NdviComponent(cov, ndvi));
      Min(Round(p) as real, cov)
  }

  predicate OnSliders(rain: int, ndvi: int)
  {
    0 <= rain <= 100 && -50 <= ndvi <= 0
  }

  /** On the sliders each component lies between nothing and the coverage. */
  lemma ComponentsBounded(cov: real, rain: int, ndvi: int)
    requires cov >= 0.0 && OnSliders(rain, ndvi)
    ensures 0.0 <= RainfallComponent(cov, rain) <= cov
    ensures 0.0 <= NdviComponent(cov, ndvi) <= cov
  {
    ScaleWithin(cov, RainSeverity(rain));
    ScaleWithin(cov, NdviSeverity(ndvi));
  }

  /** For slider values the payout lies between nothing and the coverage. */
  lemma PayoutWithinCoverage(policy: PolicySummary, rain: int, ndvi: int)
    requires policy.coverageAmount >= 0.0 && OnSliders(rain, ndvi)
    ensures 0.0 <= SimulatedPayout(Some(policy), rain, ndvi) <= policy.coverageAmount
  {
    var cov := policy.coverageAmount;
    ComponentsBounded(cov, rain, ndvi);
    var p := Max(Max(0.0, RainfallComponent(cov, rain)), NdviComponent(cov, ndvi));
    RoundMonotone(0.0, p);
    RoundInteger(0);
  }

  /** Enough rain and a small NDVI drop pay nothing. */
  lemma NoTriggerNoPayout(policy: PolicySummary, rain: int, ndvi: int)
    requires policy.coverageAmount >= 0.0 && rain >= 50 && ndvi >= -20
    ensures SimulatedPayout(Some(policy), rain, ndvi) == 0.0
  {
    RoundInteger(0);
  }

  /** No rain at all, or an NDVI drop of 40 % or more, pays the whole (whole-shilling)
      coverage. */
  lemma SevereConditionsPayInFull(policy: PolicySummary, rain: int, ndvi: int)
    requires policy.coverageAmount >= 0.0 && policy.coverageAmount == policy.coverageAmount.Floor as real
    requires OnSliders(rain, ndvi) && (rain == 0 || ndvi <= -40)
    ensures SimulatedPayout(Some(policy), rain, ndvi) == policy.coverageAmount
  {
    var cov := policy.coverageAmount;
    ComponentsBounded(cov, rain, ndvi);
    if rain == 0 {
      ScaleByOne(cov, RainSeverity(rain));
    } else {
      ScaleByOne(cov, NdviSeverity(ndvi));
    }
    RoundInteger(cov.Floor);
  }

  /** Less rain never pays less. */
  lemma {:induction false} PayoutNonIncreasingInRain(policy: PolicySummary, rain1: int, rain2: int, ndvi: int)
    requires policy.coverageAmount >= 0.0 && rain1 <= rain2
    ensures SimulatedPayout(Some(policy), rain1, ndvi) >= SimulatedPayout(Some(policy), rain2, ndvi)
  {
    var cov := policy.coverageAmount;
    RainfallComponentMonotone(cov, rain1, rain2);
    var b := NdviComponent(cov, ndvi);
    var p1, p2 := Max(Max(0.0, RainfallComponent(cov, rain1)), b), Max(Max(0.0, RainfallComponent(cov, rain2)), b);
    assert p2 <= p1;
    RoundMonotone(p2, p1);
  }

  /** The rainfall component never grows with the rain. */
  lemma RainfallComponentMonotone(cov: real, rain1: int, rain2: int)
    requires cov >= 0.0 && rain1 <= rain2
    ensures RainfallComponent(cov, rain2) <= RainfallComponent(cov, rain1)
  {
    ScaleMonotone(cov, RainSeverity(rain2), RainSeverity(rain1));
  }

  /** A larger NDVI drop never pays less. */
  lemma {:induction false} PayoutNonIncreasingInNdvi(policy: PolicySummary, rain: int, ndvi1: int, ndvi2: int)
    requires policy.coverageAmount >= 0.0 && ndvi1 <= ndvi2
    ensures SimulatedPayout(Some(policy), rain, ndvi1) >= SimulatedPayout(Some(policy), rain, ndvi2)
  {
    var cov := policy.coverageAmount;
    var b1, b2 := NdviComponent(cov, ndvi1), NdviComponent(cov, ndvi2);
    NdviComponentMonotone(cov, ndvi1, ndvi2);
    var a := Max(0.0, RainfallComponent(cov, rain));
    var p1, p2 := Max(a, b1), Max(a, b2);
    assert p2 <= p1;
    RoundMonotone(p2, p1);
  }

  /** The NDVI component never shrinks as the drop grows. */
  lemma NdviComponentMonotone(cov: real, ndvi1: int, ndvi2: int)
    requires cov >= 0.0 && ndvi1 <= ndvi2
    ensures NdviComponent(cov, ndvi2) <= NdviComponent(cov, ndvi1)
  {
    ScaleMonotone(cov, NdviSeverity(ndvi2), NdviSeverity(ndvi1));
  }
}
