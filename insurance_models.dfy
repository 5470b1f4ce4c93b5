/** Insurance policies, their parametric triggers, claims and recommendations, with the
    field constraints the schema declares and the validity predicate of a policy. */
module InsuranceModels {
  import opened Wrappers
  import opened Domain

  datatype PolicyStatus = Draft | Active | Expired | Cancelled | Claimed

  const DefaultPolicyStatus: PolicyStatus := Draft

  datatype Policy = Policy(
    id: nat, status: PolicyStatus, isPaid: bool, startDate: Day, endDate: Day,
    coverageAmount: real, premiumAmount: real)

  /** A policy is valid when it is active, paid, and today lies within its period, both
      ends included. */
  predicate IsValid(p: Policy, today: Day)
  {
    p.status == Active && p.isPaid && p.startDate <= today <= p.endDate
  }

  /** A newly created policy (draft, unpaid) is never valid, whatever its dates. */
  lemma NewPolicyNeverValid(p: Policy, today: Day)
    requires p.status == DefaultPolicyStatus
    ensures !IsValid(p, today)
  {
  }

  /** An active paid policy is valid on its first and on its last day. */
  lemma ValidOnBothEnds(p: Policy)
    requires p.status == Active && p.isPaid && p.startDate <= p.endDate
    ensures IsValid(p, p.startDate) && IsValid(p, p.endDate)
    ensures !IsValid(p, p.startDate - 1) && !IsValid(p, p.endDate + 1)
  {
  }

  /** The minimum values the schema declares for a policy's amounts. */
  predicate PolicyAmountsAllowed(p: Policy)
  {
    p.coverageAmount >= 1000.0 && p.premiumAmount >= 100.0
  }

  datatype TriggerKind = RainfallDeficit | RainfallExcess | TemperatureHigh | TemperatureLow | ConsecutiveDryDays

  const DefaultMeasurementPeriodDays: int := 30

  datatype Trigger = Trigger(
    id: nat, kind: TriggerKind, thresholdValue: real, measurementPeriodDays: int,
    payoutPercentage: real, isTriggered: bool, triggerDate: Option<Day>)

  /** The payout percentage is a percentage. */
  predicate TriggerAllowed(t: Trigger)
  {
    0.0 <= t.payoutPercentage <= 100.0
  }

  datatype ClaimKind = Automatic | Manual

  datatype ClaimStatus = Pending | Approved | Rejected | Paid

  /** The parts a claim number is assembled from; see the claim-number finding. */
  datatype ClaimNumber = ClaimNumber(filedOn: Day, policyId: nat, triggerId: Option<nat>)

  datatype Claim = Claim(
    number: ClaimNumber, policyId: nat, kind: ClaimKind, triggerId: Option<nat>,
    claimAmount: real, status: ClaimStatus)

  predicate ClaimAllowed(c: Claim)
  {
    c.claimAmount >= 0.0
  }

  /** Claim numbers are unique across all claims. */
  ghost predicate ClaimNumbersUnique(claims: seq<Claim>)
  {
    forall i, j :: 0 <= i < j < |claims| ==> claims[i].number != claims[j].number
  }

  datatype PolicyKind = Drought | Flood | MultiPeril | ExcessRain | Temperature

  datatype Recommendation = Recommendation(
    policyKind: PolicyKind, coverage: real, premium: real, confidenceScore: int)

  const DefaultConfidenceScore: int := 50

  predicate RecommendationAllowed(r: Recommendation)
  {
    0 <= r.confidenceScore <= 100
  }
}
