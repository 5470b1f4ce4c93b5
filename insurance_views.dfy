/** Parametric trigger evaluation of an insurance policy against the farm's weather
    history, and the rule-based policy recommendations. */
module InsuranceViews {
  import opened Wrappers
  import opened Numbers
  import opened Domain
  import opened Sorting
  import opened ClimateModels
  import opened InsuranceModels
  import opened Lists
  import opened FarmModels

  /** The historical observations at the farm's coordinates from periodDays before today
      up to today, both ends included. */
  function MeasurementWindow(weather: seq<WeatherData>, farm: Farm, today: Day, periodDays: int): (w: seq<WeatherData>)
    ensures forall x :: x in w <==>
      x in weather && LocatedAt(farm, x.latitude, x.longitude)
      && today - periodDays <= x.date <= today && x.forecastDate.None?
  {
    if weather == [] then []
    else
      var x := weather[0];
      var rest := MeasurementWindow(weather[1..], farm, today, periodDays);
      if LocatedAt(farm, x.latitude, x.longitude)
         && today - periodDays <= x.date <= today && x.forecastDate.None?
      then [x] + rest
      else rest
  }

  /** The observations in ascending date order (the sort by the negated date keeps ties
      in their original order). */
  function ByDate(w: seq<WeatherData>): seq<WeatherData>
  {
    SortByKey(w, (x: WeatherData) => -(x.date as real))
  }

  lemma ByDateOrdersDates(w: seq<WeatherData>)
    ensures multiset(ByDate(w)) == multiset(w)
    ensures forall i, j :: 0 <= i < j < |ByDate(w)| ==> ByDate(w)[i].date <= ByDate(w)[j].date
  {
    SortByKeySorted(w, (x: WeatherData) => -(x.date as real));
  }

  /** A day is dry below one millimetre of rain. */
  predicate Dry(rain: real)
  {
    rain < 1.0
  }

  /** The run of dry days that ends just before position n. */
  function DryRunEndingAt(r: seq<real>, n: nat): nat
    requires n <= |r|
  {
    if n == 0 || !Dry(r[n - 1]) then 0 else DryRunEndingAt(r, n - 1) + 1
  }

  /** The longest dry run seen among the first n days. */
  function LongestDryUpTo(r: seq<real>, n: nat): nat
    requires n <= |r|
  {
    if n == 0 then 0 else MaxInt(LongestDryUpTo(r, n - 1), DryRunEndingAt(r, n)) as nat
  }

  function LongestDry(r: seq<real>): nat
  {
    LongestDryUpTo(r, |r|)
  }

  /** The k days starting at position i are all dry. */
  ghost predicate DrySpell(r: seq<real>, i: int, k: int)
  {
    0 <= i && 0 <= k && i + k <= |r| && forall j :: i <= j < i + k ==> Dry(r[j])
  }

  lemma {:induction false} RunIsSpell(r: seq<real>, n: nat)
    requires n <= |r|
    ensures DrySpell(r, n - DryRunEndingAt(r, n), DryRunEndingAt(r, n))
  {
    if n > 0 && Dry(r[n - 1]) {
      RunIsSpell(r, n - 1);
    }
  }

  lemma {:induction false} SpellBoundsRun(r: seq<real>, i: int, k: int)
    requires DrySpell(r, i, k)
    ensures k <= DryRunEndingAt(r, i + k)
    decreases k
  {
    if k > 0 {
      assert Dry(r[i + k - 1]);
      SpellBoundsRun(r, i, k - 1);
    }
  }

  lemma {:induction false} UpToBoundsRun(r: seq<real>, n: nat, m: nat)
    requires m <= n <= |r|
    ensures DryRunEndingAt(r, m) <= LongestDryUpTo(r, n)
  {
    if m < n {
      UpToBoundsRun(r, n - 1, m);
    }
  }

  lemma {:induction false} UpToAttained(r: seq<real>, n: nat) returns (m: nat)
    requires n <= |r|
    ensures m <= n && LongestDryUpTo(r, n) == DryRunEndingAt(r, m)
  {
    if n == 0 {
      m := 0;
    } else {
      var m' := UpToAttained(r, n - 1);
      m := if LongestDryUpTo(r, n - 1) >= DryRunEndingAt(r, n) then m' else n;
    }
  }

  /** The dry-day count is the length of the longest spell of consecutive dry days: every
      spell is at most that long and one spell (empty when no day is dry) is exactly that
      long. */
  lemma LongestDryIsLongestSpell(r: seq<real>)
    ensures forall i, k :: DrySpell(r, i, k) ==> k <= LongestDry(r)
    ensures exists i :: DrySpell(r, i, LongestDry(r))
  {
    forall i, k | DrySpell(r, i, k)
      ensures k <= LongestDry(r)
    {
      SpellBoundsRun(r, i, k);
      UpToBoundsRun(r, |r|, i + k);
    }
    var m := UpToAttained(r, |r|);
    RunIsSpell(r, m);
  }

  /** Without any dry day the count is zero. */
  lemma {:induction false} NoDryDayNoSpell(r: seq<real>, n: nat)
    requires n <= |r| && forall j :: 0 <= j < |r| ==> !Dry(r[j])
    ensures LongestDryUpTo(r, n) == 0
  {
    if n > 0 {
      assert !Dry(r[n - 1]);
      NoDryDayNoSpell(r, n - 1);
    }
  }

  /** The day-by-day counter loop of the consecutive-dry-days trigger. */
  method CountConsecutiveDryDays(r: seq<real>) returns (maxDry: nat)
    ensures maxDry == LongestDry(r)
    ensures forall i, k :: DrySpell(r, i, k) ==> k <= maxDry
    ensures exists i :: DrySpell(r, i, maxDry)
  {
    var dry: nat := 0;
    maxDry := 0;
    for i := 0 to |r|
      invariant dry == DryRunEndingAt(r, i)
      invariant maxDry == LongestDryUpTo(r, i)
    {
      if r[i] < 1.0 {
        dry := dry + 1;
        maxDry := MaxInt(maxDry, dry) as nat;
      } else {
        dry := 0;
      }
    }
    LongestDryIsLongestSpell(r);
  }

  /** The value a trigger is measured against: total rainfall, mean temperature, or the
      longest dry run in date order. */
  function MeasuredValue(kind: TriggerKind, w: seq<WeatherData>): real
  {
    if w == [] then 0.0
    else match kind
    case RainfallDeficit => Sum(Rainfalls(w))
    case RainfallExcess => Sum(Rainfalls(w))
    case TemperatureHigh => Mean(Temperatures(w))
    case TemperatureLow => Mean(Temperatures(w))
    case ConsecutiveDryDays => LongestDry(Rainfalls(ByDate(w))) as real
  }

  /** A temperature trigger measures a value between the window's coldest and warmest
      days, and an empty window measures 0. */
  lemma MeasuredTemperatureBounds(kind: TriggerKind, w: seq<WeatherData>)
    requires kind == TemperatureHigh || kind == TemperatureLow
    ensures w == [] ==> MeasuredValue(kind, w) == 0.0
    ensures w != [] ==> MinOf(Temperatures(w)) <= MeasuredValue(kind, w) <= MaxOf(Temperatures(w))
  {
    if w != [] {
      MeanBetweenMinAndMax(Temperatures(w));
    }
  }

  /** A dry-day trigger never counts more days than the window holds. */
  lemma MeasuredDryDaysBound(w: seq<WeatherData>)
    ensures MeasuredValue(ConsecutiveDryDays, w) <= |w| as real
  {
    if w != [] {
      var r := Rainfalls(ByDate(w));
      LongestDryIsLongestSpell(r);
      assert |ByDate(w)| == |w| by { assert |multiset(ByDate(w))| == |multiset(w)|; }
      var i :| DrySpell(r, i, LongestDry(r));
    }
  }

  /** Whether a trigger's condition holds on a window; an empty window never activates. */
  predicate Activates(t: Trigger, w: seq<WeatherData>)
  {
    w != [] &&
    var v := MeasuredValue(t.kind, w);
    match t.kind
    case RainfallDeficit => v < t.thresholdValue
    case RainfallExcess => v > t.thresholdValue
    case TemperatureHigh => v > t.thresholdValue
    case TemperatureLow => v < t.thresholdValue
    case ConsecutiveDryDays => v >= t.thresholdValue
  }

  function TriggerWindow(t: Trigger, farm: Farm, weather: seq<WeatherData>, today: Day): seq<WeatherData>
  {
    MeasurementWindow(weather, farm, today, t.measurementPeriodDays)
  }

  /** A trigger fires when it has not fired before and its condition holds on its window. */
  predicate Fires(t: Trigger, farm: Farm, weather: seq<WeatherData>, today: Day)
  {
    !t.isTriggered && Activates(t, TriggerWindow(t, farm, weather, today))
  }

  /** The trigger after evaluation: marked as fired today when it fires. */
  function Evaluated(t: Trigger, farm: Farm, weather: seq<WeatherData>, today: Day): (u: Trigger)
    ensures u.id == t.id && u.kind == t.kind && u.thresholdValue == t.thresholdValue
    ensures u.payoutPercentage == t.payoutPercentage && u.measurementPeriodDays == t.measurementPeriodDays
    ensures u.isTriggered <==> t.isTriggered || Fires(t, farm, weather, today)
    ensures u.triggerDate == if Fires(t, farm, weather, today) then Some(today) else t.triggerDate
  {
    if Fires(t, farm, weather, today) then t.(isTriggered := true, triggerDate := Some(today)) else t
  }

  /** The payout of a fired trigger: its percentage of the coverage. */
  function Payout(coverage: real, percentage: real): (amount: real)
    ensures coverage >= 0.0 && 0.0 <= percentage <= 100.0 ==> 0.0 <= amount <= coverage
    ensures percentage == 100.0 ==> amount == coverage
    ensures percentage == 0.0 ==> amount == 0.0
  {
    var amount := coverage * percentage / 100.0;
    if coverage >= 0.0 && 0.0 <= percentage <= 100.0 then
      PercentWithin(coverage, percentage);
      amount
    else
      amount
  }

  /** The number the source gives a claim: the date and the policy only. */
  function ClaimNumberAsWritten(today: Day, p: Policy): ClaimNumber
  {
    ClaimNumber(today, p.id, None)
  }

  /** The claim number made unique per trigger. */
  function ClaimNumberFor(today: Day, p: Policy, t: Trigger): (n: ClaimNumber)
    ensures n.filedOn == today && n.policyId == p.id && n.triggerId == Some(t.id)
  {
    ClaimNumber(today, p.id, Some(t.id))
  }

  /** The approved automatic claim created for a fired trigger. */
  function ClaimFor(p: Policy, t: Trigger, today: Day): (c: Claim)
    ensures c.kind == Automatic && c.status == Approved && c.policyId == p.id
    ensures c.number == ClaimNumberFor(today, p, t)
    ensures c.triggerId == Some(t.id) && c.claimAmount == Payout(p.coverageAmount, t.payoutPercentage)
    ensures p.coverageAmount >= 0.0 && TriggerAllowed(t) ==> ClaimAllowed(c)
  {
    Claim(ClaimNumberFor(today, p, t), p.id, Automatic, Some(t.id), Payout(p.coverageAmount, t.payoutPercentage), Approved)
  }

  /** One entry of the response's list of activated triggers. */
  datatype Activation = Activation(
    kind: TriggerKind, measuredValue: real, threshold: real, payoutPercentage: real,
    claimAmount: real, claimNumber: ClaimNumber)

  function ActivationFor(p: Policy, t: Trigger, farm: Farm, weather: seq<WeatherData>, today: Day): Activation
  {
    var c := ClaimFor(p, t, today);
    Activation(t.kind, MeasuredValue(t.kind, TriggerWindow(t, farm, weather, today)), t.thresholdValue,
               t.payoutPercentage, c.claimAmount, c.number)
  }

  /** The triggers of ts that fire, in order. */
  function FiredTriggers(ts: seq<Trigger>, farm: Farm, weather: seq<WeatherData>, today: Day): seq<Trigger>
  {
    Filter(ts, (t: Trigger) => Fires(t, farm, weather, today))
  }

  function ClaimsFor(p: Policy, fs: seq<Trigger>, today: Day): (cs: seq<Claim>)
    ensures |cs| == |fs| && forall i :: 0 <= i < |fs| ==> cs[i] == ClaimFor(p, fs[i], today)
  {
    if fs == [] then [] else ClaimsFor(p, fs[..|fs| - 1], today) + [ClaimFor(p, fs[|fs| - 1], today)]
  }

  function ActivationsFor(p: Policy, fs: seq<Trigger>, farm: Farm, weather: seq<WeatherData>, today: Day): (acts: seq<Activation>)
    ensures |acts| == |fs|
  {
    if fs == [] then []
    else ActivationsFor(p, fs[..|fs| - 1], farm, weather, today) + [ActivationFor(p, fs[|fs| - 1], farm, weather, today)]
  }

  function EvaluatedAll(ts: seq<Trigger>, farm: Farm, weather: seq<WeatherData>, today: Day): (us: seq<Trigger>)
    ensures |us| == |ts| && forall i :: 0 <= i < |ts| ==> us[i] == Evaluated(ts[i], farm, weather, today)
  {
    if ts == [] then [] else EvaluatedAll(ts[..|ts| - 1], farm, weather, today) + [Evaluated(ts[|ts| - 1], farm, weather, today)]
  }

  /** What an evaluation of a valid policy produces. */
  datatype Evaluation = Evaluation(
    triggers: seq<Trigger>, claims: seq<Claim>, policyStatus: PolicyStatus, activated: seq<Activation>)

  /** Measures one trigger on its window and compares with the threshold; an empty window
      is not measured. */
  method CheckTrigger(t: Trigger, w: seq<WeatherData>) returns (isActivated: bool)
    ensures isActivated == Activates(t, w)
  {
    isActivated := false;
    if |w| > 0 {
      match t.kind {
        case RainfallDeficit => isActivated := Sum(Rainfalls(w)) < t.thresholdValue;
        case RainfallExcess => isActivated := Sum(Rainfalls(w)) > t.thresholdValue;
        case TemperatureHigh => isActivated := Mean(Temperatures(w)) > t.thresholdValue;
        case TemperatureLow => isActivated := Mean(Temperatures(w)) < t.thresholdValue;
        case ConsecutiveDryDays =>
          var maxDry := CountConsecutiveDryDays(Rainfalls(ByDate(w)));
          isActivated := maxDry as real >= t.thresholdValue;
      }
    }
  }

  datatype EvaluationError = PolicyNotFound | PolicyNotActive

  function EvaluationOf(p: Policy, ts: seq<Trigger>, farm: Farm, weather: seq<WeatherData>, today: Day): Evaluation
  {
    var fs := FiredTriggers(ts, farm, weather, today);
    Evaluation(EvaluatedAll(ts, farm, weather, today), ClaimsFor(p, fs, today),
               if fs == [] then p.status else Claimed, ActivationsFor(p, fs, farm, weather, today))
  }

  /** Whether a trigger fires: one not yet fired is measured on its own window. */
  method TriggerFires(t: Trigger, farm: Farm, weather: seq<WeatherData>, today: Day) returns (fires: bool)
    ensures fires == Fires(t, farm, weather, today)
  {
    fires := false;
    if !t.isTriggered {
      fires := CheckTrigger(t, MeasurementWindow(weather, farm, today, t.measurementPeriodDays));
    }
  }

  /** The trigger loop for a valid policy: each trigger that fires is marked as fired
      today, gets an approved automatic claim, and moves the policy to 'claimed'; the loop
      goes on over the remaining triggers. */
  method EvaluateValidPolicy(p: Policy, triggers: seq<Trigger>, farm: Farm, weather: seq<WeatherData>, today: Day)
    returns (e: Evaluation)
    ensures e == EvaluationOf(p, triggers, farm, weather, today)
  {
    e := Evaluation([], [], p.status, []);
    EvaluationOfNone(p, farm, weather, today);
    assert triggers[..0] == [];
    for i := 0 to |triggers|
      invariant e == EvaluationOf(p, triggers[..i], farm, weather, today)
    {
      var done, t := triggers[..i], triggers[i];
      assert triggers[..i + 1] == done + [t];
      EvaluationOfSnoc(p, done, t, farm, weather, today);
      e := EvaluateTrigger(p, e, t, farm, weather, today);
    }
    assert triggers[..|triggers|] == triggers;
  }

  /** With no triggers the evaluation is empty and the status unchanged. */
  lemma EvaluationOfNone(p: Policy, farm: Farm, weather: seq<WeatherData>, today: Day)
    ensures EvaluationOf(p, [], farm, weather, today) == Evaluation([], [], p.status, [])
  {
  }

  /** The evaluation so far extended by one more trigger: a trigger that fires is marked
      as fired today, adds its claim and its activation and moves the status to 'claimed';
      one that does not is kept as it was. */
  function Extended(p: Policy, e: Evaluation, t: Trigger, farm: Farm, weather: seq<WeatherData>, today: Day): Evaluation
  {
    if Fires(t, farm, weather, today) then
      Evaluation(e.triggers + [t.(isTriggered := true, triggerDate := Some(today))],
                 e.claims + [ClaimFor(p, t, today)], Claimed,
                 e.activated + [ActivationFor(p, t, farm, weather, today)])
    else Evaluation(e.triggers + [t], e.claims, e.policyStatus, e.activated)
  }

  /** One pass of the trigger loop's body. */
  method EvaluateTrigger(p: Policy, e: Evaluation, t: Trigger, farm: Farm, weather: seq<WeatherData>, today: Day)
    returns (e': Evaluation)
    ensures e' == Extended(p, e, t, farm, weather, today)
  {
    var fires := TriggerFires(t, farm, weather, today);
    if fires {
      var claim := ClaimFor(p, t, today);
      e' := Evaluation(e.triggers + [t.(isTriggered := true, triggerDate := Some(today))],
                       e.claims + [claim], Claimed, e.activated + [ActivationFor(p, t, farm, weather, today)]);
    } else {
      e' := e.(triggers := e.triggers + [t]);
    }
  }

  /** One more trigger extends each part of the evaluation by that trigger's share. */
  lemma EvaluationSnoc(p: Policy, ts: seq<Trigger>, t: Trigger, farm: Farm, weather: seq<WeatherData>, today: Day)
    ensures EvaluatedAll(ts + [t], farm, weather, today) == EvaluatedAll(ts, farm, weather, today) + [Evaluated(t, farm, weather, today)]
    ensures FiredTriggers(ts + [t], farm, weather, today)
            == FiredTriggers(ts, farm, weather, today) + (if Fires(t, farm, weather, today) then [t] else [])
    ensures var fs := FiredTriggers(ts, farm, weather, today);
            && ClaimsFor(p, fs + [t], today) == ClaimsFor(p, fs, today) + [ClaimFor(p, t, today)]
            && ActivationsFor(p, fs + [t], farm, weather, today)
               == ActivationsFor(p, fs, farm, weather, today) + [ActivationFor(p, t, farm, weather, today)]
  {
    assert (ts + [t])[..|ts|] == ts;
    FilterSnoc(ts, t, (t: Trigger) => Fires(t, farm, weather, today));
    var fs := FiredTriggers(ts, farm, weather, today);
    assert (fs + [t])[..|fs|] == fs;
  }

  /** The evaluation of one more trigger extends the evaluation of the ones before it. */
  lemma EvaluationOfSnoc(p: Policy, ts: seq<Trigger>, t: Trigger, farm: Farm, weather: seq<WeatherData>, today: Day)
    ensures EvaluationOf(p, ts + [t], farm, weather, today)
            == Extended(p, EvaluationOf(p, ts, farm, weather, today), t, farm, weather, today)
  {
    EvaluationSnoc(p, ts, t, farm, weather, today);
    var fs := FiredTriggers(ts, farm, weather, today);
    if Fires(t, farm, weather, today) {
      assert FiredTriggers(ts + [t], farm, weather, today) == fs + [t] != [];
    } else {
      assert FiredTriggers(ts + [t], farm, weather, today) == fs;
    }
  }

  /** Evaluates a policy's triggers.  A missing policy is a 404, and an invalid one a 400
      before any trigger is looked at. */
  method EvaluateTriggers(policy: Option<Policy>, triggers: seq<Trigger>, farm: Farm,
                          weather: seq<WeatherData>, today: Day)
    returns (r: Result<Evaluation, EvaluationError>)
    ensures policy.None? ==> r == Failure(PolicyNotFound)
    ensures policy.Some? && !IsValid(policy.value, today) ==> r == Failure(PolicyNotActive)
    ensures policy.Some? && IsValid(policy.value, today) ==>
              r == Success(EvaluationOf(policy.value, triggers, farm, weather, today))
  {
    if policy.None? {
      return Failure(PolicyNotFound);
    }
    if !IsValid(policy.value, today) {
      return Failure(PolicyNotActive);
    }
    var e := EvaluateValidPolicy(policy.value, triggers, farm, weather, today);
    return Success(e);
  }

  /** A trigger that has already fired is left exactly as it was. */
  lemma FiredTriggerUntouched(t: Trigger, farm: Farm, weather: seq<WeatherData>, today: Day)
    requires t.isTriggered
    ensures Evaluated(t, farm, weather, today) == t
  {
  }

  /** With no observation in its window a trigger never fires. */
  lemma NoDataNoActivation(t: Trigger, farm: Farm, weather: seq<WeatherData>, today: Day)
    requires TriggerWindow(t, farm, weather, today) == []
    ensures !Fires(t, farm, weather, today)
  {
  }

  /** A farm with a missing coordinate matches no weather row, so every window is empty. */
  lemma {:induction false} NoCoordinatesNoWindow(weather: seq<WeatherData>, farm: Farm, today: Day, periodDays: int)
    requires farm.latitude.None? || farm.longitude.None?
    ensures MeasurementWindow(weather, farm, today, periodDays) == []
  {
    if weather != [] {
      NoCoordinatesNoWindow(weather[1..], farm, today, periodDays);
    }
  }

  /** Hence none of such a farm's triggers fires. */
  lemma NoCoordinatesNoActivation(t: Trigger, farm: Farm, weather: seq<WeatherData>, today: Day)
    requires farm.latitude.None? || farm.longitude.None?
    ensures TriggerWindow(t, farm, weather, today) == []
    ensures !Fires(t, farm, weather, today)
  {
    NoCoordinatesNoWindow(weather, farm, today, t.measurementPeriodDays);
  }

  /** The policy ends up 'claimed' exactly when some trigger fired, and there is one
      claim per fired trigger. */
  lemma EvaluationClaims(p: Policy, ts: seq<Trigger>, farm: Farm, weather: seq<WeatherData>, today: Day)
    ensures var e := EvaluationOf(p, ts, farm, weather, today);
            (e.policyStatus == Claimed <==> p.status == Claimed || exists i :: 0 <= i < |ts| && Fires(ts[i], farm, weather, today))
            && |e.claims| == |e.activated| == |FiredTriggers(ts, farm, weather, today)|
  {
    FilterEmpty(ts, (t: Trigger) => Fires(t, farm, weather, today));
  }

  /** With the per-trigger claim number, the claims of one evaluation never share a
      number. */
  lemma ClaimNumbersDistinct(p: Policy, ts: seq<Trigger>, farm: Farm, weather: seq<WeatherData>, today: Day)
    requires forall i, j :: 0 <= i < j < |ts| ==> ts[i].id != ts[j].id
    ensures ClaimNumbersUnique(EvaluationOf(p, ts, farm, weather, today).claims)
  {
    FilterKeepsDistinct(ts, (t: Trigger) => Fires(t, farm, weather, today), (t: Trigger) => t.id);
    var fs := FiredTriggers(ts, farm, weather, today);
    var cs := ClaimsFor(p, fs, today);
    forall i, j | 0 <= i < j < |cs|
      ensures cs[i].number != cs[j].number
    {
      assert cs[i] == ClaimFor(p, fs[i], today) && cs[j] == ClaimFor(p, fs[j], today);
    }
  }

  /** The claims as the source numbers them: every claim of the day gets the same number. */
  function ClaimsAsWritten(p: Policy, fs: seq<Trigger>, today: Day): (cs: seq<Claim>)
    ensures |cs| == |fs|
  {
    seq(|fs|, i requires 0 <= i < |fs| => ClaimFor(p, fs[i], today).(number := ClaimNumberAsWritten(today, p)))
  }

  /** As written, any evaluation in which two triggers fire produces two claims with the
      same number, which the uniqueness of claim numbers forbids. */
  lemma AsWrittenClaimNumbersCollide(p: Policy, fs: seq<Trigger>, today: Day)
    requires |fs| >= 2
    ensures !ClaimNumbersUnique(ClaimsAsWritten(p, fs, today))
  {
    var cs := ClaimsAsWritten(p, fs, today);
    assert cs[0].number == cs[1].number;
  }

  /** Two triggers do fire together: a policy with two rainfall-deficit triggers and one
      rainless observation in the window. */
  lemma TwoTriggersCanFireTogether()
    ensures |FiredTriggers([Trigger(1, RainfallDeficit, 10.0, 30, 50.0, false, None),
                            Trigger(2, RainfallDeficit, 20.0, 30, 25.0, false, None)],
                           Farm(1, Some(1.0), Some(36.0), 2.0), [WeatherData(1.0, 36.0, 50, None, 20.0, 0.0)], 50)| == 2
  {
    var farm := Farm(1, Some(1.0), Some(36.0), 2.0);
    var weather := [WeatherData(1.0, 36.0, 50, None, 20.0, 0.0)];
    var t1 := Trigger(1, RainfallDeficit, 10.0, 30, 50.0, false, None);
    var t2 := Trigger(2, RainfallDeficit, 20.0, 30, 25.0, false, None);
    var w := MeasurementWindow(weather, farm, 50, 30);
    assert w == weather;
    assert Rainfalls(w) == [0.0];
    assert Sum([0.0]) == 0.0;
    assert Fires(t1, farm, weather, 50) && Fires(t2, farm, weather, 50);
    FilterSnoc([t1], t2, (t: Trigger) => Fires(t, farm, weather, 50));
    FilterSnoc([], t1, (t: Trigger) => Fires(t, farm, weather, 50));
    assert [t1, t2] == [t1] + [t2];
    assert [t1] == [] + [t1];
  }

  /** The rule-based recommendations for the farm's latest assessment. */
  function Recommendations(latest: Option<ClimateRisk>, acres: real): (rs: seq<Recommendation>)
  {
    if latest.None? then []
    else
      var d, f := latest.value.droughtRisk, latest.value.floodRisk;
      (if d > 40 then [Recommendation(Drought, acres * 50000.0, acres * 50000.0 * 0.05, MinInt(95, 50 + d))] else [])
      + (if f > 40 then [Recommendation(Flood, acres * 45000.0, acres * 45000.0 * 0.04, MinInt(95, 50 + f))] else [])
      + (if d > 30 || f > 30 then [Recommendation(MultiPeril, acres * 60000.0, acres * 60000.0 * 0.07, 70)] else [])
  }

  /** The stored assessments of one farm. */
  function FarmRisks(risks: seq<ClimateRisk>, farmId: nat): seq<ClimateRisk>
  {
    Filter(risks, (x: ClimateRisk) => x.farmId == farmId)
  }

  /** The farm's latest assessment: None exactly when the farm has none; otherwise one of
      its own assessments, dated no earlier than any other of its assessments. */
  function OwnLatest(risks: seq<ClimateRisk>, farmId: nat): (l: Option<ClimateRisk>)
    ensures l.None? <==> forall i :: 0 <= i < |risks| ==> risks[i].farmId != farmId
    ensures l.Some? ==> l.value in risks && l.value.farmId == farmId
    ensures l.Some? ==> forall i :: 0 <= i < |risks| && risks[i].farmId == farmId ==>
      risks[i].assessmentDate <= l.value.assessmentDate
  {
    var keep := (x: ClimateRisk) => x.farmId == farmId;
    FilterMembers(risks, keep);
    FilterEmpty(risks, keep);
    var own := FarmRisks(risks, farmId);
    var l := Latest(own, (x: ClimateRisk) => x.assessmentDate as real);
    assert l.Some? ==> forall i :: 0 <= i < |risks| && risks[i].farmId == farmId ==>
      risks[i].assessmentDate <= l.value.assessmentDate by {
      if l.Some? {
        forall i | 0 <= i < |risks| && risks[i].farmId == farmId
          ensures risks[i].assessmentDate <= l.value.assessmentDate
        {
          assert risks[i] in own;
          var k :| 0 <= k < |own| && own[k] == risks[i];
        }
      }
    }
    l
  }

  /** The recommendations for a farm: the rules run on the farm's own latest assessment;
      a farm without an assessment of its own gets none, whatever other farms have. */
  function RecommendationsFor(farm: Option<Farm>, risks: seq<ClimateRisk>): (r: Result<seq<Recommendation>, string>)
    ensures farm.None? ==> r == Failure("Farm profile not found")
    ensures farm.Some? && (forall i :: 0 <= i < |risks| ==> risks[i].farmId != farm.value.id) ==>
      r == Success([])
    ensures farm.Some? && (exists i :: 0 <= i < |risks| && risks[i].farmId == farm.value.id) ==>
      exists rk :: rk in risks && rk.farmId == farm.value.id
        && (forall i :: 0 <= i < |risks| && risks[i].farmId == farm.value.id ==> risks[i].assessmentDate <= rk.assessmentDate)
        && r == Success(Recommendations(Some(rk), farm.value.sizeAcres))
  {
    if farm.None? then Failure("Farm profile not found")
    else Success(Recommendations(OwnLatest(risks, farm.value.id), farm.value.sizeAcres))
  }

  /** Another farm's assessment never changes a farm's recommendations. */
  lemma OtherFarmsRisksIgnored(farm: Farm, risks: seq<ClimateRisk>, other: ClimateRisk)
    requires other.farmId != farm.id
    ensures RecommendationsFor(Some(farm), risks + [other]) == RecommendationsFor(Some(farm), risks)
  {
    FilterSnoc(risks, other, (x: ClimateRisk) => x.farmId == farm.id);
    assert FarmRisks(risks + [other], farm.id) == FarmRisks(risks, farm.id);
    assert OwnLatest(risks + [other], farm.id) == OwnLatest(risks, farm.id);
  }

  function Kinds(rs: seq<Recommendation>): seq<PolicyKind>
  {
    if rs == [] then [] else [rs[0].policyKind] + Kinds(rs[1..])
  }

  lemma {:induction false} KindsAppend(a: seq<Recommendation>, b: seq<Recommendation>)
    ensures Kinds(a + b) == Kinds(a) + Kinds(b)
  {
    if a == [] {
      assert a + b == b;
    } else {
      assert (a + b)[0] == a[0];
      assert (a + b)[1..] == a[1..] + b;
      KindsAppend(a[1..], b);
    }
  }

  /** Which policies are recommended, in order: drought above 40, flood above 40,
      multi-peril when either exceeds 30; nothing without an assessment. */
  lemma RecommendedKinds(latest: Option<ClimateRisk>, acres: real)
    ensures latest.None? ==> Recommendations(latest, acres) == []
    ensures latest.Some? ==>
      var d, f := latest.value.droughtRisk, latest.value.floodRisk;
      Kinds(Recommendations(latest, acres))
        == (if d > 40 then [Drought] else []) + (if f > 40 then [Flood] else [])
           + (if d > 30 || f > 30 then [MultiPeril] else [])
  {
    if latest.Some? {
      var d, f := latest.value.droughtRisk, latest.value.floodRisk;
      var a := if d > 40 then [Recommendation(Drought, acres * 50000.0, acres * 50000.0 * 0.05, MinInt(95, 50 + d))] else [];
      var b := if f > 40 then [Recommendation(Flood, acres * 45000.0, acres * 45000.0 * 0.04, MinInt(95, 50 + f))] else [];
      var c := if d > 30 || f > 30 then [Recommendation(MultiPeril, acres * 60000.0, acres * 60000.0 * 0.07, 70)] else [];
      assert Recommendations(latest, acres) == a + b + c;
      KindsAppend(a + b, c);
      KindsAppend(a, b);
    }
  }

  /** A drought or flood recommendation always comes with a multi-peril one, and the list
      is empty exactly when there is no assessment or both risks are at most 30. */
  lemma MultiPerilAccompanies(latest: Option<ClimateRisk>, acres: real)
    ensures var ks := Kinds(Recommendations(latest, acres));
            (Drought in ks || Flood in ks) ==> MultiPeril in ks
    ensures Recommendations(latest, acres) == [] <==>
            latest.None? || (latest.value.droughtRisk <= 30 && latest.value.floodRisk <= 30)
  {
    RecommendedKinds(latest, acres);
  }

  /** Every recommendation's coverage, premium rate and confidence, and the confidence
      within the schema's 0..100 range. */
  lemma RecommendationTerms(latest: Option<ClimateRisk>, acres: real)
    ensures forall r :: r in Recommendations(latest, acres) ==> RecommendationAllowed(r)
    ensures forall r :: r in Recommendations(latest, acres) ==>
      match r.policyKind
      case Drought => r.coverage == acres * 50000.0 && r.premium == r.coverage * 0.05
                      && r.confidenceScore == MinInt(95, 50 + latest.value.droughtRisk)
      case Flood => r.coverage == acres * 45000.0 && r.premium == r.coverage * 0.04
                    && r.confidenceScore == MinInt(95, 50 + latest.value.floodRisk)
      case MultiPeril => r.coverage == acres * 60000.0 && r.premium == r.coverage * 0.07 && r.confidenceScore == 70
      case _ => false
  {
  }
}
