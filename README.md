# LIMA Agro-Advisor: a verified model of its rules

LIMA is a farm advisory app for Kenyan smallholders. It has a React client and a Django
backend. This project models the deterministic rules of both halves in Dafny and proves
what they promise:

- **Backend.**
  - Parametric insurance: trigger evaluation against the farm's weather, the longest dry
    spell, payouts and automatic claims, policy validity and the rule-based policy
    recommendations.
  - Climate scoring: the drought, flood and heat formulas, the advice list, the NDVI
    health and overall risk bands, and their validators.
  - Market analysis: latest prices, the half-series trend, the forecast horizon and
    confidence, the sell-or-wait decision, and the market validators.
  - Farm analytics: the report range, profit, margin, category totals and top crops, the
    harvest value rule and the farm validators.
  - Notification channel gating, reading and summarising, and the agronomist chat's
    keyword responder.
- **Client.**
  - The voice assistant's playback queue, session status, persona and tool choice, and
    tool-call dispatch.
  - The insurance payout simulator and the climate dashboard's display rules.
  - The AI service layer's retry with backoff, code-fence cleaning, cache keys and
    fallbacks.
  - Translation lookup, the image-resize rule and the shell's list updaters.
  - The chat, journal and profile screens, the onboarding tour and the login screen.

Conventions:

- Each source file is one Dafny module. Shared helpers live in `Wrappers`, `Numbers`,
  `Sorting`, `Lists`, `Grouping`, `Text`, `Json` and `Domain`.
- Dates are integer day numbers.
- Decimal and float quantities are exact `real`s. Python's `int()` on a non-negative
  value is `Floor`.
- The clock, randomness, storage reads, AI replies and database rows are parameters.
- Code that updates objects in place is a class with a `modifies` frame: `Tour` for the
  onboarding tour, `VoiceSession` for the voice session, `Inbox` for stored notifications
  and `UserStore` for the browser's user list. Loops in the source are methods with
  invariants, proved against a specification function. Everything else is a function.

Where the code and the behaviour described for it disagree, the model follows the code:

- Call simulation declares no tools. Only the advisor mode declares them, and only when
  ambient listening is off (components/VoiceAssistant.tsx:132).
- A tool call with an unknown name gets no response at all (components/VoiceAssistant.tsx:194-208).
- Marking notifications read also rewrites the read time of rows already read.
  `update()` returns every matched row (backend/communication/views.py:63-69).
- The stored chat query is the trimmed one, because the serializer's CharField trims
  (backend/agronomy/serializers.py:42).
- The image payload is the text between the first and second commas of the data URL
  (components/AgronomyChat.tsx:154).
- A drought risk in 31..40 gives a multi-peril recommendation on its own. The proved
  direction is the converse: a drought or flood recommendation always comes with a
  multi-peril one (backend/insurance/views.py:257-299).
- The climate history and the market 30-day series have no upper date bound
  (backend/climate/views.py:176-181, backend/market/views.py:311-316).

## Model

| member | source | states |
|---|---|---|
| `VoiceAssistant.PersonaFor` | components/VoiceAssistant.tsx:45-105 | the ambient flag picks the listener persona whatever the mode; otherwise advisor and call simulation share the advisor persona and the negotiator gets the broker |
| `VoiceAssistant.ActiveTools` | components/VoiceAssistant.tsx:132-150 | tools are declared iff the mode is advisor and ambient is off |
| `VoiceAssistant.ActiveToolsDeclared` | components/VoiceAssistant.tsx:132-150 | a session that declares tools declares exactly the harvest-logging, climate-risk and insurance-status tools |
| `VoiceAssistant.CallSimulationSharesPersonaNotTools` | components/VoiceAssistant.tsx:65-150 | call simulation speaks with the advisor's persona but has no tools, while the advisor has them |
| `VoiceAssistant.ChunkStart` | components/VoiceAssistant.tsx:184 | a chunk starts at the later of the queue cursor and the clock |
| `VoiceAssistant.BackToBackChunksAreGapless` | components/VoiceAssistant.tsx:184-186 | while the queue is ahead of the clock, the second of two chunks starts exactly where the first ends |
| `VoiceAssistant.WithoutUnit` | components/VoiceAssistant.tsx:187-189 | removing a finished unit keeps exactly the other units |
| `VoiceAssistant.VoiceSession.constructor` | components/VoiceAssistant.tsx:26-39 | a new session is idle and inactive, with no audio context and nothing playing |
| `VoiceAssistant.VoiceSession.Start` | components/VoiceAssistant.tsx:108-121 | a start without an API key or microphone ends idle; otherwise the cursor is reset to the new context's time with an empty schedule and the session connects |
| `VoiceAssistant.VoiceSession.OpenOutput` | components/VoiceAssistant.tsx:117-118 | a fresh output context is open, with the cursor at its clock and nothing scheduled, and the session stays valid |
| `VoiceAssistant.VoiceSession.Connect` | components/VoiceAssistant.tsx:132-216 | the session connects with the persona and the tools chosen for its mode and ambient flag and becomes active |
| `VoiceAssistant.VoiceSession.OnOpen` | components/VoiceAssistant.tsx:162-165 | an opened connection sets the status to listening |
| `VoiceAssistant.VoiceSession.OnTranscription` | components/VoiceAssistant.tsx:172-175 | the transcript reads "Listening..." in ambient mode and "You: " plus the text otherwise |
| `VoiceAssistant.VoiceSession.OnAudioChunk` | components/VoiceAssistant.tsx:177-186 | with an output context, a chunk sets the status to speaking, is scheduled at max(cursor, now) under the next unit number, which then advances by one; the cursor moves to its end and scheduled intervals never overlap; without one nothing changes; only the playback fields can change |
| `VoiceAssistant.VoiceSession.OnUnitEnded` | components/VoiceAssistant.tsx:187-191 | a finished unit leaves the active list; the status returns to listening only when the list is empty |
| `VoiceAssistant.VoiceSession.Stop` | components/VoiceAssistant.tsx:224-231 | stopping ends inactive and idle, and closes the context only when it is still open |
| `VoiceAssistant.VoiceSession.OnError` | components/VoiceAssistant.tsx:212 | a connection error stops the session and records the connection error |
| `VoiceAssistant.StopTwiceClosesOnce` | components/VoiceAssistant.tsx:224-231 | two stops in a row close the context at most once and end idle |
| `VoiceAssistant.CallEffects` | components/VoiceAssistant.tsx:195-207 | a known tool ends with one response carrying the call's id and name; an unknown name produces nothing |
| `VoiceAssistant.DispatchToolCalls` | components/VoiceAssistant.tsx:194-208 | the dispatch loop produces the effects of the calls in order, one call after another |
| `VoiceAssistant.ResponsesAppend` | components/VoiceAssistant.tsx:194-208 | the responses of two runs of effects are the responses of each, in order |
| `VoiceAssistant.ResponsesMatchKnownCalls` | components/VoiceAssistant.tsx:194-208 | the responses sent are exactly the (id, name) pairs of the calls to known tools, in call order |
| `InsuranceModels.NewPolicyNeverValid` | backend/insurance/models.py:93-101 | a policy in the default draft status is never valid, whatever its dates |
| `InsuranceModels.ValidOnBothEnds` | backend/insurance/models.py:100 | an active paid policy is valid on its first and last days and not on the days just outside them |
| `InsuranceViews.MeasurementWindow` | backend/insurance/views.py:89-96 | the window holds exactly the farm's historical observations dated from the period start to today |
| `InsuranceViews.ByDateOrdersDates` | backend/insurance/views.py:135 | the observations in date order are a permutation with non-decreasing dates |
| `InsuranceViews.LongestDryIsLongestSpell` | backend/insurance/views.py:130-142 | the dry-day count bounds every spell of consecutive days under 1 mm, and some spell attains it |
| `InsuranceViews.MeasuredTemperatureBounds` | backend/insurance/views.py:115-129 | a temperature trigger measures 0 on an empty window and otherwise a value between the window's coldest and warmest days |
| `InsuranceViews.MeasuredDryDaysBound` | backend/insurance/views.py:131-142 | a dry-day trigger never counts more days than the window holds |
| `InsuranceViews.NoDryDayNoSpell` | backend/insurance/views.py:130-142 | without a dry day the count is zero |
| `InsuranceViews.CountConsecutiveDryDays` | backend/insurance/views.py:131-142 | the counter loop returns the longest dry spell |
| `InsuranceViews.Evaluated` | backend/insurance/views.py:148-151 | a trigger is marked fired with today's date exactly when it fires; its terms are unchanged |
| `InsuranceViews.Payout` | backend/insurance/views.py:154 | for a percentage of 0..100 the payout lies between nothing and the coverage, and is the whole coverage at 100 |
| `InsuranceViews.ClaimNumberFor` | backend/insurance/views.py:159 | the corrected claim number records the day, the policy and the trigger |
| `InsuranceViews.ClaimFor` | backend/insurance/views.py:157-165 | the claim is an approved automatic claim for the trigger, for the payout amount and never negative |
| `InsuranceViews.ClaimsFor` | backend/insurance/views.py:148-165 | one claim per fired trigger, in order |
| `InsuranceViews.ActivationsFor` | backend/insurance/views.py:171-178 | one activation entry per fired trigger |
| `InsuranceViews.EvaluatedAll` | backend/insurance/views.py:84-151 | every trigger is replaced by its evaluated form, in order |
| `InsuranceViews.CheckTrigger` | backend/insurance/views.py:98-145 | the trigger activates iff its measured value passes the threshold for its kind on a non-empty window |
| `InsuranceViews.TriggerFires` | backend/insurance/views.py:84-145 | only a trigger not yet fired is measured, on its own window |
| `InsuranceViews.EvaluateValidPolicy` | backend/insurance/views.py:84-178 | the trigger loop, one trigger at a time, ends with the evaluation of all the triggers: each evaluated, and the claims, activations and status of the fired ones |
| `InsuranceViews.EvaluateTrigger` | backend/insurance/views.py:85-178 | one pass of the loop marks a firing trigger as fired today and adds its claim, its activation and the claimed status; a trigger that does not fire is kept as it was |
| `InsuranceViews.EvaluationOfSnoc` | backend/insurance/views.py:84-178 | evaluating one more trigger extends the evaluation of the ones before it by that trigger's share |
| `InsuranceViews.EvaluationSnoc` | backend/insurance/views.py:84-178 | one more trigger appends its evaluated form, and when it fires its claim and activation, leaving the earlier ones as they were |
| `InsuranceViews.EvaluateTriggers` | backend/insurance/views.py:67-190 | a missing policy is a 404 and an invalid one a 400, before any trigger is looked at; a valid one is evaluated |
| `InsuranceViews.FiredTriggerUntouched` | backend/insurance/views.py:84 | a trigger that has already fired is left exactly as it was |
| `InsuranceViews.NoDataNoActivation` | backend/insurance/views.py:98 | with no observation in its window a trigger never fires |
| `InsuranceViews.NoCoordinatesNoWindow` | backend/insurance/views.py:89-96 | a farm with a missing coordinate (backend/farms/models.py:33-34) has an empty window for every period |
| `InsuranceViews.NoCoordinatesNoActivation` | backend/insurance/views.py:89-98 | no trigger of a farm with a missing coordinate fires |
| `InsuranceViews.EvaluationClaims` | backend/insurance/views.py:148-169 | the policy ends up claimed iff some trigger fired, with one claim per fired trigger |
| `InsuranceViews.ClaimNumbersDistinct` | backend/insurance/views.py:155-165 | with per-trigger numbers, the claims of one evaluation never share a number |
| `InsuranceViews.ClaimsAsWritten` | backend/insurance/views.py:157-165 | the claims numbered as the source numbers them, one per fired trigger |
| `InsuranceViews.AsWrittenClaimNumbersCollide` | backend/insurance/views.py:159 | as written, two fired triggers give two claims with the same number |
| `InsuranceViews.TwoTriggersCanFireTogether` | backend/insurance/views.py:84-151 | a concrete policy with two deficit triggers has both fire in one evaluation |
| `InsuranceViews.OwnLatest` | backend/insurance/views.py:252 | none exactly when the farm has no assessment; otherwise one of the farm's own assessments, dated no earlier than any other of them |
| `InsuranceViews.RecommendationsFor` | backend/insurance/views.py:243-308 | without a farm the request fails; a farm with no assessment of its own gets no recommendations; otherwise the rules run on one of its own assessments with the latest date |
| `InsuranceViews.OtherFarmsRisksIgnored` | backend/insurance/views.py:252 | another farm's assessment never changes a farm's recommendations |
| `InsuranceViews.RecommendedKinds` | backend/insurance/views.py:257-299 | no assessment gives no recommendation; otherwise drought above 40, flood above 40 and multi-peril above 30 on either score, in that order |
| `InsuranceViews.MultiPerilAccompanies` | backend/insurance/views.py:257-299 | a drought or flood recommendation always comes with a multi-peril one; the list is empty iff there is no assessment or both scores are at most 30 |
| `InsuranceViews.RecommendationTerms` | backend/insurance/views.py:258-297 | the coverage per acre, premium rate and confidence of each kind; every confidence lies in 0..100 |
| `InsurancePortal.RainfallComponent` | components/InsurancePortal.tsx:44-47 | rain of 50 mm or more pays nothing |
| `InsurancePortal.NdviComponent` | components/InsurancePortal.tsx:50-53 | an NDVI drop of 20 % or less pays nothing |
| `InsurancePortal.RainSeverity` | components/InsurancePortal.tsx:44-45 | the rain severity is 0 from 50 mm on, 1 with no rain, and lies in 0..1 for non-negative rain |
| `InsurancePortal.NdviSeverity` | components/InsurancePortal.tsx:50-51 | the NDVI severity is 0 up to a 20 % drop, 1 from a 40 % drop on, and always lies in 0..1 |
| `InsurancePortal.RainfallComponentMonotone` | components/InsurancePortal.tsx:44-47 | the rainfall component never grows with the rain |
| `InsurancePortal.SimulatedPayout` | components/InsurancePortal.tsx:37-56 | with no policy the simulated payout is 0 |
| `InsurancePortal.ComponentsBounded` | components/InsurancePortal.tsx:44-53 | on the sliders each component lies between nothing and the coverage |
| `InsurancePortal.PayoutWithinCoverage` | components/InsurancePortal.tsx:55 | on the sliders the payout lies between nothing and the coverage |
| `InsurancePortal.NoTriggerNoPayout` | components/InsurancePortal.tsx:44-55 | rain of 50 mm or more with an NDVI drop of at most 20 % pays nothing |
| `InsurancePortal.SevereConditionsPayInFull` | components/InsurancePortal.tsx:44-55 | no rain at all, or a drop of 40 % or more, pays the whole (whole-shilling) coverage |
| `InsurancePortal.PayoutNonIncreasingInRain` | components/InsurancePortal.tsx:44-55 | less rain never pays less |
| `InsurancePortal.PayoutNonIncreasingInNdvi` | components/InsurancePortal.tsx:50-55 | a larger NDVI drop never pays less |
| `InsurancePortal.NdviComponentMonotone` | components/InsurancePortal.tsx:50-53 | the NDVI component never shrinks as the drop grows |
| `ClimateModels.Rainfalls` | backend/climate/models.py:30-36 | the rainfall column of the observations, position by position |
| `ClimateModels.Temperatures` | backend/climate/models.py:30 | the average-temperature column of the observations, position by position |
| `ClimateModels.ClassifyHealth` | backend/climate/models.py:156-164 | every NDVI value falls in exactly one band: poor below 0.2, fair below 0.4, good below 0.6, excellent otherwise |
| `ClimateModels.HealthMonotone` | backend/climate/models.py:157-164 | a greener reading never gets a worse status |
| `ClimateModels.SaveNdvi` | backend/climate/models.py:154-165 | saving sets the status derived from the NDVI value and changes nothing else |
| `ClimateModels.SaveNdviOverwritesStatus` | backend/climate/models.py:154-165 | whatever status a client supplied, the saved record is the same |
| `ClimateModels.LevelOf` | backend/climate/models.py:243-250 | bands with inclusive lower bounds: 75 critical, 50 high, 25 medium, low below |
| `ClimateModels.OverallLevel` | backend/climate/models.py:241-250 | critical iff some score is at least 75, low iff every score is below 25 |
| `ClimateModels.OverallLevelDependsOnlyOnMax` | backend/climate/models.py:241 | assessments with the same largest score get the same level |
| `ClimateModels.OverallLevelMonotone` | backend/climate/models.py:241-250 | raising any score never lowers the overall level |
| `ClimateModels.SaveRisk` | backend/climate/models.py:239-252 | saving sets the level derived from the scores and changes nothing else |
| `ClimateSerializers.IsForecast` | backend/climate/serializers.py:27-29 | a row is flagged as a forecast iff it has a forecast date; `ClimateViews.HistoryHasNoForecast` ties the flag to the risk history |
| `ClimateSerializers.ValidateNdviValue` | backend/climate/serializers.py:49-53 | NDVI is accepted iff it lies in -1..1, and is then returned unchanged |
| `ClimateSerializers.ValidateRiskScore` | backend/climate/serializers.py:100-103 | a score is accepted iff it lies in 0..100, and is then returned unchanged |
| `ClimateSerializers.CreateNdvi` | backend/climate/serializers.py:56-79 | a posted reading is stored iff it fits the column's 4 digits with 3 decimals and the user has a farm; no -1..1 check; it goes under the user's farm with the derived status; otherwise the precision or the farm-not-found refusal |
| `ClimateSerializers.CreateAcceptsOutOfRange` | backend/climate/serializers.py:56-62 | the create route stores 1.5 with an excellent status, while the detail route refuses it with the range message |
| `ClimateSerializers.CreateNdviChecked` | backend/climate/serializers.py:49-53 | the create route with the range check: every stored reading lies in -1..1, out-of-range values get the range message, and in-range values fare as in the create route |
| `ClimateSerializers.UpdateNdvi` | backend/climate/serializers.py:32-53 | an edit through the detail route is stored iff it fits the column and lies in -1..1 (precision checked first, then range), keeping the farm and deriving the status |
| `ClimateSerializers.WriteRisk` | backend/climate/serializers.py:100-113 | what the serializer's validators would do with a client's scores; no route offers this write (the assessment view only serializes output, the risk list is read-only): stored iff all three are in 0..100, with the derived level |
| `ClimateViews.DroughtRisk` | backend/climate/views.py:189-194 | the drought score lies in 0..100: at least 83 below 20 mm, 40..80 below 50 mm, at most 40 from 50 mm, 0 from 100 mm |
| `ClimateViews.FloodRisk` | backend/climate/views.py:197-202 | the flood score lies in 0..100: at least 70 above 200 mm, 40..70 in (150, 200], at most 40 up to 150 mm |
| `ClimateViews.TemperatureRisk` | backend/climate/views.py:205-210 | the temperature score is 20 iff the average lies in 10..35, and 60..100 outside |
| `ClimateViews.DroughtNonIncreasing` | backend/climate/views.py:189-194 | more rain never raises the drought score |
| `ClimateViews.FloodNonDecreasing` | backend/climate/views.py:197-202 | more rain never lowers the flood score |
| `ClimateViews.TemperatureRiskGrowsOutward` | backend/climate/views.py:205-208 | the temperature score only grows as the average moves away from the normal range |
| `ClimateViews.History` | backend/climate/views.py:176-181 | exactly the farm's historical observations from 30 days before today |
| `ClimateViews.NoCoordinatesNoHistory` | backend/climate/views.py:176-186 | a farm with a missing coordinate has no history and gets the default scores |
| `ClimateViews.HistoryHasNoForecast` | backend/climate/views.py:176-181 | every row the assessment reads is one the weather serializer flags as not a forecast, and no forecast row is ever read |
| `ClimateViews.ScoresFor` | backend/climate/views.py:184-218 | no history gives 30/20/25 with confidence 30; otherwise the three formulas on the averages, with confidence 75 |
| `ClimateViews.ScoresInRange` | backend/climate/views.py:184-218 | every score lies in 0..100 whatever the weather |
| `ClimateViews.Alarms` | backend/climate/views.py:222-230 | the number of scores above 50 is at most 3, and zero iff none exceeds 50 |
| `ClimateViews.Advice` | backend/climate/views.py:221-234 | two lines per score above 50, or the two default lines; so 2, 4 or 6 lines, and a score's lines appear iff it exceeds 50 |
| `ClimateViews.AdviceLinesUnbroken` | backend/climate/views.py:223-234 | no advice line contains a line break |
| `ClimateViews.AdviceRoundTrip` | backend/climate/views.py:246 | the stored newline-joined text splits back into the advice lines |
| `ClimateViews.AssessmentFor` | backend/climate/views.py:171-249 | the saved assessment covers today to today + days ahead, with the scores, advice and level derived from the history |
| `ClimateViews.AssessRisk` | backend/climate/views.py:163-251 | without a farm the request is a 404; otherwise the assessment is stored under the farm and today, replacing any earlier one |
| `ClimateViews.ReassessSameDay` | backend/climate/views.py:237-249 | assessing a farm twice on one day leaves one row, the second assessment |
| `ClimateDashboard.BandOf` | components/ClimateDashboard.tsx:35-40 | bands: emerald below 40, yellow below 60, orange below 80, red otherwise |
| `ClimateDashboard.RiskColor` | components/ClimateDashboard.tsx:35-40 | the text colour class of the score's band |
| `ClimateDashboard.RiskBg` | components/ClimateDashboard.tsx:42-47 | the background colour class of the score's band |
| `ClimateDashboard.ColorsAgree` | components/ClimateDashboard.tsx:35-47 | text and background use the same band for every score |
| `ClimateDashboard.BandMonotone` | components/ClimateDashboard.tsx:35-40 | a higher score never moves to a lower band |
| `ClimateDashboard.ImmediateAction` | components/ClimateDashboard.tsx:86-93 | planting is delayed iff the score exceeds 60; exactly 60 opens the planting window |
| `ClimateDashboard.GaugeOffset` | components/ClimateDashboard.tsx:191 | for a score in 0..100 the offset lies in 0..440; 0 at 100 and 440 at 0 |
| `ClimateDashboard.GaugeOffsetDecreasing` | components/ClimateDashboard.tsx:191 | a higher score never leaves a larger offset |
| `ClimateDashboard.TrendLabel` | components/ClimateDashboard.tsx:205 | increasing shows '↗️ Worsening', decreasing '↘️ Improving', anything else '→ Stable' |
| `ClimateDashboard.ShowsRain` | components/ClimateDashboard.tsx:307 | the rain icon shows iff the rain probability exceeds 50 |
| `ClimateDashboard.ShowsRainMonotone` | components/ClimateDashboard.tsx:307 | a wetter day never loses the rain cloud, and exactly 50 percent still shows the sun |
| `MarketSerializers.ValidatePricePerKg` | backend/market/serializers.py:21-25 | a price is accepted iff positive, and is then returned unchanged |
| `MarketSerializers.ValidateDate` | backend/market/serializers.py:27-31 | a date is accepted iff it is not after today |
| `MarketSerializers.ValidateTargetPrice` | backend/market/serializers.py:73-77 | a target price is accepted iff positive |
| `MarketSerializers.DaysAhead` | backend/market/serializers.py:110-113 | today plus the result is the forecast date; negative iff the date is past |
| `MarketSerializers.PricesFor` | backend/market/serializers.py:58-62 | exactly the prices of the alert's crop at its market |
| `MarketSerializers.CurrentPrice` | backend/market/serializers.py:56-71 | none iff the crop has no price at the market; otherwise a price there with no later-dated one |
| `MarketViews.Prices` | backend/market/views.py:132 | the price column of the series, position by position |
| `MarketViews.Chronological` | backend/market/views.py:124 | the series in date order is a permutation of it |
| `MarketViews.ChronologicalOrdersDates` | backend/market/views.py:124 | the dates of the ordered series never decrease |
| `MarketViews.SortRows` | backend/market/models.py:71 | a permutation of the rows in the default ordering: later date first, equal dates by crop name |
| `MarketViews.InsertRow` | backend/market/models.py:71 | inserting a row into ordered rows keeps them ordered and adds exactly that row |
| `MarketViews.NameOrderTotal` | backend/market/models.py:71 | any two crop names are ordered one way or the other |
| `MarketViews.QueryRows` | backend/market/views.py:78 | the crop query's rows come in the ordering `-date, crop` |
| `MarketViews.QueryRowsMembers` | backend/market/views.py:78 | the query has one row per priced (crop, date) pair and no other, because the default ordering's columns join the DISTINCT |
| `MarketViews.QueryCrops` | backend/market/views.py:78-80 | the loop's crops are the crop column of the query rows, position by position |
| `MarketViews.QueryCropsMembers` | backend/market/views.py:78-80 | the crops looped over are exactly the crops priced somewhere |
| `MarketViews.LatestPrices` | backend/market/views.py:74-90 | as written: one entry per query row, each the latest price of the row's crop at the market (national by default) |
| `MarketViews.LatestPricesRepeatsCrop` | backend/market/views.py:78-89 | a crop priced on two dates at the market is listed twice, both times with its later price |
| `MarketViews.QueryRowsOfRepricedCrop` | backend/market/views.py:78 | a crop priced on two dates gives two query rows, the later date first |
| `MarketViews.DistinctLatestPrices` | backend/market/views.py:74-90 | as intended: no crop listed twice, each entry the latest price of its crop at the market, and every crop priced there listed |
| `MarketViews.LatestPerCropSnoc` | backend/market/views.py:81-89 | one more crop adds its current price at the market, when it has one |
| `MarketViews.LatestPerCropAreLatest` | backend/market/views.py:81-88 | every listed price belongs to its crop at the market, with no later-dated price there |
| `MarketViews.LatestPerCropDistinct` | backend/market/views.py:81-88 | distinct crops give at most one price per crop |
| `MarketViews.LatestPerCropComplete` | backend/market/views.py:81-88 | every crop with a price at the market gets a listed price |
| `MarketViews.HalfMeans` | backend/market/views.py:138-140 | with one point both halves take the overall mean |
| `MarketViews.TrendOf` | backend/market/views.py:142-147 | rising iff the second half's mean is above 1.05 of the first's, falling iff below 0.95 of it otherwise, stable else |
| `MarketViews.SinglePointStable` | backend/market/views.py:138-147 | a single price is a stable trend |
| `MarketViews.ConstantPricesStable` | backend/market/views.py:138-147 | a constant series is stable |
| `MarketViews.InPeriod` | backend/market/views.py:116-124 | exactly the crop's prices at the market dated within the period |
| `MarketViews.PriceTrend` | backend/market/views.py:105-168 | the crop is required; no price is a 404; otherwise the report runs from today less the days (30 by default) to today, over the ordered series, with its mean, minimum, maximum, trend and point count |
| `MarketViews.PriceExtremes` | backend/market/views.py:149-150 | the minimum and maximum of a series are prices of it and bound every price in it |
| `MarketViews.TrendReportStatistics` | backend/market/views.py:132-165 | min ≤ average ≤ max, the point count equals the points, in date order, within the period |
| `MarketViews.Horizon` | backend/market/views.py:221 | the requested number of days (7 by default), capped at 30 |
| `MarketViews.ForecastConfidence` | backend/market/views.py:259 | max(100 - 3i, 50): 97 on day 1, never below 50, 50 from day 17 |
| `MarketViews.ConfidenceNonIncreasing` | backend/market/views.py:259 | confidence never rises with the day |
| `MarketViews.ForecastDays` | backend/market/views.py:252-264 | one forecast per day 1..horizon, dated that many days after today, with that day's confidence |
| `MarketViews.TrendFactor` | backend/market/views.py:243-248 | 1 with fewer than seven prices or a non-positive mean; otherwise the last seven's mean over the mean |
| `MarketViews.TrendFactorOfConstant` | backend/market/views.py:243-248 | constant prices give a trend factor of 1 |
| `MarketViews.Since` | backend/market/views.py:225-231 | exactly the crop's prices at the market dated from the start day on |
| `MarketViews.PriceForecast` | backend/market/views.py:213-275 | the crop is required; fewer than 3 points are refused; otherwise the mean, trend factor and one forecast per horizon day |
| `MarketViews.RecentAverage` | backend/market/views.py:330 | the mean of the last seven prices, or of all with fewer |
| `MarketViews.Decide` | backend/market/views.py:333-348 | wait iff the recent average exceeds 1.1 of the mean; high confidence iff not waiting and the current price is above 1.05 of the mean |
| `MarketViews.BestTimeToSell` | backend/market/views.py:289-358 | the crop is required; no current price is a 404; fewer than 3 points sell now with low confidence; otherwise the decision, with rising iff recent > mean |
| `MarketViews.WaitNeedsRisingPrices` | backend/market/views.py:330-334 | waiting needs seven or more prices and a recent average above the mean |
| `MarketViews.ChronologicalPricesPositive` | backend/market/views.py:328 | positive prices stay positive in the ordered price column |
| `FarmModels.SaveHarvest` | backend/farms/models.py:153-157 | with a truthy price and a non-zero quantity the value is their product; otherwise the value is kept; nothing else changes |
| `FarmModels.SaveHarvestIdempotent` | backend/farms/models.py:153-157 | saving twice stores the same record as saving once |
| `FarmModels.SavedValuePositive` | backend/farms/models.py:108-157 | a harvest the schema accepts with a positive price is saved with a positive value |
| `FarmModels.ExpensesOf` | backend/farms/models.py:75-79 | exactly the farm's expense records |
| `FarmModels.HarvestsOf` | backend/farms/models.py:70-72 | exactly the farm's harvest records |
| `FarmModels.TotalExpenses` | backend/farms/models.py:74-79 | the sum of the farm's amounts, 0.00 without expenses |
| `FarmModels.TotalHarvests` | backend/farms/models.py:69-72 | the count of the farm's harvests; zero iff none is the farm's |
| `FarmModels.TotalExpensesSnoc` | backend/farms/models.py:74-79 | one more expense adds its amount to its own farm's total and leaves other farms' totals unchanged |
| `FarmModels.TotalHarvestsSnoc` | backend/farms/models.py:69-72 | one more harvest adds one to its own farm's count and leaves other farms' counts unchanged |
| `FarmModels.TotalExpensesLowerBound` | backend/farms/models.py:182-188 | with the 0.01 minimum per expense the total is at least 0.01 per expense, and zero iff the farm has none |
| `FarmSerializers.ValidateCrops` | backend/farms/serializers.py:30-34 | crops are accepted iff they are a list, and are then returned unchanged |
| `FarmSerializers.ValidateSizeAcres` | backend/farms/serializers.py:36-40 | a size is accepted iff positive |
| `FarmSerializers.ValidateQuantityKg` | backend/farms/serializers.py:59-63 | a quantity is accepted iff positive |
| `FarmSerializers.ValidatePricePerKg` | backend/farms/serializers.py:65-69 | a missing price is accepted; a present one iff positive |
| `FarmSerializers.ValidateAmount` | backend/farms/serializers.py:117-121 | an amount is accepted iff positive |
| `FarmSerializers.UpdateHarvest` | backend/farms/serializers.py:43-58 | a client update sets every writable field, the farm included; the stored value is the derived one or the previous one, never a client's |
| `FarmSerializers.UpdateMovesHarvest` | backend/farms/serializers.py:51-57 | an update naming another farm takes the harvest out of its old farm's count and adds it to the named farm's |
| `FarmViews.RangeOf` | backend/farms/views.py:205-216 | date_to defaults to today, date_from to 30 days before date_to |
| `FarmViews.DefaultRange` | backend/farms/views.py:208-216 | with neither parameter the range ends today and starts 30 days earlier |
| `FarmViews.HarvestsIn` | backend/farms/views.py:219-223 | exactly the farm's harvests dated within the range |
| `FarmViews.ExpensesIn` | backend/farms/views.py:237-241 | exactly the farm's expenses dated within the range |
| `FarmViews.GrossProfit` | backend/farms/views.py:258 | profit plus expenses is the value |
| `FarmViews.ProfitMargin` | backend/farms/views.py:260-263 | margin times value is 100 times profit when the value is positive; 0 otherwise |
| `FarmViews.MarginBounds` | backend/farms/views.py:258-263 | with non-negative expenses the margin is at most 100, exactly 100 without expenses, negative when expenses exceed value |
| `FarmViews.CropTotals` | backend/farms/views.py:266-269 | there are as many rows as distinct harvested crops |
| `FarmViews.CropTotalsRows` | backend/farms/views.py:266-269 | every row is a harvested crop with its summed quantity and value, and every harvested crop has a row |
| `FarmViews.TopCrops` | backend/farms/views.py:266-278 | at most five rows |
| `FarmViews.TopCropsRanked` | backend/farms/views.py:266-278 | the top rows are crop totals in non-increasing quantity, no crop left out outranks a listed one, and all crops are listed when there are at most five |
| `FarmViews.ExpensesByCategory` | backend/farms/views.py:253-255 | one entry per category present, holding that category's summed amount |
| `FarmViews.CategoryTotalsAddUp` | backend/farms/views.py:244-255 | the category totals add up to the total expenses |
| `FarmViews.FarmAnalytics` | backend/farms/views.py:196-296 | no farm is a 404; otherwise the range, sums, counts, category totals, profit, margin and top crops of the farm's records in range |
| `Communication.ChoicesComplete` | backend/communication/models.py:13-32 | every notification type and priority is among the declared choices |
| `Communication.SmsText` | backend/communication/views.py:156 | the SMS text is the first min(160, length) characters of the message |
| `Communication.SendNotification` | backend/communication/views.py:131-177 | an SMS log is written and sent_via_sms set iff SMS was asked for and enabled, likewise for email; the logs hold the fallback phone, the trimmed text, the subject and body |
| `Communication.Opened` | backend/communication/views.py:91-94 | an unread notification becomes read at now; a read one is unchanged |
| `Communication.OpenedKeepsFirstReadTime` | backend/communication/views.py:91-94 | opening again keeps the first read time |
| `Communication.MarkedRead` | backend/communication/views.py:63-69 | the caller's rows among the ids become read at now; every other row is unchanged |
| `Communication.TargetCount` | backend/communication/views.py:63-73 | the reported count is the number of matched rows, zero iff none matched |
| `Communication.MarkReadSettles` | backend/communication/views.py:63-69 | after marking, every targeted row is read, the row count is kept, and marking again targets the same rows |
| `Communication.Inbox.Retrieve` | backend/communication/views.py:88-97 | retrieving an id of the caller returns it opened and stores the opened row; other rows stay |
| `Communication.Inbox.MarkRead` | backend/communication/views.py:57-75 | the stored rows become the marked rows and the count of matched rows is returned |
| `Communication.Mine` | backend/communication/views.py:215 | exactly the caller's notifications |
| `Communication.Unread` | backend/communication/views.py:216 | exactly the caller's unread notifications |
| `Communication.Recent` | backend/communication/views.py:233 | at most five of the caller's notifications |
| `Communication.NotificationSummary` | backend/communication/views.py:211-243 | the type and priority maps hold exactly the values with a non-zero count, each with its count; total and unread are counted |
| `Communication.SummaryAddsUp` | backend/communication/views.py:215-231 | unread ≤ total, and the type and the priority counts each add up to the total |
| `Communication.RecentAreNewest` | backend/communication/views.py:233 | the recent items are newest first and none left out is newer than one listed |
| `AgronomyViews.MockResponse` | backend/agronomy/views.py:74-87 | "maize" in any case wins; then pest or disease, then water or irrigation; any other query gets the default |
| `AgronomyViews.ResponseIgnoresContextAndCase` | backend/agronomy/views.py:74-80 | the answer depends neither on the context nor on the query's case |
| `AgronomyViews.ResponseIsCanned` | backend/agronomy/views.py:80-87 | the answer is one of the four fixed texts |
| `AgronomyViews.CleanField` | backend/agronomy/serializers.py:42-43 | a missing field takes its default or is required; a blank one is refused; otherwise it is trimmed |
| `AgronomyViews.Chat` | backend/agronomy/views.py:54-72 | the chat succeeds iff the query and context are valid, and stores exactly the caller, the query, its answer and the context |
| `GeminiService.Retry` | services/geminiService.ts:19-35 | at most retries + 1 calls, the waits doubling from the delay; every earlier call failed retryably; a failure means the retries ran out or the error was not retryable |
| `GeminiService.BackoffWaits` | services/geminiService.ts:29-31 | waiting the delay before a run that starts at twice the delay continues the doubling |
| `GeminiService.RetryWithBackoff` | services/geminiService.ts:19 | the defaults are three retries from a one-second wait |
| `GeminiService.DefaultBackoff` | services/geminiService.ts:19-31 | with the defaults at most four calls, the waits a prefix of 1000, 2000, 4000 |
| `GeminiService.NoRetriesNoSecondCall` | services/geminiService.ts:22-23 | with no retries left a failure is returned after the single call |
| `GeminiService.NotRetryableFailsFast` | services/geminiService.ts:26-34 | an error that is not retryable is returned at once, without waiting |
| `GeminiService.CleanJson` | services/geminiService.ts:38-40 | the result has no fence and no surrounding white space |
| `GeminiService.CleanJsonIdempotent` | services/geminiService.ts:38-40 | cleaning a cleaned reply changes nothing |
| `GeminiService.CleanJsonKeepsPlainJson` | services/geminiService.ts:38-40 | a reply without fences or surrounding white space is kept as it is |
| `GeminiService.CachedData` | services/geminiService.ts:43-49 | the wrapper's data only when the entry parsed and the data is truthy, else nothing |
| `GeminiService.ActivityHash` | services/geminiService.ts:63 | the list length followed by the first id, or '0' for an empty list |
| `GeminiService.EndsWithDay` | services/geminiService.ts:64 | among same-length dates, a key ending in a date determines the date |
| `GeminiService.KeysSeparateDays` | services/geminiService.ts:62-64 | every cache key embeds its day: keys of one kind built on different days differ |
| `GeminiService.FromCacheOrFetch` | services/geminiService.ts:174-177 | the cached value unless a refresh is forced, otherwise the fetched one, then the fallback |
| `GeminiService.ForcedRefreshIgnoresCache` | services/geminiService.ts:174-177 | a forced refresh does not read the cache, and a request with a fallback never fails |
| `GeminiService.OverviewFallback` | services/geminiService.ts:163-166 | one row per requested crop, in order, at price 0 and stable |
| `GeminiService.OverviewNeverFails` | services/geminiService.ts:134-166 | the overview is the cached rows, the fetched rows or the fallback, and never a failure |
| `GeminiService.JournalInsight` | services/geminiService.ts:66-94 | the cached text, else the reply's text or the default, else the offline text; never empty |
| `Translations.ColumnOf` | utils/translations.ts:68 | sw, ki, luo and luy read the Swahili column; en, kal and maa the English one |
| `Translations.T` | utils/translations.ts:65-74 | a non-empty entry in the chosen column wins, then the English entry, then the key itself |
| `Translations.NeverEmpty` | utils/translations.ts:70-73 | the text is never empty for a non-empty key |
| `Translations.SameColumnSameText` | utils/translations.ts:68-73 | languages sharing a column read the same text |
| `Translations.DialectsCollapse` | utils/translations.ts:68 | the dialects read exactly what Swahili reads |
| `Translations.EnglishReadsEnglish` | utils/translations.ts:70-73 | English reads the English entry, or the key when the entry is missing or empty |
| `SharedUtils.ResizedSize` | utils/sharedUtils.ts:11-13 | the width is at most the maximum and the original; a narrow image keeps its size; a wide one gets the maximum width and proportional height |
| `SharedUtils.ResizeKeepsAspect` | utils/sharedUtils.ts:11-13 | the resized image keeps the aspect ratio |
| `SharedUtils.SafeJsonParse` | utils/sharedUtils.ts:33-41 | the fallback for a missing or empty item or a failed parse; otherwise the parsed value |
| `Domain.Code` | types.ts:3 | every language code has two or three letters |
| `Domain.CodesDistinct` | types.ts:3 | different languages have different codes |
| `AppState.AddNotification` | App.tsx:190-193 | the new unread notification goes first, followed by the previous ones, keeping at most 50 |
| `AppState.AddNotificationNewestFirst` | App.tsx:190-192 | a list kept newest first stays newest first |
| `AppState.UnreadCount` | App.tsx:311 | the badge counts the unread items; zero iff all are read |
| `AppState.AddNotificationRaisesBadge` | App.tsx:190-192 | below the cap a new notification raises the badge by one |
| `AppState.ShowToast` | App.tsx:195-202 | the toast is appended; success and error toasts also add a notification (activity and alert), info toasts do not |
| `AppState.RemoveToast` | App.tsx:204 | exactly the toasts with another id remain |
| `AppState.ShowThenRemove` | App.tsx:195-204 | dismissing a toast just shown restores the toast list |
| `AppState.ToggleReminder` | App.tsx:262 | completed flips on the reminders with the id; the rest are unchanged |
| `AppState.ToggleTwiceRestores` | App.tsx:262 | toggling twice restores the list |
| `AppState.DeleteReminder` | App.tsx:262 | exactly the reminders with another id remain |
| `AppState.DeleteActivity` | App.tsx:220 | exactly the journal entries with another id remain |
| `AppState.DeleteAbsentKeepsAll` | App.tsx:220 | deleting an id that is absent changes nothing |
| `AppState.AddActivity` | App.tsx:220 | the new entry goes first and is announced as a journal entry |
| `AppState.AddReminders` | App.tsx:220 | planned tasks go before the existing reminders, announced with their number |
| `AppState.UpdateUsers` | App.tsx:107-109 | only the stored users with the profile's id are replaced; the length is kept |
| `AppState.UpdateUsersIdempotent` | App.tsx:107-109 | saving the same profile twice stores what saving once stores |
| `AppState.LoggingAddsToTotals` | App.tsx:210-221 | a logged harvest raises the revenue by its value (nothing without one); a logged expense raises the expenses by its amount |
| `AppState.TotalsNonNegative` | App.tsx:210-211 | with no negative values neither total is negative |
| `AgronomyChat.ToggleBookmark` | components/AgronomyChat.tsx:231-241 | a present id is removed entirely with an info toast; an absent one is appended with a success toast; other ids are untouched |
| `AgronomyChat.ToggleBookmarkTwice` | components/AgronomyChat.tsx:233-241 | saving an article and then removing it restores the library |
| `AgronomyChat.QuickChips` | components/AgronomyChat.tsx:105-109 | four chips in every language; the English ones for every language but sw and ki |
| `AgronomyChat.WithWelcome` | components/AgronomyChat.tsx:66-78 | an empty history gets the welcome message; a history with messages is unchanged |
| `AgronomyChat.WelcomeOnce` | components/AgronomyChat.tsx:66-78 | the welcome is added once: applying the rule again changes nothing |
| `AgronomyChat.NoCommaNoPayload` | components/AgronomyChat.tsx:154 | a URL without a comma has no payload |
| `AgronomyChat.PayloadOfDataUrl` | components/AgronomyChat.tsx:154 | for header + "," + data without other commas the payload is the data |
| `AgronomyChat.ImagePayload` | components/AgronomyChat.tsx:154 | a data URL has a payload iff it contains a comma |
| `AgronomyChat.ImageUnblocksBlankSend` | components/AgronomyChat.tsx:140 | a selected image lets a blank message through unless a reply is loading; loading blocks every send; without an image a send is blocked iff the text is blank |
| `AgronomyChat.HandleSend` | components/AgronomyChat.tsx:138-156 | blocked iff loading, or the text is blank with no image, and then nothing changes; otherwise the user's message is appended, the input and image cleared, loading set, and the request carries the text (or the diagnose prompt) and the payload |
| `AgronomyChat.NoSendWhileLoading` | components/AgronomyChat.tsx:140 | a send while loading changes nothing |
| `AgronomyChat.ReplyArrived` | components/AgronomyChat.tsx:165-189 | the reply, or the apology on failure, is appended, loading is cleared, and a failure raises the error toast |
| `FarmJournal.SortedActivities` | components/FarmJournal.tsx:88 | the timeline is a permutation of the activities |
| `FarmJournal.TimelineOrdered` | components/FarmJournal.tsx:88 | the timeline holds exactly the activities, latest date first |
| `FarmJournal.Optional` | components/FarmJournal.tsx:40-42 | an empty text is absent; any other is kept |
| `FarmJournal.OptionalRoundTrip` | components/FarmJournal.tsx:40-42 | reading an optional field back with the empty default gives the typed text |
| `FarmJournal.Submit` | components/FarmJournal.tsx:34-47 | the new activity has the clock id, the form's type, date and details, and quantity and notes that read back as typed (absent iff empty); the form closes with details, quantity and notes cleared and type and date kept; the translated save_entry text shows as a success toast |
| `FarmJournal.ResubmitCarriesOnlyTypeAndDate` | components/FarmJournal.tsx:34-47 | submitting again straight away records the same type and date with empty details and no quantity or notes |
| `FarmJournal.RemindersFor` | components/FarmJournal.tsx:55-61 | one open Task reminder per task, with its text and date |
| `FarmJournal.PlanSchedule` | components/FarmJournal.tsx:50-71 | reminders are handed on iff tasks came back and a callback exists, with the success toast; otherwise the matching error toast |
| `FarmProfile.HandleChange` | components/FarmProfile.tsx:23-26 | only the named field changes, to the new value, and the saved mark is cleared |
| `FarmProfile.ChangeBackRestoresFields` | components/FarmProfile.tsx:23-26 | changing a field back restores every field |
| `FarmProfile.ToggleCrop` | components/FarmProfile.tsx:28-35 | an absent crop is appended, a present one removed, other crops untouched, the saved mark cleared |
| `FarmProfile.ToggleCropProperties` | components/FarmProfile.tsx:30-33 | toggling twice from absent restores the list; removing a crop listed once keeps the others in order |
| `FarmProfile.SyncProfile` | components/FarmProfile.tsx:19-21 | a new profile from the parent replaces the form's copy |
| `FarmProfile.SyncOverridesEdits` | components/FarmProfile.tsx:19-26 | a sync discards earlier edits, a repeated sync changes nothing, and saving right after a sync hands the parent its own profile |
| `FarmProfile.PhotoUploaded` | components/FarmProfile.tsx:43-45 | the resized photo becomes the profile image and the saved mark is cleared |
| `FarmProfile.PhotoThenSubmit` | components/FarmProfile.tsx:43-57 | uploading a photo and saving hands the parent the profile with only the image changed, and the form shows the saved mark |
| `FarmProfile.Submit` | components/FarmProfile.tsx:54-57 | saving hands the form's copy to the parent and sets the saved mark |
| `FarmProfile.SubmitAfterEdits` | components/FarmProfile.tsx:23-57 | saving after an edit hands the edited value; any edit, crop toggle or photo after a save clears the mark; saving twice hands the same profile |
| `TourGuide.Tour.constructor` | components/TourGuide.tsx:14-16 | a tour starts at the first step, unmeasured, with no finish call |
| `TourGuide.Tour.HandleNext` | components/TourGuide.tsx:47-53 | before the last step the index advances; on it (or with no steps) onFinish is called and the index stays; the index stays within the steps |
| `TourGuide.Tour.Close` | components/TourGuide.tsx:98 | the close button calls onFinish from any step |
| `TourGuide.Tour.Measured` | components/TourGuide.tsx:18-41 | a position is measured only while the tour runs and has a step, and is then kept |
| `TourGuide.Tour.Shown` | components/TourGuide.tsx:43-45 | the card shows the current step iff the tour runs and a position was measured |
| `TourGuide.Tour.Counter` | components/TourGuide.tsx:103 | the counter reads index + 1 over the step count, within 1..count |
| `TourGuide.Tour.ButtonText` | components/TourGuide.tsx:108 | the button reads the finish text iff on the last step, the next text otherwise; never empty |
| `TourGuide.PressNext` | components/TourGuide.tsx:47-53 | n presses from the start reach step min(n, last), and each press past the last step calls onFinish once |
| `AuthScreen.Find` | components/AuthScreen.tsx:35 | the first stored user matching the email (ignoring case) and the password, or none, or the stored user without an email the search throws on |
| `AuthScreen.HandleLogin` | components/AuthScreen.tsx:24-55 | the first matching user signs in; failing that the demo account for its exact credentials; otherwise the error |
| `AuthScreen.FindIgnoresEmailCase` | components/AuthScreen.tsx:35 | the search reads the typed email only through its lower-case form |
| `AuthScreen.SignedInMeansMatched` | components/AuthScreen.tsx:35-49 | a signed-in profile is a stored user matching the credentials, or the demo account for its exact credentials |
| `AuthScreen.EmptyStoreOnlyDemo` | components/AuthScreen.tsx:39-53 | with no stored users only the demo credentials sign in |
| `AuthScreen.NewUser` | components/AuthScreen.tsx:69-78 | the new user has the clock id, the typed fields, Nairobi by default, one acre of loam and maize |
| `AuthScreen.UserStore.Register` | components/AuthScreen.tsx:57-91 | any empty email, password or name is refused and nothing is stored; otherwise the user is appended, with no duplicate check, and its data slots set to empty lists |
| `AuthScreen.FindSnoc` | components/AuthScreen.tsx:35 | appending a user leaves a finished search alone, and otherwise decides it |
| `AuthScreen.RegisteredUserCanLogIn` | components/AuthScreen.tsx:35-83 | after registration the credentials sign in (typed in any case), as the new user or an earlier match |
| `AuthScreen.ToggleLanguage` | components/AuthScreen.tsx:108 | the language button turns Swahili to English and anything else to Swahili |

## Left out

- Browser audio is not modelled: capture, the PCM codec, the live connection and its promises. A decoded chunk is a duration of at least 0, and the 500 ms restart timer is left out.
- AI model calls and prompt text are not modelled. Replies and failures are parameters.
- Timers are not modelled: the 600 ms login delay, toast auto-dismissal, the tour's 500 ms re-measure and the profile's saved-mark reset.
- Storage writes are not modelled (localStorage, setCachedData). Reads are parameters, and the login-restore effect in App.tsx is out.
- Canvas drawing in the image resize is not modelled. Only the width/height rule is, over naturals, so canvas truncation of a fractional height is not captured.
- ORM persistence is not modelled. Querysets are sequences of rows, and database ordering of equal keys is not modelled.
- The per-category SQL GROUP BY is modelled as a loop over the rows.
- `update_or_create` is a map keyed by farm and date.
- The predicted forecast price is left out. `avg × trend_factor ** (0.9 ** i)` has no exact real counterpart, so the horizon, dates, confidence and trend factor are modelled around it.
- Output rounding (`round(x, 2)`, `float()`) is not modelled. NaN and infinities cannot occur with exact reals.
- Date parsing is not modelled. Malformed `strptime` input and invalid journal dates, which JavaScript would sort as NaN, are out.
- Text handling is ASCII-sized. Unicode lower-casing and JavaScript's full set of white-space characters are out, and Python's code-point slicing of the SMS text is character slicing.
- Schema-only files, list views, preference views, admin pages, URL routing, JWT and email flows, and the seed-data commands are not modelled.
- Insurance statistics and premium payment are left out.
- The chat's switch from the doctor tab to the chat tab on send is left out, and so is the chat history's storage quota toast.
- `InsuranceModels`: the field validators (coverage ≥ 1000, premium ≥ 100, payout percentage and confidence in 0..100) are predicates used as preconditions and in `ClaimFor` and `RecommendationTerms`. The schema does not enforce them on every write.
- `VoiceAssistant.VoiceSession` methods state the queue and status rules. The audio graph behind them is not modelled.
- `VoiceAssistant.CallEffects` and `VoiceAssistant.DispatchToolCalls` take one climate value and one insurance value for a whole message. The client refetches per call; with services that answer the same within one message the effects coincide, and a service whose answer changes between calls is not modelled.
- `ClimateSerializers.UpdateNdvi` keeps the reading's farm. The detail serializer leaves farm_profile writable, so an edit that moves a reading to another farm is not modelled.
- `ClimateSerializers.CreateNdvi` and `UpdateNdvi` report a precision failure as one refusal. Django REST framework's three precision messages and the source and cloud-cover field checks are not modelled.
- `MarketViews.SortRows` orders equal dates by code point. The database's collation of crop names is not modelled.
- `AuthScreen.Find`: a stored user without an email makes JavaScript's `toLowerCase` throw. This is modelled as a result that leaves the spinner on; the thrown error itself is not modelled.
- `FarmSerializers.UpdateHarvest` models a full update. A partial update that leaves fields out, and the quantity and price validators on that route, are not modelled there; they are `ValidateQuantityKg` and `ValidatePricePerKg`.
- `FarmJournal.PlanSchedule`: the schedule generator catches its own errors and returns an empty list, so in the application a generator failure arrives as an empty success. The Failure branch models the component's own catch.
- `AuthScreen.UserStore.Register` does not model the JSON round trip of the stored list. The list is kept as values.

## Findings

| source | as written | input that shows it | evidently intended | confidence | as-written member | corrected member |
|---|---|---|---|---|---|---|
| backend/insurance/views.py:159 | the claim number is `CLM` + today's date + the policy id, while claim_number is unique (backend/insurance/models.py:171) | a valid policy with two unfired rainfall-deficit triggers, thresholds 10 and 20, and one day of 5 mm rain: both fire in one evaluation and both claims get the same number, so the second insert violates the unique constraint | one distinct claim number per fired trigger | not executed | `InsuranceViews.AsWrittenClaimNumbersCollide` | `InsuranceViews.ClaimNumbersDistinct` |
| backend/market/views.py:78 | `values_list('crop', flat=True).distinct()` runs under the default ordering `-date, crop` (backend/market/models.py:71), so the ordering's columns join the DISTINCT and the query yields one row per (crop, date) | one Maize price at the national market on day 1 and one on day 2: the response lists the day-2 price twice | one entry per distinct crop | not executed | `MarketViews.LatestPricesRepeatsCrop` | `MarketViews.DistinctLatestPrices` |
| backend/climate/serializers.py:56-62 | the POST route's create serializer (backend/climate/views.py:132-134) has no -1..1 check; only the detail serializer's validate_ndvi_value has one | posting an NDVI value of 1.5: it fits the column and is stored with an excellent status | every stored NDVI value lies in -1..1, as the column's help text says | not executed | `ClimateSerializers.CreateAcceptsOutOfRange` | `ClimateSerializers.CreateNdviChecked` |
