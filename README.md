# Vehicle telemetry rules engine and prediction monitor, in Dafny

This project models the decision logic of a browser demo for vehicle
tracking. The demo maps one telemetry observation (speed, position, heading,
vehicle type, weather, hour of day) to canned "model" outputs. These are a
status label, a predicted speed, an emergency flag, a weather-adjusted speed
and a cluster. No learned parameters are involved: every rule is a fixed
threshold ladder or a closed formula.

There are two rule sets, and they are kept apart because their thresholds
conflict:

- the **detailed rules** of the `VehicleMLPredictor` class
  (`models/predictions.js`), module `DetailedRules`;
- the **simple rules** used by the basic UI (`assets/js/models.js`),
  module `BasicRules`.

The **prediction monitor** `ModelMonitor` (`models/monitoring.js`), module
`Monitoring`, is an append-only log with three metrics. The metrics are
recomputed from the whole log after every append.

Files:

- `telemetry.dfy` (`Telemetry`): the feature record, vehicle and weather
  types, and the status labels.
- `js_math.dfy` (`JsMath`): the JavaScript number operations the rules use.
  These are `Math.round`, the numeric value of `toFixed(1)`, and `%` with
  divisor 90.
- `arith.dfy` (`Arith`): small facts about products and quotients of reals,
  used by the proofs.
- `predictions.dfy` (`DetailedRules`), `basic_models.dfy` (`BasicRules`),
  `monitoring.dfy` (`Monitoring`).
- `variants.dfy` (`RuleVariants`): where the two rule sets agree, and inputs
  on which they conflict.

Modelling choices:

- Speeds, factors and confidences are exact `real`s. The emergency score is
  kept in integer tenths (0..10), and a record is an emergency iff the score
  is above 5.
- The wall clock is a parameter. `new Date().getHours()` in the emergency
  rule becomes `clockHour`. `new Date().toISOString()` in the monitor becomes
  `now`.
- The `vehicle_type` and `weather_type` strings become small datatypes. Any
  string the rules do not test for, or a missing field, maps to
  `OtherVehicle` / `OtherWeather`.
- The detailed predictor is a class only in name: its two fields are never
  read by the rules. Its rules are therefore pure functions. `batchPredict`
  loops and appends, so it is a method with a loop invariant.
- The monitor is a class. Its log is a `seq` field and its metrics are
  fields. `Valid()` ties the metrics to functions of the log.

In four places the code behaves differently from what a reader might
expect, and the model follows the code:

- **Downtown box.** The box starts at 37.77 N, so a land vehicle at
  37.75 N is outside it. At 37.75 N the code predicts 45.0 km/h, and at
  37.78 N it predicts 31.5 km/h (`DetailedRules.MiddaySpeedExamples`).
- **Unknown model type in a batch.** `batchPredict` raises no error for a
  model type it does not know. It returns one entry per record, each with an
  undefined output.
- **Zero confidence.** The average confidence skips entries without a
  confidence field. It also skips a confidence of 0, because 0 is falsy.
- **Negative speeds.** Nothing rejects a negative speed. The code tests
  `speed < 5` and `speed < 50`, so a boat with a negative speed is `at_stop`
  and an airplane with a negative speed is `on_ground`.

## Model

| member | source | states |
|---|---|---|
| `JsMath.Round` | models/predictions.js:178 | `Math.round` returns the integer within one half of its argument, rounding halves up |
| `JsMath.RoundTenth` | models/predictions.js:116 | `Math.round(x*10)/10` is within 0.05 of `x` and has exactly one decimal |
| `JsMath.RoundHundredth` | models/predictions.js:179 | `Math.round(x*100)/100` is the whole number of hundredths within 0.005 of `x` |
| `JsMath.ToFixed1` | assets/js/models.js:35 | the number `toFixed(1)` prints is a whole number of tenths within 0.05 of its argument, and keeps its sign |
| `JsMath.Rem90` | models/predictions.js:138 | `heading % 90` has the sign of the heading, its magnitude is below 90, it differs from the heading by a whole multiple of 90, and it is 0 exactly for whole multiples of 90 |
| `DetailedRules.StatusLadder` | models/predictions.js:38-72 | each branch of the ladder attaches the fixed confidence of its label |
| `DetailedRules.PredictStatus` | models/predictions.js:29-84 | each label as an order-independent condition: `parked` iff speed is 0; `in_flight` iff an airplane above 200; `on_ground` iff an airplane below 50 (non-zero); `cruising_route` iff a boat in (10,40); `at_stop` iff a boat below 5 (non-zero); `responding`/`en_route`/`in_service`/`stopped` iff a land vehicle above 70 / in (40,70] / in (10,40] / in (0,10]; confidence is the label's confidence times 0.95 in heavy rain or fog, always in [0, 0.98]; `features_used` is the record's key list |
| `DetailedRules.StatusUnknownCases` | models/predictions.js:38-72 | `unknown` occurs exactly for an airplane at 50..200, a boat at 5..10 or ≥ 40, a land vehicle below 0, or another type with non-zero speed; and exactly when the confidence is 0 |
| `DetailedRules.WeatherKeepsStatusLabel` | models/predictions.js:74-77 | the weather adjustment never changes the label and only scales the confidence by 0.95 for heavy rain and fog |
| `DetailedRules.TimeFactor` | models/predictions.js:100-107 | the factor is 0.8 exactly in rush hours (7–9, 17–19), 1.1 exactly at night (≥ 22 or ≤ 5), otherwise 1.0 |
| `DetailedRules.LocationFactor` | models/predictions.js:237-248 | 0.7 exactly inside the downtown box; 1.2 exactly when latitude < 37.72 or > 37.82, since the box lies inside that band the check order does not matter; otherwise 1.0 |
| `DetailedRules.PredictSpeed` | models/predictions.js:87-120 | the prediction is the base × weather × wind × time × location product rounded to one decimal (within 0.05); rmse 25.49 and r² 0.8221 are fixed |
| `DetailedRules.RawSpeedBounds` | models/predictions.js:92-113 | for intensity in [0,1] and wind in [0,100], the unrounded speed lies in [0, 1.32 × base] |
| `DetailedRules.SpeedBounds` | models/predictions.js:112-116 | under the same conditions the reported, rounded speed also lies in [0, 1.32 × base] |
| `DetailedRules.MiddaySpeedExamples` | models/predictions.js:92-116 | a calm midday land trip gives 45.0 km/h at 37.75 N and 31.5 km/h inside the downtown box |
| `DetailedRules.SpeedScore` | models/predictions.js:130-132 | the speed part of the score is exactly one of 0.6 / 0.4 / 0.2 / 0 for speed > 80 / in (60,80] / in (50,60] / ≤ 50 |
| `DetailedRules.EmergencyScore` | models/predictions.js:127-142 | the additive score lies between its speed part and 1.0 |
| `DetailedRules.PredictEmergency` | models/predictions.js:123-153 | prediction is 1 iff the score exceeds 0.5, otherwise 0; status is EMERGENCY iff prediction is 1; the probability is the score; confidence is exactly min(0.99, 2·abs(score − 0.5)), so it lies in [0, 0.99] and is 0 iff the score is 0.5; any speed above 80 is an emergency; a speed ≤ 50, or ≤ 60 without the high-speed flag, never is |
| `DetailedRules.FastDaytimeEmergencyExample` | models/predictions.js:127-152 | 85 km/h, heading 90, 2 pm, no flag: score 0.6, EMERGENCY, confidence 0.2 |
| `DetailedRules.HazardLevelOf` | models/predictions.js:167-172 | SEVERE iff hazard > 60, HIGH iff in (40,60], MODERATE iff in (20,40], LOW iff ≤ 20 |
| `DetailedRules.AdjustedSpeed` | models/predictions.js:164 | the adjusted speed is at least 5, at least the reduced speed, and for a non-negative reduction at most max(5, current speed) |
| `DetailedRules.RoundedAdjustedSpeedBounds` | models/predictions.js:175 | the reported adjusted speed still satisfies both bounds after rounding to one decimal |
| `DetailedRules.PredictWeatherImpact` | models/predictions.js:156-181 | the adjusted speed is max(5, current − 15 × impact) rounded to one decimal (a whole number of tenths within 0.05), hence ≥ 5 and, for a non-negative impact, ≤ max(5, current) rounded; the reduction is 15 × impact rounded to one decimal; the hazard score is 100 × impact rounded to an integer and the impact score is the impact rounded to two decimals; the hazard level is the band of 100 × impact |
| `DetailedRules.SevereWeatherExample` | models/predictions.js:156-181 | intensity 0.8, opacity 0.9, wind 25, speed 50: adjusted 39.2, reduction 10.8, SEVERE, hazard 72, impact 0.72 |
| `DetailedRules.ClusterOf` | models/predictions.js:196-211 | cluster 2 iff speed > 200, else 0 iff longitude < −122.43, else 1 |
| `DetailedRules.PredictCluster` | models/predictions.js:184-234 | the cluster id is the selection above; the squared distance to that cluster's fixed centre (speed scaled by 1/100) is non-negative and 0 at the centre; silhouette 0.4767 |
| `DetailedRules.Predict` | models/predictions.js:255-271 | each of the five model names selects its rule; any other name gives an undefined output |
| `DetailedRules.BatchPredict` | models/predictions.js:251-275 | one entry per record, same length and order, each entry's input is the record and its output the selected rule's; an unrecognised model type fails nothing and leaves every output undefined |
| `BasicRules.PredictStatusModel` | assets/js/models.js:2-26 | the ladder is total over six labels, never `unknown`; `parked` iff speed 0 (confidence 0.95); `in_flight` iff an airplane above 200; `cruising_route` iff a boat in (10,40); otherwise `responding` iff > 60, `in_service` iff < 30, `en_route` iff in [30,60]; confidence in [0.72, 0.98] |
| `BasicRules.StatusIgnoresVehicleType` | assets/js/models.js:8-22 | outside the airplane-above-200 and boat-in-(10,40) cases, the vehicle type does not affect the result |
| `BasicRules.PredictSpeedModel` | assets/js/models.js:29-44 | base 45 for every vehicle, time factor 1.1 for 7 ≤ hour ≤ 19 and 0.9 otherwise, and the printed speed is the whole number of tenths within 0.05 of the product of the reported factors |
| `BasicRules.SpeedModelBounds` | assets/js/models.js:30-35 | for intensity in [0,1] and wind in [0,100], the printed speed lies in [0, 49.5] |
| `BasicRules.PredictEmergencyModel` | assets/js/models.js:47-52 | emergency iff speed > 70, confidence 0.92 if flagged and 0.88 otherwise |
| `BasicRules.AdjustedSpeedBounds` | assets/js/models.js:58 | the printed `max(5, current − reduction)` is ≥ 5 and, for a non-negative reduction, at most the printed max(5, current) |
| `BasicRules.PredictWeatherImpactModel` | assets/js/models.js:55-67 | impact = intensity × opacity × wind, not normalised; reduction and hazard score are 10× and 50× the impact printed to one decimal; the adjusted speed is max(5, current − printed reduction) printed to one decimal, hence never below 5 and, for a non-negative impact, at most the printed max(5, current) |
| `BasicRules.PredictClusterModel` | assets/js/models.js:70-88 | the id is in {0,1,2}: 2 iff speed > 200, else 0 iff longitude < −122.43, else 1 |
| `RuleVariants.ClusterVariantsAgree` | assets/js/models.js:73-85 | the simple and the detailed cluster selection agree on every input |
| `RuleVariants.VariantsAgreeOnExtremes` | assets/js/models.js:5-7 | both variants call speed 0 parked (0.95 in clear weather) and flag every speed above 80 as an emergency |
| `RuleVariants.EmergencyVariantsConflict` | assets/js/models.js:48 | at 75 km/h, heading 90, 2 pm, without the flag, the simple rule flags an emergency and the detailed one does not |
| `RuleVariants.StatusVariantsConflict` | assets/js/models.js:14-23 | a land vehicle at 65 is `responding` (simple) but `en_route` (detailed); a boat at 45 is `en_route` (simple) but `unknown` (detailed) |
| `Monitoring.DetectionCount` | models/monitoring.js:25-27 | the number of emergency-model entries whose prediction is the number 1; never above the log length, and 0 iff there are none |
| `Monitoring.ConfidenceCount` | models/monitoring.js:29-31 | the number of entries with a truthy confidence, never above the log length |
| `Monitoring.MeanConfidence` | models/monitoring.js:33-35 | 0 when no entry has a truthy confidence, otherwise the mean: the value times the count equals the sum of those confidences |
| `Monitoring.DetectionCountAppend` | models/monitoring.js:25-27 | appending one entry raises the detection count by one exactly when that entry is a detection |
| `Monitoring.ConfidenceAppend` | models/monitoring.js:29-35 | appending one entry adds its confidence to the sum, and one to the count, exactly when it is truthy; confidences that are 0 or missing enter neither |
| `Monitoring.ConfidenceSumBounds` | models/monitoring.js:29-34 | with every confidence in [0,1], the sum of the truthy ones lies in [0, count] |
| `Monitoring.MeanConfidenceInUnitRange` | models/monitoring.js:33-35 | with every logged confidence in [0,1], `avg_confidence` lies in [0,1] |
| `Monitoring.LoggedEmergencyPrediction` | models/monitoring.js:25-30 | a detailed emergency prediction logged as `emergency` counts as a detection iff it reports EMERGENCY, and enters the mean iff its score is not exactly 0.5 |
| `Monitoring.ModelMonitor.constructor` | models/monitoring.js:3-10 | a fresh monitor has an empty log and all three metrics 0 |
| `Monitoring.ModelMonitor.LogPrediction` | models/monitoring.js:12-21 | appends exactly one entry at the end, leaving earlier ones unchanged; its timestamp is the supplied one if non-empty, otherwise `now`; afterwards the metrics are those of the new log, the total is the old length + 1, and the detection count rises by one exactly for an emergency prediction of 1 |
| `Monitoring.ModelMonitor.UpdateMetrics` | models/monitoring.js:23-36 | leaves the log as it is and sets total, detections and mean confidence to the functions of the log |
| `Monitoring.ModelMonitor.ExportMetrics` | models/monitoring.js:38-44 | read-only: reports the three metrics of the log (detections ≤ total), `last_updated` = `now`, and the last min(10, n) entries in insertion order |

## Left out

- `loadModels` (models/predictions.js:9-26) fetches JSON weights over the network, and the rules never read them. It is not modelled, and neither are the predictor's unused `models` and `featureScalers` fields.
- Floating point: every formula is computed on exact reals. IEEE-754 artefacts in the last digit are not modelled, for example the emergency confidence 0.19999999999999996 instead of 0.2. Neither are NaN, infinities, `parseFloat`, or JavaScript's string-to-number coercion.
- `toFixed(1)` is modelled by the number its string denotes, rounding a tie away from zero on the exact value. The string itself is not modelled, and neither is rounding of the double's binary expansion.
- `DetailedRules.PredictCluster`: `distance_to_center` is the square root of the modelled squared distance, rounded to three decimals. The square root and that rounding are not modelled. The cluster name and pattern strings are copied, not proved.
- `DetailedRules.PredictCluster`: does not state that the squared distance is 0 only at the centre.
- Missing numeric fields (`undefined`) are not modelled: every numeric field of the feature record is present. Missing `vehicle_type` and `weather_type` are modelled as `OtherVehicle` and `OtherWeather`.
- `DetailedRules.BatchPredict`: one clock hour serves the whole batch, whereas the source reads the clock once per emergency prediction. The method is synchronous, whereas the source is `async` and returns a promise.
- `Monitoring.ModelMonitor.LogPrediction`: the timestamp's falsy values are modelled as the empty string only. An output with no object behind it (undefined) is not modelled; the source would throw a `TypeError` when computing the metrics.
- The unused locals of `predictStatus` (`lat_long_interaction`, `is_moving`, `speed_normalized`) affect no result and are not modelled.
- `Object.keys(features)` is modelled as the key list the caller supplies with the record.
- The DOM, chart, tab, session and timer code in assets/js/app.js, charts.js, auth.js and utils.js is not part of this model. The inline rules in app.js repeat those of assets/js/models.js, which are modelled once.
