/** The detailed rules engine (`VehicleMLPredictor`): five stateless rules that
    map one feature record to a canned prediction, a location-factor helper and
    a batch operation that applies one rule to a list of records.
    The wall clock read by the emergency rule is the parameter `clockHour`. */
module DetailedRules {
  import opened Telemetry
  import JsMath
  import Arith

  /*************************************************************************
   * Status classification
   *************************************************************************/

  datatype StatusResult = StatusResult(prediction: Status, confidence: real, featuresUsed: seq<string>)

  /** The confidence the decision ladder attaches to each label, before the
      weather adjustment. */
  function LabelConfidence(s: Status): real
  {
    match s
    case Parked => 0.95
    case InFlight => 0.98
    case OnGround => 0.92
    case CruisingRoute => 0.87
    case AtStop => 0.82
    case Responding => 0.75
    case EnRoute => 0.79
    case InService => 0.83
    case Stopped => 0.77
    case Unknown => 0.0
  }

  /** The first-match decision ladder over speed and vehicle type; the label
      and its confidence are set together in each branch. */
  function StatusLadder(speed: real, vehicle: VehicleType): (r: (Status, real))
    ensures r.1 == LabelConfidence(r.0)
  {
    if speed == 0.0 then (Parked, 0.95)
    else if vehicle == Airplane && speed > 200.0 then (InFlight, 0.98)
    else if vehicle == Airplane && speed < 50.0 then (OnGround, 0.92)
    else if vehicle == Boat then
      if speed > 10.0 && speed < 40.0 then (CruisingRoute, 0.87)
      else if speed < 5.0 then (AtStop, 0.82)
      else (Unknown, 0.0)
    else if vehicle == LandVehicle then
      if speed > 70.0 then (Responding, 0.75)
      else if speed > 40.0 then (EnRoute, 0.79)
      else if speed > 10.0 then (InService, 0.83)
      else if speed > 0.0 then (Stopped, 0.77)
      else (Unknown, 0.0)
    else (Unknown, 0.0)
  }

  /** Heavy rain and fog lower every status confidence by 5%. */
  function WeatherPenalty(weather: WeatherType): real
  {
    if weather == HeavyRain || weather == Fog then 0.95 else 1.0
  }

  /** `predictStatus`: the ladder, then the weather adjustment. The contract
      gives each label as an order-independent condition on the inputs. */
  function PredictStatus(f: Features): (r: StatusResult)
    ensures r.prediction == Parked <==> f.speed == 0.0
    ensures r.prediction == InFlight <==> f.vehicleType == Airplane && f.speed > 200.0
    ensures r.prediction == OnGround <==> f.vehicleType == Airplane && f.speed < 50.0 && f.speed != 0.0
    ensures r.prediction == CruisingRoute <==> f.vehicleType == Boat && 10.0 < f.speed < 40.0
    ensures r.prediction == AtStop <==> f.vehicleType == Boat && f.speed < 5.0 && f.speed != 0.0
    ensures r.prediction == Responding <==> f.vehicleType == LandVehicle && f.speed > 70.0
    ensures r.prediction == EnRoute <==> f.vehicleType == LandVehicle && 40.0 < f.speed <= 70.0
    ensures r.prediction == InService <==> f.vehicleType == LandVehicle && 10.0 < f.speed <= 40.0
    ensures r.prediction == Stopped <==> f.vehicleType == LandVehicle && 0.0 < f.speed <= 10.0
    ensures r.confidence == LabelConfidence(r.prediction) * WeatherPenalty(f.weatherType)
    ensures 0.0 <= r.confidence <= 0.98
    ensures r.featuresUsed == f.keys
  {
    var (status, confidence) := StatusLadder(f.speed, f.vehicleType);
    StatusResult(status, confidence * WeatherPenalty(f.weatherType), f.keys)
  }

  /** The inputs for which no branch of the ladder matches. */
  lemma StatusUnknownCases(f: Features)
    ensures PredictStatus(f).prediction == Unknown <==>
      || (f.vehicleType == Airplane && 50.0 <= f.speed <= 200.0)
      || (f.vehicleType == Boat && f.speed != 0.0 && (5.0 <= f.speed <= 10.0 || f.speed >= 40.0))
      || (f.vehicleType == LandVehicle && f.speed < 0.0)
      || (f.vehicleType == OtherVehicle && f.speed != 0.0)
    ensures PredictStatus(f).prediction == Unknown <==> PredictStatus(f).confidence == 0.0
  {
    var r := PredictStatus(f);
    if r.prediction != Unknown {
      assert LabelConfidence(r.prediction) >= 0.75;
      assert WeatherPenalty(f.weatherType) >= 0.95;
    }
  }

  /** The weather adjustment never changes the label, and it scales the
      confidence by exactly 0.95 for heavy rain and fog. */
  lemma WeatherKeepsStatusLabel(f: Features, w: WeatherType)
    ensures PredictStatus(f.(weatherType := w)).prediction == PredictStatus(f).prediction
    ensures PredictStatus(f.(weatherType := w)).confidence ==
      LabelConfidence(PredictStatus(f).prediction) * WeatherPenalty(w)
  {
  }

  /*************************************************************************
   * Speed prediction
   *************************************************************************/

  datatype SpeedResult = SpeedResult(prediction: real, rmse: real, r2Score: real)

  function BaseSpeed(vehicle: VehicleType): real
  {
    if vehicle == Airplane then 280.0 else if vehicle == Boat then 25.0 else 45.0
  }

  predicate IsRushHour(hour: real)
  {
    (7.0 <= hour <= 9.0) || (17.0 <= hour <= 19.0)
  }

  predicate IsNightHour(hour: real)
  {
    hour >= 22.0 || hour <= 5.0
  }

  /** Rush hours slow traffic down by 20%, night hours speed it up by 10%. */
  function TimeFactor(hour: real): (r: real)
    ensures r == 0.8 <==> IsRushHour(hour)
    ensures r == 1.1 <==> IsNightHour(hour)
    ensures r == 1.0 <==> !IsRushHour(hour) && !IsNightHour(hour)
  {
    if IsRushHour(hour) then 0.8
    else if IsNightHour(hour) then 1.1
    else 1.0
  }

  /** The downtown San Francisco box (open bounds). */
  predicate InDowntown(lat: real, lon: real)
  {
    37.77 < lat < 37.80 && -122.42 < lon < -122.39
  }

  /** `getLocationFactor`. The downtown box is tested first, but it lies
      strictly inside the latitude band 37.72..37.82, so the highway factor
      depends on the latitude alone. */
  function LocationFactor(lat: real, lon: real): (r: real)
    ensures r == 0.7 <==> InDowntown(lat, lon)
    ensures r == 1.2 <==> lat < 37.72 || lat > 37.82
    ensures r == 1.0 <==> !InDowntown(lat, lon) && 37.72 <= lat <= 37.82
  {
    if lat > 37.77 && lat < 37.80 && lon > -122.42 && lon < -122.39 then 0.7
    else if lat < 37.72 || lat > 37.82 then 1.2
    else 1.0
  }

  /** The predicted speed before rounding: the base speed of the vehicle type
      scaled by the weather, wind, time and location factors. */
  function RawSpeed(f: Features): real
  {
    BaseSpeed(f.vehicleType) * (1.0 - f.weatherIntensity * 0.3) * (1.0 - f.windSpeed / 100.0)
      * TimeFactor(f.hourOfDay) * LocationFactor(f.latitude, f.longitude)
  }

  /** `predictSpeed`: the raw speed rounded to one decimal, with the fixed
      quality figures reported beside it. */
  function PredictSpeed(f: Features): (r: SpeedResult)
    ensures RawSpeed(f) - 0.05 < r.prediction <= RawSpeed(f) + 0.05
    ensures JsMath.Round(r.prediction * 10.0) as real == r.prediction * 10.0
    ensures r.rmse == 25.49 && r.r2Score == 0.8221
  {
    SpeedResult(JsMath.RoundTenth(RawSpeed(f)), 25.49, 0.8221)
  }

  /** The product of a non-negative base speed with two factors in [0, 1]
      and a time and a location factor whose product is at most 1.32. */
  lemma FactorProductBounds(base: real, weather: real, wind: real, time: real, location: real, product: real)
    requires base >= 0.0 && 0.0 <= weather <= 1.0 && 0.0 <= wind <= 1.0
    requires time in {0.8, 1.0, 1.1} && location in {0.7, 1.0, 1.2}
    requires product == base * weather * wind * time * location
    ensures 0.0 <= product <= base * 1.32
  {
    Arith.MulFractions(weather, wind);
    var w := weather * wind;
    var tl := time * location;
    assert 0.0 <= tl <= 1.32;
    Arith.MulNonNegative(tl, w);
    Arith.MulMonotonic(tl, w, 1.0);
    assert 0.0 <= tl * w <= tl;
    Arith.MulNonNegative(base, tl * w);
    Arith.MulMonotonic(base, tl * w, 1.32);
    assert base * weather * wind * time * location == base * (tl * w);
  }

  /** With weather intensity in [0, 1] and wind in [0, 100] km/h, the raw
      speed is never negative and never above 1.32 times the base speed
      (night time, outside the city band). */
  lemma RawSpeedBounds(f: Features)
    requires 0.0 <= f.weatherIntensity <= 1.0 && 0.0 <= f.windSpeed <= 100.0
    ensures 0.0 <= RawSpeed(f) <= BaseSpeed(f.vehicleType) * 1.32
  {
    var base := BaseSpeed(f.vehicleType);
    var weather := 1.0 - f.weatherIntensity * 0.3;
    var wind := 1.0 - f.windSpeed / 100.0;
    var time := TimeFactor(f.hourOfDay);
    var location := LocationFactor(f.latitude, f.longitude);
    FactorProductBounds(base, weather, wind, time, location, RawSpeed(f));
  }

  /** Rounding to one decimal keeps the prediction within the same bounds:
      0 and 1.32 times the base speed are themselves whole tenths. */
  lemma SpeedBounds(f: Features)
    requires 0.0 <= f.weatherIntensity <= 1.0 && 0.0 <= f.windSpeed <= 100.0
    ensures 0.0 <= PredictSpeed(f).prediction <= BaseSpeed(f.vehicleType) * 1.32
  {
    var raw := RawSpeed(f);
    var top := BaseSpeed(f.vehicleType) * 1.32;
    RawSpeedBounds(f);
    JsMath.RoundTenthMonotonic(0.0, raw);
    JsMath.RoundTenthMonotonic(raw, top);
    JsMath.RoundTenthOfTenths(0);
    if f.vehicleType == Airplane {
      JsMath.RoundTenthOfTenths(3696);
    } else if f.vehicleType == Boat {
      JsMath.RoundTenthOfTenths(330);
    } else {
      JsMath.RoundTenthOfTenths(594);
    }
  }

  /** A land vehicle at noon in calm weather, at 37.75 N (south of the
      downtown box, inside the city band), keeps its base speed of 45 km/h;
      the same trip at 37.78 N, inside the box, is predicted at 31.5 km/h. */
  lemma MiddaySpeedExamples(f: Features)
    requires f.vehicleType == LandVehicle && f.weatherIntensity == 0.0 && f.windSpeed == 0.0
    requires f.hourOfDay == 12.0 && f.longitude == -122.40
    ensures f.latitude == 37.75 ==> PredictSpeed(f).prediction == 45.0
    ensures f.latitude == 37.78 ==> PredictSpeed(f).prediction == 31.5
  {
    JsMath.RoundTenthOfTenths(450);
    JsMath.RoundTenthOfTenths(315);
  }

  /*************************************************************************
   * Emergency detection
   *************************************************************************/

  datatype EmergencyStatus = Emergency | Normal

  datatype EmergencyResult = EmergencyResult(
    prediction: int,
    confidence: real,
    emergencyProbability: real,
    status: EmergencyStatus)

  /** The speed part of the emergency score, in tenths. */
  function SpeedScore(speed: real): (r: nat)
    ensures r == 6 <==> speed > 80.0
    ensures r == 4 <==> 60.0 < speed <= 80.0
    ensures r == 2 <==> 50.0 < speed <= 60.0
    ensures r == 0 <==> speed <= 50.0
  {
    if speed > 80.0 then 6
    else if speed > 60.0 then 4
    else if speed > 50.0 then 2
    else 0
  }

  /** The emergency score in tenths: speed, the high-speed flag (0.2), a
      heading off the four axes (0.1) and a night-time clock (0.1). */
  function EmergencyScore(f: Features, clockHour: int): (r: nat)
    ensures r <= 10
    ensures r >= SpeedScore(f.speed)
  {
    SpeedScore(f.speed)
      + (if f.isHighSpeed then 2 else 0)
      + (if JsMath.Rem90(f.heading) != 0.0 then 1 else 0)
      + (if clockHour >= 22 || clockHour <= 6 then 1 else 0)
  }

  /** `predictEmergency`. The emergency probability is the score; the
      confidence is the distance of the score from the 0.5 threshold, doubled
      and capped at 0.99. */
  function PredictEmergency(f: Features, clockHour: int): (r: EmergencyResult)
    ensures r.prediction == 0 || r.prediction == 1
    ensures r.prediction == 1 <==> r.emergencyProbability > 0.5
    ensures r.status == Emergency <==> r.prediction == 1
    ensures r.emergencyProbability * 10.0 == EmergencyScore(f, clockHour) as real
    ensures 0.0 <= r.confidence <= 0.99
    ensures r.confidence == 0.0 <==> r.emergencyProbability == 0.5
    ensures var d := 2.0 * (if r.emergencyProbability >= 0.5 then r.emergencyProbability - 0.5
                            else 0.5 - r.emergencyProbability);
      r.confidence == (if d >= 0.99 then 0.99 else d)
    ensures f.speed > 80.0 ==> r.prediction == 1
    ensures f.speed <= 50.0 || (f.speed <= 60.0 && !f.isHighSpeed) ==> r.prediction == 0
  {
    var score := EmergencyScore(f, clockHour) as real / 10.0;
    var isEmergency := score > 0.5;
    var distance := if score - 0.5 >= 0.0 then score - 0.5 else 0.5 - score;
    var confidence := if 0.99 <= distance * 2.0 then 0.99 else distance * 2.0;
    EmergencyResult(
      if isEmergency then 1 else 0,
      confidence,
      score,
      if isEmergency then Emergency else Normal)
  }

  /** 85 km/h heading due east at 2 pm, without the high-speed flag: a score
      of 0.6, an emergency with confidence 0.2. */
  lemma FastDaytimeEmergencyExample(f: Features)
    requires f.speed == 85.0 && f.heading == 90.0 && !f.isHighSpeed
    ensures PredictEmergency(f, 14) == EmergencyResult(1, 0.2, 0.6, Emergency)
  {
    assert JsMath.IsMultipleOf90(90.0);
  }

  /*************************************************************************
   * Weather impact
   *************************************************************************/

  datatype HazardLevel = Low | Moderate | High | Severe

  datatype WeatherImpactResult = WeatherImpactResult(
    adjustedSpeed: real,
    speedReduction: real,
    hazardLevel: HazardLevel,
    hazardScore: int,
    weatherImpactScore: real)

  /** Weather intensity times opacity times wind, wind normalised by 25 km/h. */
  function ImpactScore(f: Features): real
  {
    f.weatherIntensity * f.weatherOpacity * (f.windSpeed / 25.0)
  }

  /** The hazard band of a hazard score, thresholds tested from the top. */
  function HazardLevelOf(hazardScore: real): (r: HazardLevel)
    ensures r == Severe <==> hazardScore > 60.0
    ensures r == High <==> 40.0 < hazardScore <= 60.0
    ensures r == Moderate <==> 20.0 < hazardScore <= 40.0
    ensures r == Low <==> hazardScore <= 20.0
  {
    if hazardScore > 60.0 then Severe
    else if hazardScore > 40.0 then High
    else if hazardScore > 20.0 then Moderate
    else Low
  }

  /** `Math.max(5, currentSpeed - reduction)`: the adjusted speed never drops
      below 5 km/h and, for a non-negative reduction, never exceeds the
      current speed (or 5). */
  function AdjustedSpeed(currentSpeed: real, reduction: real): (r: real)
    ensures r >= 5.0
    ensures r == 5.0 || r == currentSpeed - reduction
    ensures r >= currentSpeed - reduction
    ensures reduction >= 0.0 ==> r <= (if currentSpeed >= 5.0 then currentSpeed else 5.0)
  {
    if 5.0 >= currentSpeed - reduction then 5.0 else currentSpeed - reduction
  }

  /** The bounds of `AdjustedSpeed` survive rounding to one decimal. */
  lemma RoundedAdjustedSpeedBounds(currentSpeed: real, reduction: real)
    ensures JsMath.RoundTenth(AdjustedSpeed(currentSpeed, reduction)) >= 5.0
    ensures reduction >= 0.0 ==>
      JsMath.RoundTenth(AdjustedSpeed(currentSpeed, reduction))
        <= JsMath.RoundTenth(if currentSpeed >= 5.0 then currentSpeed else 5.0)
  {
    var adjusted := AdjustedSpeed(currentSpeed, reduction);
    JsMath.RoundTenthMonotonic(5.0, adjusted);
    JsMath.RoundTenthOfTenths(50);
    if reduction >= 0.0 {
      JsMath.RoundTenthMonotonic(adjusted, if currentSpeed >= 5.0 then currentSpeed else 5.0);
    }
  }

  /** `predictWeatherImpact`: the reported adjusted speed and reduction are
      `Math.max(5, current - 15 * impact)` and `15 * impact` rounded to one
      decimal, the hazard score is `100 * impact` rounded to an integer and
      the impact score is the impact rounded to two decimals. */
  function PredictWeatherImpact(f: Features): (r: WeatherImpactResult)
    ensures var a := AdjustedSpeed(f.currentSpeed, 15.0 * ImpactScore(f));
      a - 0.05 < r.adjustedSpeed <= a + 0.05
    ensures JsMath.Round(r.adjustedSpeed * 10.0) as real == r.adjustedSpeed * 10.0
    ensures JsMath.Round(r.speedReduction * 10.0) as real == r.speedReduction * 10.0
    ensures JsMath.Round(r.weatherImpactScore * 100.0) as real == r.weatherImpactScore * 100.0
    ensures r.adjustedSpeed >= 5.0
    ensures ImpactScore(f) >= 0.0 ==>
      r.adjustedSpeed <= JsMath.RoundTenth(if f.currentSpeed >= 5.0 then f.currentSpeed else 5.0)
    ensures r.hazardLevel == HazardLevelOf(100.0 * ImpactScore(f))
    ensures 15.0 * ImpactScore(f) - 0.05 < r.speedReduction <= 15.0 * ImpactScore(f) + 0.05
    ensures 100.0 * ImpactScore(f) - 0.5 < r.hazardScore as real <= 100.0 * ImpactScore(f) + 0.5
    ensures ImpactScore(f) - 0.005 < r.weatherImpactScore <= ImpactScore(f) + 0.005
  {
    var impact := ImpactScore(f);
    var reduction := impact * 15.0;
    var adjusted := AdjustedSpeed(f.currentSpeed, reduction);
    var hazardScore := impact * 100.0;
    RoundedAdjustedSpeedBounds(f.currentSpeed, reduction);
    WeatherImpactResult(
      JsMath.RoundTenth(adjusted),
      JsMath.RoundTenth(reduction),
      HazardLevelOf(hazardScore),
      JsMath.Round(hazardScore),
      JsMath.RoundHundredth(impact))
  }

  /** Intensity 0.8, opacity 0.9, wind 25 km/h at 50 km/h: impact 0.72, a
      reduction of 10.8 km/h to 39.2 km/h and a SEVERE hazard of 72. */
  lemma SevereWeatherExample(f: Features)
    requires f.weatherIntensity == 0.8 && f.weatherOpacity == 0.9
    requires f.windSpeed == 25.0 && f.currentSpeed == 50.0
    ensures PredictWeatherImpact(f) == WeatherImpactResult(39.2, 10.8, Severe, 72, 0.72)
  {
    assert ImpactScore(f) == 0.72;
    JsMath.RoundTenthOfTenths(392);
    JsMath.RoundTenthOfTenths(108);
    assert JsMath.Round(72.0) == 72;
    assert JsMath.Round(72.0) as real / 100.0 == 0.72;
  }

  /*************************************************************************
   * Clustering
   *************************************************************************/

  datatype ClusterCenter = ClusterCenter(lat: real, lon: real, speed: real)

  /** `squaredDistance` is the square of the source's `distance_to_center`,
      before the square root and the rounding to three decimals. */
  datatype ClusterResult = ClusterResult(
    clusterId: nat,
    clusterType: string,
    behaviorPattern: string,
    squaredDistance: real,
    silhouetteScore: real)

  /** Cluster selection: aircraft speed first, then the western longitude. */
  function ClusterOf(speed: real, lon: real): (r: nat)
    ensures r <= 2
    ensures r == 2 <==> speed > 200.0
    ensures r == 0 <==> speed <= 200.0 && lon < -122.43
    ensures r == 1 <==> speed <= 200.0 && lon >= -122.43
  {
    if speed > 200.0 then 2
    else if lon < -122.43 then 0
    else 1
  }

  function Center(id: nat): ClusterCenter
    requires id <= 2
  {
    if id == 0 then ClusterCenter(37.7360, -122.4460, 24.31)
    else if id == 1 then ClusterCenter(37.7376, -122.4341, 24.81)
    else ClusterCenter(37.7179, -122.3969, 305.53)
  }

  function Square(x: real): (r: real)
    ensures r >= 0.0
  {
    Arith.SquareFacts(x);
    x * x
  }

  /** `predictCluster`. The squared distance to the chosen centre, with speed
      scaled by 1/100, is never negative and is zero at the centre. */
  function PredictCluster(f: Features): (r: ClusterResult)
    ensures r.clusterId == ClusterOf(f.speed, f.longitude)
    ensures r.squaredDistance >= 0.0
    ensures Center(r.clusterId) == ClusterCenter(f.latitude, f.longitude, f.speed) ==> r.squaredDistance == 0.0
    ensures r.silhouetteScore == 0.4767
  {
    var id := ClusterOf(f.speed, f.longitude);
    var c := Center(id);
    var (name, pattern) :=
      if id == 2 then ("High-Speed Aircraft", "Aerial vehicles with speeds >200 km/h")
      else if id == 0 then ("West SF Ground Vehicles", "Urban ground vehicles, western region")
      else ("Central SF Ground Vehicles", "Mixed transit vehicles, central region");
    var d := Square(f.latitude - c.lat) + Square(f.longitude - c.lon) + Square((f.speed - c.speed) / 100.0);
    ClusterResult(id, name, pattern, d, 0.4767)
  }

  /*************************************************************************
   * Batch prediction
   *************************************************************************/

  /** The output of one rule; `Undefined` is what an unrecognised model type
      leaves in a batch entry. */
  datatype ModelOutput =
    | StatusOutput(status: StatusResult)
    | SpeedOutput(speed: SpeedResult)
    | EmergencyOutput(emergency: EmergencyResult)
    | WeatherOutput(weather: WeatherImpactResult)
    | ClusterOutput(cluster: ClusterResult)
    | Undefined

  datatype BatchEntry = BatchEntry(input: Features, output: ModelOutput)

  predicate IsModelType(modelType: string)
  {
    modelType in {"status", "speed", "emergency", "weather", "clustering"}
  }

  /** The `switch` of `batchPredict`: one record through the selected rule. */
  function Predict(modelType: string, f: Features, clockHour: int): (r: ModelOutput)
    ensures r.Undefined? <==> !IsModelType(modelType)
    ensures modelType == "status" ==> r == StatusOutput(PredictStatus(f))
    ensures modelType == "speed" ==> r == SpeedOutput(PredictSpeed(f))
    ensures modelType == "emergency" ==> r == EmergencyOutput(PredictEmergency(f, clockHour))
    ensures modelType == "weather" ==> r == WeatherOutput(PredictWeatherImpact(f))
    ensures modelType == "clustering" ==> r == ClusterOutput(PredictCluster(f))
  {
    match modelType
    case "status" => StatusOutput(PredictStatus(f))
    case "speed" => SpeedOutput(PredictSpeed(f))
    case "emergency" => EmergencyOutput(PredictEmergency(f, clockHour))
    case "weather" => WeatherOutput(PredictWeatherImpact(f))
    case "clustering" => ClusterOutput(PredictCluster(f))
    case _ => Undefined
  }

  /** `batchPredict`: one entry per record, in input order, each pairing the
      record with the selected rule's output. An unrecognised model type does
      not fail; every entry's output is then `Undefined`. */
  method BatchPredict(data: seq<Features>, modelType: string, clockHour: int) returns (results: seq<BatchEntry>)
    ensures |results| == |data|
    ensures forall i :: 0 <= i < |data| ==>
      results[i].input == data[i] && results[i].output == Predict(modelType, data[i], clockHour)
    ensures !IsModelType(modelType) ==> forall i :: 0 <= i < |results| ==> results[i].output == Undefined
  {
    results := [];
    for k := 0 to |data|
      invariant |results| == k
      invariant forall i :: 0 <= i < k ==>
        results[i].input == data[i] && results[i].output == Predict(modelType, data[i], clockHour)
    {
      var prediction := Predict(modelType, data[k], clockHour);
      results := results + [BatchEntry(data[k], prediction)];
    }
  }
}
