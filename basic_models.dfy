/** The simple rules used by the basic UI: five free functions with their own
    thresholds and formulas, different from the detailed rules. Each takes its
    inputs as separate arguments and returns a fresh record. */
module BasicRules {
  import opened Telemetry
  import JsMath
  import Arith

  /*************************************************************************
   * Status classification
   *************************************************************************/

  datatype StatusResult = StatusResult(status: Status, confidence: real)

  /** The only two cases in which the vehicle type is consulted. */
  predicate VehicleSpecific(speed: real, vehicle: VehicleType)
  {
    (vehicle == Airplane && speed > 200.0) || (vehicle == Boat && 10.0 < speed < 40.0)
  }

  /** The confidence attached to each label of this ladder. */
  function StatusConfidence(s: Status): real
  {
    match s
    case Parked => 0.95
    case InFlight => 0.98
    case CruisingRoute => 0.87
    case Responding => 0.72
    case InService => 0.83
    case EnRoute => 0.79
    case _ => 0.0
  }

  /** `predictStatusModel`: a total ladder over six labels; after the two
      vehicle-specific cases every non-zero speed is classified by the fixed
      thresholds 60 and 30 km/h. */
  function PredictStatusModel(speed: real, vehicle: VehicleType): (r: StatusResult)
    ensures r.status in {Parked, InFlight, CruisingRoute, Responding, InService, EnRoute}
    ensures r.status == Parked <==> speed == 0.0
    ensures r.status == InFlight <==> vehicle == Airplane && speed > 200.0
    ensures r.status == CruisingRoute <==> vehicle == Boat && 10.0 < speed < 40.0
    ensures r.status == Responding <==> speed > 60.0 && !VehicleSpecific(speed, vehicle)
    ensures r.status == InService <==> speed < 30.0 && speed != 0.0 && !VehicleSpecific(speed, vehicle)
    ensures r.status == EnRoute <==> 30.0 <= speed <= 60.0 && !VehicleSpecific(speed, vehicle)
    ensures r.confidence == StatusConfidence(r.status)
    ensures 0.72 <= r.confidence <= 0.98
  {
    if speed == 0.0 then StatusResult(Parked, 0.95)
    else if vehicle == Airplane && speed > 200.0 then StatusResult(InFlight, 0.98)
    else if vehicle == Boat && speed > 10.0 && speed < 40.0 then StatusResult(CruisingRoute, 0.87)
    else if speed > 60.0 then StatusResult(Responding, 0.72)
    else if speed < 30.0 then StatusResult(InService, 0.83)
    else StatusResult(EnRoute, 0.79)
  }

  /** Outside the two vehicle-specific cases, the vehicle type does not
      change the result. */
  lemma StatusIgnoresVehicleType(speed: real, v1: VehicleType, v2: VehicleType)
    requires !VehicleSpecific(speed, v1) && !VehicleSpecific(speed, v2)
    ensures PredictStatusModel(speed, v1) == PredictStatusModel(speed, v2)
  {
  }

  /*************************************************************************
   * Speed prediction
   *************************************************************************/

  /** `predictedSpeed` is the number that the string `toFixed(1)` denotes. */
  datatype SpeedResult = SpeedResult(
    predictedSpeed: real,
    baseSpeed: real,
    weatherFactor: real,
    windFactor: real,
    timeFactor: real)

  /** The speed before printing: the base speed scaled by the three factors. */
  function FactorProduct(base: real, weatherFactor: real, windFactor: real, timeFactor: real): real
  {
    base * weatherFactor * windFactor * timeFactor
  }

  /** `predictSpeedModel`: base 45 km/h for every vehicle, a day/night time
      factor, and the product printed to one decimal. */
  function PredictSpeedModel(weatherIntensity: real, wind: real, hour: real): (r: SpeedResult)
    ensures r.baseSpeed == 45.0
    ensures r.weatherFactor == 1.0 - weatherIntensity * 0.3
    ensures r.windFactor == 1.0 - wind / 100.0
    ensures r.timeFactor == (if 7.0 <= hour <= 19.0 then 1.1 else 0.9)
    ensures var product := FactorProduct(r.baseSpeed, r.weatherFactor, r.windFactor, r.timeFactor);
      product - 0.05 <= r.predictedSpeed <= product + 0.05
    ensures (r.predictedSpeed * 10.0).Floor as real == r.predictedSpeed * 10.0
  {
    var weatherFactor := 1.0 - weatherIntensity * 0.3;
    var windFactor := 1.0 - wind / 100.0;
    var timeFactor := if hour >= 7.0 && hour <= 19.0 then 1.1 else 0.9;
    SpeedResult(
      JsMath.ToFixed1(FactorProduct(45.0, weatherFactor, windFactor, timeFactor)),
      45.0, weatherFactor, windFactor, timeFactor)
  }

  /** With weather intensity in [0, 1] and wind in [0, 100] km/h, the
      predicted speed lies between 0 and 49.5 km/h (45 km/h by day, calm). */
  lemma SpeedModelBounds(weatherIntensity: real, wind: real, hour: real)
    requires 0.0 <= weatherIntensity <= 1.0 && 0.0 <= wind <= 100.0
    ensures 0.0 <= PredictSpeedModel(weatherIntensity, wind, hour).predictedSpeed <= 49.5
  {
    var r := PredictSpeedModel(weatherIntensity, wind, hour);
    var product := FactorProduct(45.0, r.weatherFactor, r.windFactor, r.timeFactor);
    Arith.ScaledFractionsBounded(45.0, r.weatherFactor, r.windFactor, r.timeFactor, product);
    JsMath.ToFixed1Monotonic(product, 49.5);
    JsMath.ToFixed1OfTenths(495);
    assert JsMath.ToFixed1(49.5) == 49.5;
  }

  /*************************************************************************
   * Emergency detection
   *************************************************************************/

  datatype EmergencyResult = EmergencyResult(isEmergency: bool, confidence: real)

  /** `predictEmergencyModel`: a plain 70 km/h cutoff. */
  function PredictEmergencyModel(speed: real): (r: EmergencyResult)
    ensures r.isEmergency <==> speed > 70.0
    ensures r.confidence == (if r.isEmergency then 0.92 else 0.88)
  {
    var isEmergency := speed > 70.0;
    EmergencyResult(isEmergency, if isEmergency then 0.92 else 0.88)
  }

  /*************************************************************************
   * Weather impact
   *************************************************************************/

  /** `adjustedSpeed`, `reduction` and `hazardScore` are the numbers that the
      strings `toFixed(1)` denote. */
  datatype WeatherImpactResult = WeatherImpactResult(
    adjustedSpeed: real,
    reduction: real,
    hazardScore: real,
    weatherImpact: real)

  /** `Math.max(5, currentSpeed - reduction)`, printed to one decimal, is at
      least 5 and, for a non-negative reduction, at most the printed current
      speed (or 5). */
  lemma AdjustedSpeedBounds(currentSpeed: real, reduction: real)
    ensures var adjusted := if 5.0 >= currentSpeed - reduction then 5.0 else currentSpeed - reduction;
      && JsMath.ToFixed1(adjusted) >= 5.0
      && (reduction >= 0.0 ==>
            JsMath.ToFixed1(adjusted) <= JsMath.ToFixed1(if currentSpeed >= 5.0 then currentSpeed else 5.0))
  {
    var adjusted := if 5.0 >= currentSpeed - reduction then 5.0 else currentSpeed - reduction;
    JsMath.ToFixed1AtLeast(adjusted, 50);
    if reduction >= 0.0 {
      JsMath.ToFixed1Monotonic(adjusted, if currentSpeed >= 5.0 then currentSpeed else 5.0);
    }
  }

  /** `predictWeatherImpactModel`: intensity times opacity times raw wind
      speed; a reduction of ten times that and a hazard score of fifty times
      that, each printed to one decimal; and `Math.max(5, current - reduction)`
      computed from the printed reduction, printed to one decimal. */
  function PredictWeatherImpactModel(intensity: real, opacity: real, wind: real, currentSpeed: real)
    : (r: WeatherImpactResult)
    ensures r.weatherImpact == intensity * opacity * wind
    ensures 10.0 * r.weatherImpact - 0.05 <= r.reduction <= 10.0 * r.weatherImpact + 0.05
    ensures 50.0 * r.weatherImpact - 0.05 <= r.hazardScore <= 50.0 * r.weatherImpact + 0.05
    ensures var a := if 5.0 >= currentSpeed - r.reduction then 5.0 else currentSpeed - r.reduction;
      a - 0.05 <= r.adjustedSpeed <= a + 0.05
    ensures (r.adjustedSpeed * 10.0).Floor as real == r.adjustedSpeed * 10.0
    ensures (r.reduction * 10.0).Floor as real == r.reduction * 10.0
    ensures (r.hazardScore * 10.0).Floor as real == r.hazardScore * 10.0
    ensures r.adjustedSpeed >= 5.0
    ensures r.weatherImpact >= 0.0 ==>
      r.adjustedSpeed <= JsMath.ToFixed1(if currentSpeed >= 5.0 then currentSpeed else 5.0)
  {
    var weatherImpact := intensity * opacity * wind;
    var reduction := JsMath.ToFixed1(weatherImpact * 10.0);
    var adjusted := if 5.0 >= currentSpeed - reduction then 5.0 else currentSpeed - reduction;
    AdjustedSpeedBounds(currentSpeed, reduction);
    WeatherImpactResult(
      JsMath.ToFixed1(adjusted),
      reduction,
      JsMath.ToFixed1(weatherImpact * 50.0),
      weatherImpact)
  }

  /*************************************************************************
   * Clustering
   *************************************************************************/

  datatype ClusterResult = ClusterResult(clusterId: nat, clusterType: string, pattern: string)

  /** `predictClusterModel`: aircraft speed first, then the western longitude. */
  function PredictClusterModel(speed: real, lon: real): (r: ClusterResult)
    ensures r.clusterId in {0, 1, 2}
    ensures r.clusterId == 2 <==> speed > 200.0
    ensures r.clusterId == 0 <==> speed <= 200.0 && lon < -122.43
    ensures r.clusterId == 1 <==> speed <= 200.0 && lon >= -122.43
  {
    if speed > 200.0 then ClusterResult(2, "Aircraft Zone", "High-speed aerial vehicles")
    else if lon < -122.43 then ClusterResult(0, "West SF Ground", "Urban ground vehicles")
    else ClusterResult(1, "Central SF Ground", "Mixed transit vehicles")
  }
}
