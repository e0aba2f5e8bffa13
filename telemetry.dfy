/** The shared data model of the vehicle-telemetry rules engine: one observation
    of a vehicle (the feature record every rule reads a part of) and the status
    labels that the two status rules produce. */
module Telemetry {

  datatype Option<+T> = None | Some(value: T)

  /** The `vehicle_type` field. The rules compare it against three literal
      strings; any other string, or an absent field, behaves as `OtherVehicle`. */
  datatype VehicleType = Airplane | Boat | LandVehicle | OtherVehicle

  /** The `weather_type` field. Only `heavy_rain` and `fog` change a result;
      every other value, or an absent field, behaves as `OtherWeather`. */
  datatype WeatherType = HeavyRain | Fog | OtherWeather

  /** One observation at one instant. Speeds are in km/h, angles in degrees,
      intensities and opacities nominally in [0, 1]. `keys` is the list of the
      record's own field names, in the order the caller wrote them. */
  datatype Features = Features(
    latitude: real,
    longitude: real,
    speed: real,
    heading: real,
    vehicleType: VehicleType,
    weatherType: WeatherType,
    weatherIntensity: real,
    weatherOpacity: real,
    windSpeed: real,
    hourOfDay: real,
    currentSpeed: real,
    isHighSpeed: bool,
    keys: seq<string>)

  /** The status labels of both status rules (`parked`, `in_flight`, ...). */
  datatype Status =
    | Parked
    | InFlight
    | OnGround
    | CruisingRoute
    | AtStop
    | Responding
    | EnRoute
    | InService
    | Stopped
    | Unknown
}
