/** How the simple rules of the basic UI relate to the detailed rules: where
    they agree for every input, and concrete inputs on which their thresholds
    give conflicting answers (which is why the two are kept apart). */
module RuleVariants {
  import opened Telemetry
  import DetailedRules
  import BasicRules
  import JsMath

  /** Both variants select the same cluster for every input. */
  lemma ClusterVariantsAgree(f: Features)
    ensures BasicRules.PredictClusterModel(f.speed, f.longitude).clusterId == DetailedRules.PredictCluster(f).clusterId
  {
  }

  /** Both variants call a stopped vehicle parked with confidence 0.95 in
      clear weather, and both flag every speed above 80 km/h as an emergency,
      whatever the other inputs. */
  lemma VariantsAgreeOnExtremes(f: Features, clockHour: int)
    ensures f.speed == 0.0 ==>
      && BasicRules.PredictStatusModel(f.speed, f.vehicleType).status == Parked
      && DetailedRules.PredictStatus(f).prediction == Parked
    ensures f.speed == 0.0 && f.weatherType == OtherWeather ==>
      DetailedRules.PredictStatus(f).confidence == BasicRules.PredictStatusModel(f.speed, f.vehicleType).confidence
    ensures f.speed > 80.0 ==>
      && BasicRules.PredictEmergencyModel(f.speed).isEmergency
      && DetailedRules.PredictEmergency(f, clockHour).prediction == 1
  {
  }

  /** A land vehicle at 75 km/h heading due east at 2 pm, without the
      high-speed flag: the simple cutoff (70 km/h) flags an emergency, the
      detailed score (0.4) does not. */
  lemma EmergencyVariantsConflict(f: Features)
    requires f.speed == 75.0 && !f.isHighSpeed && f.heading == 90.0
    ensures BasicRules.PredictEmergencyModel(f.speed).isEmergency
    ensures DetailedRules.PredictEmergency(f, 14).status == DetailedRules.Normal
  {
    assert JsMath.Rem90(90.0) == 0.0 by {
      assert JsMath.IsMultipleOf90(90.0);
    }
  }

  /** A land vehicle at 65 km/h is `responding` for the simple ladder
      (above 60) and `en_route` for the detailed one (40 to 70); a boat at
      45 km/h gets `en_route` from the simple ladder and `unknown` from the
      detailed one. */
  lemma StatusVariantsConflict(f: Features)
    ensures f.vehicleType == LandVehicle && f.speed == 65.0 ==>
      && BasicRules.PredictStatusModel(f.speed, f.vehicleType).status == Responding
      && DetailedRules.PredictStatus(f).prediction == EnRoute
    ensures f.vehicleType == Boat && f.speed == 45.0 ==>
      && BasicRules.PredictStatusModel(f.speed, f.vehicleType).status == EnRoute
      && DetailedRules.PredictStatus(f).prediction == Unknown
  {
  }
}
