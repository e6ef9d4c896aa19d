/** The overall space-weather impact shown by `visualize`: the mean of the
    three intensities, and the alert raised when it exceeds 0.3. */
module Impact {
  import opened WeatherState

  const AlertThreshold: real := 0.3

  function Min3(a: real, b: real, c: real): real {
    if a <= b && a <= c then a else if b <= c then b else c
  }

  function Max3(a: real, b: real, c: real): real {
    if a >= b && a >= c then a else if b >= c then b else c
  }

  /** The mean of the three intensities: it lies between the weakest and the
      strongest of them, and in [0, 1] for a valid state. */
  function OverallImpact(s: SpaceWeather): (r: real)
    ensures Min3(s.solarFlare, s.geomagneticStorm, s.empEffect) <= r
    ensures r <= Max3(s.solarFlare, s.geomagneticStorm, s.empEffect)
    ensures Valid(s) ==> InUnit(r)
  {
    (s.solarFlare + s.geomagneticStorm + s.empEffect) / 3.0
  }

  /** The alert annotation: raised exactly when the intensities add up to
      more than 0.9. */
  predicate Alert(s: SpaceWeather)
    ensures Alert(s) <==> s.solarFlare + s.geomagneticStorm + s.empEffect > 3.0 * AlertThreshold
  {
    OverallImpact(s) > AlertThreshold
  }

  /** No alert without some intensity above 0.3. */
  lemma AlertNeedsStrongPhenomenon(s: SpaceWeather)
    requires Alert(s)
    ensures s.solarFlare > AlertThreshold || s.geomagneticStorm > AlertThreshold || s.empEffect > AlertThreshold
  {
  }

  /** In a valid state a single intensity above 0.9 raises the alert on its
      own, whatever the other two are. */
  lemma SeverePhenomenonAlerts(s: SpaceWeather)
    requires Valid(s)
    requires s.solarFlare > 0.9 || s.geomagneticStorm > 0.9 || s.empEffect > 0.9
    ensures Alert(s)
  {
  }
}
