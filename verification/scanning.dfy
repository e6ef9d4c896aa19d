/** The adaptive scan controller (`adaptive_scanning`): a first-match decision
    list that shortens the scan interval during disturbances. */
module Scanning {
  import opened WeatherState

  /** The normal scan interval. */
  const BaseInterval: real := 1.0
  const EmpScanThreshold: real := 0.5
  const StormScanThreshold: real := 0.7

  /** The scan-interval multiplier for the current state: halved while the
      EMP effect exceeds 0.5, otherwise cut to 0.7 while the geomagnetic
      storm exceeds 0.7, otherwise unchanged. */
  function ScanInterval(s: SpaceWeather): (r: real)
    ensures r == 0.5 <==> s.empEffect > EmpScanThreshold
    ensures r == 0.7 <==> s.empEffect <= EmpScanThreshold && s.geomagneticStorm > StormScanThreshold
    ensures r == 1.0 <==> s.empEffect <= EmpScanThreshold && s.geomagneticStorm <= StormScanThreshold
    ensures 0.5 <= r <= BaseInterval
  {
    if s.empEffect > EmpScanThreshold then BaseInterval * 0.5
    else if s.geomagneticStorm > StormScanThreshold then BaseInterval * 0.7
    else BaseInterval
  }

  /** More disturbance never slows scanning down: if neither the EMP effect
      nor the geomagnetic storm is weaker in t than in s, t's interval is no
      longer than s's. */
  lemma ScanIntervalAntitone(s: SpaceWeather, t: SpaceWeather)
    requires s.empEffect <= t.empEffect
    requires s.geomagneticStorm <= t.geomagneticStorm
    ensures ScanInterval(t) <= ScanInterval(s)
  {
  }

  /** The solar flare has no say in the scan interval. */
  lemma ScanIgnoresSolarFlare(s: SpaceWeather, solar: real)
    ensures ScanInterval(s.(solarFlare := solar)) == ScanInterval(s)
  {
  }

  /** The EMP rule wins over the storm rule. */
  lemma EmpRuleWinsExample()
    ensures ScanInterval(SpaceWeather(0.0, 0.9, 0.6, 0.0)) == 0.5 * BaseInterval
  {
  }
}
