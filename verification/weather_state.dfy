/** The space-weather state of the Wi-Fi mapper: three normalised intensities
    and the time of the last refresh, together with the clamping helper that
    every component uses and the dictionary view the degradation loop walks. */
module WeatherState {

  /** One snapshot of the engine's state. The intensities are meant to lie in
      [0, 1]; `lastUpdate` is a clock reading in seconds. */
  datatype SpaceWeather = SpaceWeather(
    solarFlare: real,
    geomagneticStorm: real,
    empEffect: real,
    lastUpdate: real)

  /** Dictionary keys of the state record, in insertion order. */
  const SolarFlareKey: string := "solar_flare"
  const GeomagneticStormKey: string := "geomagnetic_storm"
  const EmpEffectKey: string := "emp_effect"

  /** The state the mapper starts with: all intensities zero, never refreshed. */
  const Initial: SpaceWeather := SpaceWeather(0.0, 0.0, 0.0, 0.0)

  predicate InUnit(x: real) {
    0.0 <= x <= 1.0
  }

  /** Every intensity lies in [0, 1]. */
  predicate Valid(s: SpaceWeather) {
    InUnit(s.solarFlare) && InUnit(s.geomagneticStorm) && InUnit(s.empEffect)
  }

  /** Clamping to a closed interval, as `np.clip(x, lo, hi)` does for a
      scalar when `lo <= hi`. */
  function Clip(x: real, lo: real, hi: real): (r: real)
    requires lo <= hi
    ensures lo <= r <= hi
    ensures lo <= x <= hi ==> r == x
    ensures x < lo ==> r == lo
    ensures hi < x ==> r == hi
  {
    if x < lo then lo else if hi < x then hi else x
  }

  /** Clamping to the unit interval. */
  function Clip01(x: real): (r: real)
    ensures InUnit(r)
    ensures InUnit(x) ==> r == x
  {
    Clip(x, 0.0, 1.0)
  }

  /** The state record seen as the dictionary the source iterates: key and
      intensity pairs in insertion order. */
  function Items(s: SpaceWeather): seq<(string, real)> {
    [(SolarFlareKey, s.solarFlare),
     (GeomagneticStormKey, s.geomagneticStorm),
     (EmpEffectKey, s.empEffect)]
  }

  lemma InitialIsValid()
    ensures Valid(Initial)
  {
  }
}
