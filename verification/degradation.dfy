/** The signal-degradation pipeline (`apply_signal_degradation`). The source
    walks the state dictionary in insertion order and looks each active
    intensity's key up in a table of three degradation models; the running
    RSSI is fed from one model into the next and the result is clipped to the
    receiver range. The state's third key is `emp_effect` while the table's
    is `emp_pulse`, so that lookup fails whenever the EMP effect is active:
    `Degrade` models this as written, `DegradeIntended` models the pipeline
    with the EMP model reachable. */
module Degradation {
  import opened WeatherState
  import Refresh

  /** Intensities at or below this value leave the signal alone. */
  const ActivationThreshold: real := 0.1
  /** The valid receiver range, in dBm. */
  const MinRssi: real := -100.0
  const MaxRssi: real := -30.0
  /** EMP intensities above this value force the signal to the floor. */
  const EmpFloorThreshold: real := 0.8

  /** The three degradation models of the table. */
  datatype Phenomenon = SolarFlare | GeomagneticStorm | EmpPulse

  const EmpPulseKey: string := "emp_pulse"

  /** The model table, keyed by name. */
  const DegradationModels: map<string, Phenomenon> :=
    map[SolarFlareKey := SolarFlare,
        GeomagneticStormKey := GeomagneticStorm,
        EmpPulseKey := EmpPulse]

  /** Outcome of the as-written pipeline: a degraded RSSI, or the key whose
      lookup in the model table raised `KeyError`. */
  datatype Degraded = Ok(rssi: real) | KeyError(key: string)

  /** Solar flare: a linear penalty of 20 dB per unit of intensity. */
  function SolarFlareModel(rssi: real, intensity: real): (r: real)
    ensures 0.0 <= intensity ==> r <= rssi
    ensures intensity <= 1.0 ==> rssi - 20.0 <= r
  {
    rssi - 20.0 * intensity
  }

  /** Geomagnetic storm: a penalty of up to 15 dB per unit of intensity,
      scaled by a uniform jitter draw in [0, 1). */
  function GeomagneticStormModel(rssi: real, intensity: real, jitter: real): (r: real)
    ensures 0.0 <= intensity && 0.0 <= jitter ==> r <= rssi
    ensures 0.0 <= intensity && jitter <= 1.0 ==> rssi - 15.0 * intensity <= r
  {
    rssi - 15.0 * intensity * jitter
  }

  /** EMP pulse: the floor above 0.8, otherwise a penalty of 40 dB per unit. */
  function EmpPulseModel(rssi: real, intensity: real): (r: real)
    ensures intensity > EmpFloorThreshold ==> r == MinRssi
    ensures 0.0 <= intensity <= EmpFloorThreshold ==> rssi - 32.0 <= r <= rssi
  {
    if intensity > EmpFloorThreshold then -100.0 else rssi - 40.0 * intensity
  }

  /** Dispatch on the model kind. The solar and storm models never raise a
      signal for non-negative inputs; the EMP model can, since its floor
      replaces whatever signal it receives. */
  function Transform(p: Phenomenon, rssi: real, intensity: real, jitter: real): (r: real)
    ensures p != EmpPulse && 0.0 <= intensity && 0.0 <= jitter ==> r <= rssi
    ensures p == EmpPulse && intensity > EmpFloorThreshold ==> r == MinRssi
    ensures p == EmpPulse && 0.0 <= intensity <= EmpFloorThreshold ==> r <= rssi
  {
    match p
    case SolarFlare => SolarFlareModel(rssi, intensity)
    case GeomagneticStorm => GeomagneticStormModel(rssi, intensity, jitter)
    case EmpPulse => EmpPulseModel(rssi, intensity)
  }

  /** True when the item at index k is active and its key has no model. */
  predicate MissingModelAt(items: seq<(string, real)>, k: int)
    requires 0 <= k < |items|
  {
    items[k].1 > ActivationThreshold && items[k].0 !in DegradationModels
  }

  /** The loop of the pipeline over dictionary items, before clipping. It
      fails exactly when some active item's key is missing from the table,
      reporting the first such key, and leaves the signal alone when no item
      is active. */
  function RunModels(items: seq<(string, real)>, rssi: real, jitter: real): (r: Degraded)
    ensures r.KeyError? ==>
      exists k :: 0 <= k < |items| && MissingModelAt(items, k) && r.key == items[k].0
        && forall j :: 0 <= j < k ==> !MissingModelAt(items, j)
    ensures (exists k :: 0 <= k < |items| && MissingModelAt(items, k)) ==> r.KeyError?
    ensures (forall k :: 0 <= k < |items| ==> items[k].1 <= ActivationThreshold) ==> r == Ok(rssi)
    decreases |items|
  {
    if |items| == 0 then Ok(rssi)
    else
      var (key, intensity) := items[0];
      var rest := items[1..];
      assert forall k :: 1 <= k < |items| ==> items[k] == rest[k - 1];
      assert forall k :: 1 <= k < |items| ==> (MissingModelAt(items, k) <==> MissingModelAt(rest, k - 1));
      if intensity > ActivationThreshold then
        if key in DegradationModels then
          RunModels(rest, Transform(DegradationModels[key], rssi, intensity, jitter), jitter)
        else
          assert MissingModelAt(items, 0);
          KeyError(key)
      else
        RunModels(rest, rssi, jitter)
  }

  /** `apply_signal_degradation` as written: the dictionary loop, then the
      clip to the receiver range. */
  function Degrade(s: SpaceWeather, rssi: real, jitter: real): (r: Degraded)
    ensures r.Ok? <==> s.empEffect <= ActivationThreshold
    ensures r.KeyError? ==> r.key == EmpEffectKey
    ensures r.Ok? ==> MinRssi <= r.rssi <= MaxRssi
    ensures NoneActive(s) ==> r == Ok(Clip(rssi, MinRssi, MaxRssi))
  {
    var items := Items(s);
    assert MissingModelAt(items, 2) <==> s.empEffect > ActivationThreshold;
    assert !MissingModelAt(items, 0) && !MissingModelAt(items, 1);
    assert items[2].0 == EmpEffectKey;
    match RunModels(items, rssi, jitter)
    case Ok(v) => Ok(Clip(v, MinRssi, MaxRssi))
    case KeyError(k) => KeyError(k)
  }

  /** No intensity exceeds the activation threshold. */
  predicate NoneActive(s: SpaceWeather) {
    s.solarFlare <= ActivationThreshold
    && s.geomagneticStorm <= ActivationThreshold
    && s.empEffect <= ActivationThreshold
  }

  /** The same pipeline as a loop over the dictionary items, returning early
      on the failed lookup. */
  method ApplySignalDegradation(s: SpaceWeather, rssi: real, jitter: real) returns (r: Degraded)
    ensures r == Degrade(s, rssi, jitter)
  {
    var items := Items(s);
    var running := rssi;
    var i := 0;
    while i < |items|
      invariant 0 <= i <= |items|
      invariant RunModels(items, rssi, jitter) == RunModels(items[i..], running, jitter)
    {
      var (key, intensity) := items[i];
      assert items[i..][1..] == items[i + 1..];
      if intensity > ActivationThreshold {
        if key !in DegradationModels {
          return KeyError(key);
        }
        running := Transform(DegradationModels[key], running, intensity, jitter);
      }
      i := i + 1;
    }
    return Ok(Clip(running, MinRssi, MaxRssi));
  }

  /** One stage of the intended pipeline: the phenomenon's model when its
      intensity is active, the identity otherwise. */
  function Stage(p: Phenomenon, intensity: real, rssi: real, jitter: real): real {
    if intensity > ActivationThreshold then Transform(p, rssi, intensity, jitter) else rssi
  }

  /** The pipeline with every state field bound to its model: solar flare,
      then geomagnetic storm, then EMP pulse, then the clip. */
  function DegradeIntended(s: SpaceWeather, rssi: real, jitter: real): (r: real)
    ensures MinRssi <= r <= MaxRssi
    ensures s.empEffect > EmpFloorThreshold ==> r == MinRssi
    ensures NoneActive(s) ==> r == Clip(rssi, MinRssi, MaxRssi)
  {
    var afterSolar := Stage(SolarFlare, s.solarFlare, rssi, jitter);
    var afterStorm := Stage(GeomagneticStorm, s.geomagneticStorm, afterSolar, jitter);
    var afterEmp := Stage(EmpPulse, s.empEffect, afterStorm, jitter);
    Clip(afterEmp, MinRssi, MaxRssi)
  }

  /** While the EMP effect is inactive the as-written pipeline succeeds and
      agrees with the intended one; once it is active it fails on the
      `emp_effect` lookup. */
  lemma AsWrittenMatchesIntended(s: SpaceWeather, rssi: real, jitter: real)
    ensures s.empEffect <= ActivationThreshold ==>
      Degrade(s, rssi, jitter) == Ok(DegradeIntended(s, rssi, jitter))
    ensures s.empEffect > ActivationThreshold ==>
      Degrade(s, rssi, jitter) == KeyError(EmpEffectKey)
  {
    var items := Items(s);
    if s.empEffect <= ActivationThreshold {
      var afterSolar := Stage(SolarFlare, s.solarFlare, rssi, jitter);
      var afterStorm := Stage(GeomagneticStorm, s.geomagneticStorm, afterSolar, jitter);
      assert items[1..][1..][1..] == [];
      assert RunModels(items[1..][1..], afterStorm, jitter) == Ok(afterStorm);
      assert RunModels(items[1..], afterSolar, jitter) == Ok(afterStorm);
      assert RunModels(items, rssi, jitter) == Ok(afterStorm);
    }
  }

  /** Solar and geomagnetic degradation applied in order, with EMP quiet:
      the result never exceeds the clipped input. */
  lemma ActiveModelsNeverRaise(s: SpaceWeather, rssi: real, jitter: real)
    requires Valid(s)
    requires 0.0 <= jitter < 1.0
    requires s.empEffect <= ActivationThreshold
    ensures Degrade(s, rssi, jitter).Ok?
    ensures Degrade(s, rssi, jitter).rssi <= Clip(rssi, MinRssi, MaxRssi)
  {
    AsWrittenMatchesIntended(s, rssi, jitter);
  }

  /** Each model is monotone in the incoming signal. */
  lemma TransformMonotone(p: Phenomenon, x: real, y: real, intensity: real, jitter: real)
    requires x <= y
    ensures Transform(p, x, intensity, jitter) <= Transform(p, y, intensity, jitter)
  {
  }

  /** A stronger incoming signal never comes out weaker, and whether the loop
      fails does not depend on the signal. */
  lemma {:induction false} RunModelsMonotone(items: seq<(string, real)>, x: real, y: real, jitter: real)
    requires x <= y
    ensures RunModels(items, x, jitter).Ok? == RunModels(items, y, jitter).Ok?
    ensures RunModels(items, x, jitter).Ok? ==>
      RunModels(items, x, jitter).rssi <= RunModels(items, y, jitter).rssi
    decreases |items|
  {
    if |items| > 0 {
      var (key, intensity) := items[0];
      if intensity > ActivationThreshold {
        if key in DegradationModels {
          var p := DegradationModels[key];
          TransformMonotone(p, x, y, intensity, jitter);
          RunModelsMonotone(items[1..], Transform(p, x, intensity, jitter), Transform(p, y, intensity, jitter), jitter);
        }
      } else {
        RunModelsMonotone(items[1..], x, y, jitter);
      }
    }
  }

  /** The as-written pipeline is monotone in the raw RSSI. */
  lemma DegradeMonotone(s: SpaceWeather, x: real, y: real, jitter: real)
    requires x <= y
    requires s.empEffect <= ActivationThreshold
    ensures Degrade(s, x, jitter).rssi <= Degrade(s, y, jitter).rssi
  {
    RunModelsMonotone(Items(s), x, y, jitter);
  }

  /** -50 dBm under a solar flare of 0.5 with the other intensities quiet
      comes out at -60 dBm. */
  lemma SolarOnlyExample(jitter: real)
    ensures Degrade(SpaceWeather(0.5, 0.0, 0.0, 0.0), -50.0, jitter) == Ok(-60.0)
  {
    AsWrittenMatchesIntended(SpaceWeather(0.5, 0.0, 0.0, 0.0), -50.0, jitter);
  }

  /** Of the three dictionary keys, exactly the EMP key has no model in the
      table, whatever the intensities. */
  lemma OnlyEmpKeyUnmodelled(s: SpaceWeather)
    ensures forall k :: 0 <= k < |Items(s)| ==>
      (Items(s)[k].0 !in DegradationModels <==> Items(s)[k].0 == EmpEffectKey)
  {
  }

  /** An intensity just above 0.1 activates its model. */
  lemma ThresholdActivatesJustAbove(jitter: real)
    ensures Degrade(SpaceWeather(0.1000001, 0.0, 0.0, 0.0), -50.0, jitter) == Ok(-52.000002)
  {
  }

  /** An intensity of exactly 0.1 is below the strict threshold. */
  lemma ThresholdIsStrict(rssi: real, jitter: real)
    ensures Degrade(SpaceWeather(0.1, 0.1, 0.1, 0.0), rssi, jitter) == Ok(Clip(rssi, MinRssi, MaxRssi))
  {
  }

  /** The first refresh that starts an EMP event leaves the mapper in a state
      from which every degradation fails: from the initial state, one call
      after the interval whose EMP roll is below 0.05 and whose spike draw is
      0.7 sets the EMP effect to 0.7, and the next degradation raises
      `KeyError` on `emp_effect`. */
  lemma EmpSpikeBreaksDegradation(rssi: real, jitter: real)
    ensures
      var t := Refresh.Tick(301.0, Refresh.Response(500, []), 0.2, 0.0, 0.7);
      var s := Refresh.UpdateSpaceWeather(Initial, t);
      s.empEffect == 0.7 && Degrade(s, rssi, jitter) == KeyError(EmpEffectKey)
  {
  }
}
