/** The refresh of the space-weather state (`update_space_weather`): a gate on
    the elapsed time, a geomagnetic reading taken from the planetary K-index
    feed, a clipped normal draw for the solar flare, and a spike-or-decay step
    for the EMP effect. The clock, the feed and the random draws are inputs. */
module Refresh {
  import opened WeatherState

  /** Seconds that must elapse, strictly, between two refreshes. */
  const RefreshInterval: real := 300.0
  /** Largest value of the planetary K-index scale. */
  const KpScale: real := 9.0
  /** Probability that a refresh starts a new EMP event. */
  const EmpSpikeProbability: real := 0.05
  /** Multiplicative decay of the EMP effect when no event starts. */
  const EmpDecay: real := 0.9

  /** What the HTTP request to the K-index feed produced. `Raises` stands for
      every exception the refresh can meet before it mutates anything: a
      network error, a body that is not JSON, a last record without a `kp`
      field. `Response` carries the status code and, for a parsed body, the
      `kp` values of the records in order. */
  datatype FetchOutcome =
    | Raises
    | Response(status: int, kpSeries: seq<real>)

  /** One call of the refresh: the clock reading, the feed outcome and the
      three random draws the call would take (`np.random.normal(0.2, 0.3)`,
      `np.random.rand()`, `np.random.normal(0.7, 0.2)`). */
  datatype Tick = Tick(
    now: real,
    fetch: FetchOutcome,
    solarDraw: real,
    empRoll: real,
    empSpikeDraw: real)

  /** The refresh gate: true exactly when more than the interval has passed,
      so a due clock reading is strictly later than the last refresh. */
  predicate Due(s: SpaceWeather, now: real)
    ensures Due(s, now) ==> now > s.lastUpdate
  {
    now - s.lastUpdate > RefreshInterval
  }

  /** A feed outcome whose last K-index value, if any, is on the scale's
      non-negative side. */
  predicate KpInScale(f: FetchOutcome) {
    f.Response? && f.status == 200 && |f.kpSeries| > 0 ==> f.kpSeries[|f.kpSeries| - 1] >= 0.0
  }

  /** The geomagnetic intensity derived from a K-index series: the last value
      divided by the scale maximum, capped at 1; an empty series counts as 0. */
  function KpLevel(kpSeries: seq<real>): (r: real)
    ensures r <= 1.0
    ensures |kpSeries| == 0 ==> r == 0.0
    ensures |kpSeries| > 0 ==>
      var kp := kpSeries[|kpSeries| - 1];
      (kp >= KpScale <==> r == 1.0) && (kp <= KpScale ==> r * KpScale == kp)
    ensures |kpSeries| > 0 && kpSeries[|kpSeries| - 1] >= 0.0 ==> r >= 0.0
  {
    var latestKp := if |kpSeries| > 0 then kpSeries[|kpSeries| - 1] else 0.0;
    var level := latestKp / KpScale;
    if level < 1.0 then level else 1.0
  }

  /** The EMP step of a refresh: a clipped spike with the given probability,
      otherwise a decay of the current value. */
  function NextEmp(current: real, roll: real, spikeDraw: real): (r: real)
    ensures roll < EmpSpikeProbability ==> InUnit(r)
    ensures roll >= EmpSpikeProbability ==> r == current * EmpDecay
    ensures InUnit(current) ==> InUnit(r)
    ensures roll >= EmpSpikeProbability && current >= 0.0 ==> r <= current
  {
    if roll < EmpSpikeProbability then Clip01(spikeDraw) else current * EmpDecay
  }

  /** One call of `update_space_weather`. When the gate is closed, or the
      fetch raises, the state is returned untouched (the exception is logged
      and swallowed). Otherwise the geomagnetic intensity is replaced only on
      status 200, the solar flare and EMP effect are always redrawn, and the
      timestamp becomes the clock reading. */
  function UpdateSpaceWeather(s: SpaceWeather, t: Tick): (r: SpaceWeather)
    ensures !Due(s, t.now) ==> r == s
    ensures t.fetch.Raises? ==> r == s
    ensures r != s ==> r.lastUpdate == t.now && t.now > s.lastUpdate + RefreshInterval
    ensures Due(s, t.now) && t.fetch.Response? ==>
      && r.lastUpdate == t.now
      && r.solarFlare == Clip01(t.solarDraw)
      && r.empEffect == NextEmp(s.empEffect, t.empRoll, t.empSpikeDraw)
      && r.geomagneticStorm ==
           (if t.fetch.status == 200 then KpLevel(t.fetch.kpSeries) else s.geomagneticStorm)
    ensures r.geomagneticStorm != s.geomagneticStorm ==> t.fetch.Response? && t.fetch.status == 200
    ensures s.lastUpdate <= r.lastUpdate
    ensures Valid(s) && KpInScale(t.fetch) ==> Valid(r)
  {
    if !Due(s, t.now) then s
    else
      match t.fetch
      case Raises => s
      case Response(status, kpSeries) =>
        var storm := if status == 200 then KpLevel(kpSeries) else s.geomagneticStorm;
        SpaceWeather(
          Clip01(t.solarDraw),
          storm,
          NextEmp(s.empEffect, t.empRoll, t.empSpikeDraw),
          t.now)
  }

  /** Repeated calls of the refresh, one per tick, in order (the mapper calls
      it once per captured packet). */
  function Run(s: SpaceWeather, ticks: seq<Tick>): (r: SpaceWeather)
    ensures s.lastUpdate <= r.lastUpdate
    ensures Valid(s) && (forall k :: 0 <= k < |ticks| ==> KpInScale(ticks[k].fetch)) ==> Valid(r)
    decreases |ticks|
  {
    if |ticks| == 0 then s else Run(UpdateSpaceWeather(s, ticks[0]), ticks[1..])
  }

  /** A tick that cannot start an EMP event. */
  predicate Quiet(t: Tick) {
    t.empRoll >= EmpSpikeProbability
  }

  /** Without an EMP event, the EMP effect only decays: over any number of
      calls it stays non-negative and never exceeds where it started. */
  lemma {:induction false} EmpNeverRisesWithoutSpike(s: SpaceWeather, ticks: seq<Tick>)
    requires s.empEffect >= 0.0
    requires forall k :: 0 <= k < |ticks| ==> Quiet(ticks[k])
    ensures 0.0 <= Run(s, ticks).empEffect <= s.empEffect
    decreases |ticks|
  {
    if |ticks| > 0 {
      var s1 := UpdateSpaceWeather(s, ticks[0]);
      assert Quiet(ticks[0]);
      assert 0.0 <= s1.empEffect <= s.empEffect;
      forall k | 0 <= k < |ticks[1..]|
        ensures Quiet(ticks[1..][k])
      {
        assert ticks[1..][k] == ticks[k + 1];
      }
      EmpNeverRisesWithoutSpike(s1, ticks[1..]);
    }
  }

  /** The geomagnetic intensity survives any run of calls in which the feed
      never answers with status 200. */
  lemma {:induction false} StormKeptWithoutSuccessfulFetch(s: SpaceWeather, ticks: seq<Tick>)
    requires forall k :: 0 <= k < |ticks| ==> !(ticks[k].fetch.Response? && ticks[k].fetch.status == 200)
    ensures Run(s, ticks).geomagneticStorm == s.geomagneticStorm
    decreases |ticks|
  {
    if |ticks| > 0 {
      var s1 := UpdateSpaceWeather(s, ticks[0]);
      assert !(ticks[0].fetch.Response? && ticks[0].fetch.status == 200);
      forall k | 0 <= k < |ticks[1..]|
        ensures !(ticks[1..][k].fetch.Response? && ticks[1..][k].fetch.status == 200)
      {
        assert ticks[1..][k] == ticks[k + 1];
      }
      StormKeptWithoutSuccessfulFetch(s1, ticks[1..]);
    }
  }

  /** Once a refresh has happened at time t1, a second call no more than the
      interval later changes nothing, whatever its feed and draws. */
  lemma SecondCallWithinIntervalIsNoop(s: SpaceWeather, t1: Tick, t2: Tick)
    requires UpdateSpaceWeather(s, t1).lastUpdate == t1.now
    requires t2.now - t1.now <= RefreshInterval
    ensures UpdateSpaceWeather(UpdateSpaceWeather(s, t1), t2) == UpdateSpaceWeather(s, t1)
  {
  }

  /** A call after the interval with a feed that answers at all always stamps
      the clock reading, even when the status is not 200. */
  lemma FailedStatusStillStamps(s: SpaceWeather, t: Tick)
    requires Due(s, t.now)
    requires t.fetch.Response? && t.fetch.status != 200
    ensures UpdateSpaceWeather(s, t).lastUpdate == t.now
    ensures UpdateSpaceWeather(s, t).geomagneticStorm == s.geomagneticStorm
  {
  }
}
