# Space-weather engine of the ethical Wi-Fi mapper, in Dafny

This project models the simulated "space weather" engine of the
`EthicalWiFiMapper` class in `main.py`. The engine holds three interference
intensities (solar flare, geomagnetic storm, EMP effect) and the time of the
last refresh. It has four parts:

- **Refresh** (`update_space_weather`). A strict 300-second gate decides
  whether anything happens. When it opens, the geomagnetic intensity is read
  from the planetary K-index feed, the solar flare is redrawn as a clipped
  normal value, the EMP effect either spikes or decays by 0.9, and the
  timestamp is set. An exception leaves the state untouched.
- **Degradation** (`apply_signal_degradation`). The loop walks the state
  dictionary in insertion order. For each intensity above 0.1 it looks up a
  model by the dictionary key and feeds the running RSSI through it. The
  result is clipped to [-100, -30] dBm.
- **Adaptive scanning** (`adaptive_scanning`). A first-match decision list
  returns 0.5, 0.7 or 1.0.
- **Overall impact and alert** (from `visualize`). The impact is the mean of
  the three intensities. The alert is raised when the mean exceeds 0.3.

The model is functional. `WeatherState.SpaceWeather` is an immutable record.
Each call of the refresh takes a `Refresh.Tick` holding the clock reading, the
outcome of the HTTP fetch and the three random draws the call would take. The
geomagnetic model's `np.random.rand()` jitter is a parameter of the
degradation functions. Intensities, RSSI values and timestamps are `real`.

Files:

- `weather_state.dfy`: the state record, `Clip`/`Clip01` (`np.clip`), and the
  dictionary view `Items`.
- `refresh.dfy`: the gate, the fetch outcome, the state transition, and
  repeated refreshes (`Run`).
- `degradation.dfy`: the three models, the string-keyed model table, the
  as-written pipeline (`Degrade`, and its loop `ApplySignalDegradation`), and
  the corrected pipeline `DegradeIntended`.
- `scanning.dfy`: the scan-interval decision list.
- `impact.dfy`: the overall impact and the alert test.

Four behaviours of `main.py` are easy to misread, and the model keeps each as written:

- A fetch with a status other than 200 still redraws the solar flare and the
  EMP effect and stamps the timestamp. Only an exception leaves the timestamp
  alone.
- A status-200 response with an empty K-index series sets the geomagnetic
  intensity to 0. It does not keep the previous value.
- The geomagnetic intensity is `min(kp / 9, 1)` with no lower clamp. It stays
  in [0, 1] only when the last K-index value is non-negative
  (`Refresh.KpInScale`).
- The EMP model is never applied. The state key `emp_effect` is missing from
  the model table, which is keyed `emp_pulse`. So whenever the EMP effect is
  above 0.1 the lookup raises `KeyError` and no value is returned (see
  Findings).

## Model

| member | source | states |
|---|---|---|
| WeatherState.InitialIsValid | main.py:9-15 | the starting state has all intensities at zero, so every intensity is in [0, 1] |
| WeatherState.Clip | main.py:64 | the clip lands in [lo, hi], leaves values inside the range unchanged and maps values below or above to the nearer bound |
| WeatherState.Clip01 | main.py:40 | clipping to [0, 1] always gives a unit value and leaves unit values unchanged |
| Refresh.Due | main.py:31 | the gate opens only when more than 300 seconds have passed, so a due clock reading is strictly later than the last refresh |
| Refresh.KpLevel | main.py:36-37 | the geomagnetic level is at most 1; 0 for an empty series; exactly 1 iff the last Kp is at least 9; otherwise level times 9 is the last Kp; non-negative when the last Kp is |
| Refresh.NextEmp | main.py:43-46 | a spike gives a value in [0, 1]; otherwise the new value is 0.9 times the old and never larger than a non-negative old value; [0, 1] is preserved |
| Refresh.UpdateSpaceWeather | main.py:27-52 | no change when the gate is closed (elapsed time at most 300) or the fetch raises; any change stamps the clock reading, which is more than 300 after the old stamp; on a response the solar flare is the clipped draw, the EMP effect takes its spike-or-decay step, and the storm is replaced only on status 200; the timestamp never decreases; validity is preserved when the last Kp of a status-200 response is non-negative |
| Refresh.Run | main.py:76-78 | over any sequence of refresh calls the timestamp never decreases, and all intensities stay in [0, 1] when every feed reading is on scale |
| Refresh.EmpNeverRisesWithoutSpike | main.py:43-46 | across any run of calls without an EMP event the EMP effect stays between 0 and its starting value |
| Refresh.StormKeptWithoutSuccessfulFetch | main.py:34-37 | across any run of calls without a status-200 response the geomagnetic intensity is unchanged |
| Refresh.SecondCallWithinIntervalIsNoop | main.py:30-31 | after a refresh at t1, a call no more than 300 seconds later changes nothing |
| Refresh.FailedStatusStillStamps | main.py:34-48 | a due call whose response has a status other than 200 still stamps the clock reading and keeps the geomagnetic intensity |
| Degradation.SolarFlareModel | main.py:19 | for a non-negative intensity the solar model never raises the signal, and for an intensity of at most 1 it lowers it by no more than 20 dB |
| Degradation.GeomagneticStormModel | main.py:20 | for a non-negative intensity and jitter the storm model never raises the signal, and for jitter at most 1 it lowers it by at most 15 times the intensity |
| Degradation.EmpPulseModel | main.py:21 | above 0.8 the EMP model returns the -100 floor; for an intensity in [0, 0.8] it lowers the signal by at most 32 dB |
| Degradation.Transform | main.py:61 | the model picked from the table: solar and storm never raise a signal for non-negative intensity and jitter; EMP gives the -100 floor above 0.8 and never raises the signal for an intensity in [0, 0.8] |
| Degradation.OnlyEmpKeyUnmodelled | main.py:9-22 | of the state's dictionary keys, exactly `emp_effect` has no entry in the model table |
| Degradation.RunModels | main.py:59-61 | the dictionary loop fails iff some active item's key is missing from the model table, and then reports the first such key in dictionary order; with no active item it returns the signal unchanged |
| Degradation.Degrade | main.py:54-69 | degradation returns a value iff the EMP effect is at most 0.1, and otherwise fails on key `emp_effect`; a returned value is in [-100, -30]; with nothing active the result is the clipped input |
| Degradation.ApplySignalDegradation | main.py:54-69 | the loop with its early exit on the failed lookup computes exactly the pipeline `Degrade` |
| Degradation.AsWrittenMatchesIntended | main.py:59-61 | with the EMP effect at most 0.1 the as-written pipeline equals the corrected pipeline (solar, then storm, then clip); above 0.1 it fails with `KeyError` on `emp_effect` |
| Degradation.ActiveModelsNeverRaise | main.py:19-20 | for valid intensities, jitter in [0, 1) and a quiet EMP effect, degradation succeeds and never exceeds the clipped input |
| Degradation.TransformMonotone | main.py:18-22 | each of the three models is monotone in the incoming signal |
| Degradation.RunModelsMonotone | main.py:59-61 | a stronger incoming signal never leaves the loop weaker, and whether the loop fails does not depend on the signal |
| Degradation.DegradeMonotone | main.py:54-69 | when degradation succeeds it is monotone in the raw RSSI |
| Degradation.SolarOnlyExample | main.py:19 | -50 dBm with a solar flare of 0.5 and the other intensities quiet degrades to -60 dBm |
| Degradation.ThresholdIsStrict | main.py:60 | with every intensity exactly 0.1 no model runs and the result is the clipped input |
| Degradation.ThresholdActivatesJustAbove | main.py:60 | a solar flare of 0.1000001 activates its model: -50 dBm degrades to -52.000002 dBm |
| Degradation.EmpSpikeBreaksDegradation | main.py:43-61 | one refresh from the initial state with an EMP event of draw 0.7 leaves a state in which degradation raises `KeyError` on `emp_effect` |
| Degradation.DegradeIntended | main.py:54-69 | with every state field bound to its model of main.py:18-22, the corrected pipeline always yields a value in [-100, -30]; an EMP effect above 0.8 forces -100 whatever the other intensities; with nothing active it returns the clipped input |
| Scanning.ScanInterval | main.py:141-152 | the interval is 0.5 iff the EMP effect exceeds 0.5; 0.7 iff it does not and the storm exceeds 0.7; 1.0 otherwise; always within [0.5, 1.0] |
| Scanning.ScanIntervalAntitone | main.py:146-152 | raising the EMP effect or the storm never lengthens the scan interval |
| Scanning.ScanIgnoresSolarFlare | main.py:141-152 | the solar flare has no influence on the scan interval |
| Scanning.EmpRuleWinsExample | main.py:146-147 | with EMP 0.6 and storm 0.9 the EMP rule wins and the interval is 0.5 |
| Impact.OverallImpact | main.py:112 | the overall impact lies between the weakest and the strongest intensity, and in [0, 1] for a valid state |
| Impact.Alert | main.py:124 | the alert is raised iff the three intensities add up to more than 0.9 |
| Impact.AlertNeedsStrongPhenomenon | main.py:124 | an alert implies that some single intensity exceeds 0.3 |
| Impact.SeverePhenomenonAlerts | main.py:124 | in a valid state any single intensity above 0.9 raises the alert on its own |

## Findings

| source | as written | input that shows it | evidently intended | confidence | as-written member | corrected member |
|---|---|---|---|---|---|---|
| main.py:59-61 | the loop looks each state key up in the model table; the state's key `emp_effect` (main.py:12) is not a table key (the table has `emp_pulse`, main.py:21), so any EMP effect above 0.1 raises `KeyError` and no degraded value is returned | the initial state followed by one due refresh whose EMP roll is below 0.05 and whose spike draw is 0.7; then any RSSI | the EMP effect is bound to the `emp_pulse` model: the signal drops by 40 dB per unit, or to -100 above 0.8, and the result is clipped | not executed | Degradation.EmpSpikeBreaksDegradation | Degradation.DegradeIntended |

## Left out

- HTTP fetching and JSON parsing (main.py:33-35) become the `Refresh.FetchOutcome` parameter. `Raises` covers every exception raised before the state changes: network errors, a body that is not JSON, a last record with no `kp` field, and a `kp` value that is not a number (it would raise at main.py:37).
- Random number generation (`np.random.normal`, `np.random.rand`) becomes fields of `Refresh.Tick` plus the `jitter` parameter. Only the clip of each draw and the 0.05 spike test are modelled. The geomagnetic model takes one jitter draw per degradation call, because its key appears only once in the dictionary.
- The clock (`time.time()`) becomes `Tick.now`.
- IEEE floating-point rounding: intensities, RSSI values and timestamps are exact reals.
- Packet capture, scapy layers, `estimate_position`, `device_signals` storage and the rest of `packet_handler` (main.py:71-96) are I/O glue. So is the catching of the degradation `KeyError` there. The model covers only the repeated refresh calls that `packet_handler` makes (`Refresh.Run`).
- Plotting in `visualize`, the `get_impact_color` colour map and the figure setup (main.py:25, 98-139) are display code. Only the impact mean and the alert test are modelled.
- Logging, including the debug message when the degraded RSSI differs from the raw one (main.py:66-67), has no effect on the state.
- Concurrency and atomicity of refreshes: the source has no locking, and the model is sequential.
