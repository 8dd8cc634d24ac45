# Tempest hub relay: the receive loop and the compass helper

This project models the core of a small relay for a Tempest weather-station
hub. The hub broadcasts JSON datagrams over UDP multicast. For each datagram
the relay's receive loop updates one global `weather_data` record and emits a
`weather_update` with the new record:

- A `rapid_wind` message replaces the whole record with four keys. These are
  the gust in mph (`ob[1] * 2.23694`, rounded to two decimals), the compass
  name of the bearing `ob[2]`, the bearing itself, and a null temperature.
- An `obs_st` message sets only `temperature_fahrenheit`. The value is
  `obs[0][7]` converted from Celsius and rounded to two decimals.
- Any other `type`, or no `type`, changes nothing and emits nothing.
- `get_cardinal_direction` maps a bearing to one of 16 compass names with
  `round(degrees / 22.5) % 16`. Python's `round` breaks ties towards even.

Modules, leaves first:

- `Wrappers`: `Option` and `Result`.
- `Json`: decoded documents and the Python operations the loop uses on them
  (`get`, `d[k]`, `x[i]`, arithmetic). Each failing operation produces the
  exception Python would raise. A `str` subscript yields a one-character
  string, which then fails arithmetic. `True` and `False` count as numbers.
- `Rounding`: `round(x)` and `round(x, 2)` on exact reals.
- `Units`: m/s to mph and Celsius to Fahrenheit.
- `Compass`: `get_cardinal_direction`.
- `Telemetry`: the record, its initial value, message decoding (`Decode`) and
  the merge (`Apply`).
- `Listener`: the `WeatherStation` class. It holds `data` (the global
  `weather_data`) and a ghost log `Emitted` of the emitted records. `Step` is
  the loop body for one document. `Listen` is the loop itself, proved against
  the function `Run`.

The loop catches only `KeyboardInterrupt`. So any datagram that raises (a
missing key, an array that is too short, a value that is not a number, a
top-level value that is not a dict, bytes that are not UTF-8 JSON) ends the
listener for good. The record and the log stay as they were before that
datagram. `Run` and `Listen` model this.

The model follows the code as written, including these behaviours a reader
might not expect:

- `rapid_wind` discards the temperature and any other key. It does not
  preserve them.
- `obs_st` updates only the temperature.
- A malformed datagram stops the loop instead of being skipped.
- The initial record stores the string `"N"` under `wind_direction` and has no
  `cardinal_direction` key.

## Model

| member | source | states |
|---|---|---|
| `Json.Get` | app.py:42 | `d.get(key)` is the key's value when present and None otherwise |
| `Json.Lookup` | app.py:44 | `d[key]` yields the key's value when present; otherwise it raises KeyError |
| `Json.Subscript` | app.py:44-46 | `x[i]` succeeds exactly on a list or str long enough, yielding the i-th element or a one-character str; otherwise it raises IndexError (list, str), KeyError (dict) or TypeError (anything else) |
| `Json.Numeric` | app.py:45 | arithmetic on a value succeeds exactly for int, float and bool, using its numeric value (True as 1); otherwise it raises TypeError |
| `Rounding.RoundHalfEven` | app.py:80 | `round(x)` is within 1/2 of `x`, and even when `x` is exactly halfway |
| `Rounding.RoundHalfEvenUnique` | app.py:80 | no other integer meets that characterisation, so it defines `round(x)` |
| `Rounding.RoundHalfEvenShift` | app.py:80 | adding an even integer to `x` adds it to `round(x)` |
| `Rounding.RoundHalfEvenMonotone` | app.py:80 | `round` never reverses the order of two values |
| `Rounding.RoundTo2` | app.py:51 | `round(x, 2)` has at most two decimals and is within 0.005 of `x` |
| `Rounding.RoundTo2Unique` | app.py:66 | `round(x, 2)` is n/100 exactly when n is `x * 100` rounded half to even |
| `Rounding.RoundTo2Idempotent` | app.py:66 | a value with two decimals is unchanged by `round(_, 2)` |
| `Rounding.RoundTo2Monotone` | app.py:51 | `round(_, 2)` never reverses the order of two values |
| `Units.DisplayedValuesMonotone` | app.py:45-66 | the stored gust and temperature never decrease as the wind or air-temperature reading increases |
| `Units.DisplayedReferenceValues` | app.py:45-66 | 10 m/s shows as 22.37 mph; 0, 20 and 100 °C show as 32, 68 and 212 °F |
| `Compass.CardinalIndex` | app.py:80 | `round(degrees / 22.5) % 16` lies in 0..15 for every bearing, negative ones included |
| `Compass.CardinalDirection` | app.py:76-81 | the result is always one of the 16 compass names |
| `Compass.NearestPoint` | app.py:78-81 | the name is that of point k mod 16 whenever k is `degrees / 22.5` rounded half to even |
| `Compass.WithinSector` | app.py:80-81 | a bearing strictly within 11.25° of point k gets point k's name |
| `Compass.IndexPeriodic` | app.py:80 | adding whole turns (16 sectors) to the ratio does not change the index |
| `Compass.FullTurn` | app.py:80-81 | adding or subtracting 360° does not change the name |
| `Compass.NamedBearings` | app.py:78-81 | 0° gives N, 22.5° gives NNE, 180° gives S |
| `Compass.WrapAround` | app.py:80-81 | 359° and 360° give N (index 16 wraps to 0); -22.5° gives NNW (index -1 wraps to 15) |
| `Compass.HalfwayBearings` | app.py:80 | ties go to the even index: 11.25° gives N, 33.75° gives NE, 348.75° gives N |
| `Telemetry.Decode` | app.py:42-62 | a non-dict raises AttributeError; a dict with any other tag is ignored, and only such a dict is; a decoded rapid_wind bearing is the number stored as the direction (the full classification is `DecodeClassifies`) |
| `Telemetry.Apply` | app.py:50-66 | rapid_wind leaves exactly the four keys; obs_st adds only `temperature_fahrenheit` to the key set; an ignored message changes nothing (values: `RapidWindReplacesRecord`, `ObservationSetsOnlyTemperature`) |
| `Telemetry.DecodeClassifies` | app.py:42-62 | rapid_wind is read exactly when `ob` is a list with numbers at 1 and 2, obs_st exactly when `obs[0]` is a list with a number at 7, other dicts are ignored, everything else raises |
| `Telemetry.ShortWindArrayRaises` | app.py:44-46 | a rapid_wind `ob` list shorter than 2, or of length 2 with a number at 1, raises IndexError |
| `Telemetry.ShortObservationRaises` | app.py:62 | an empty `obs` list, or a first sample shorter than 8, raises IndexError |
| `Telemetry.RapidWindReplacesRecord` | app.py:42-55 | rapid_wind leaves exactly the four keys: gust mph to two decimals, compass name of `ob[2]`, `ob[2]`, null temperature |
| `Telemetry.RapidWindForgetsState` | app.py:50-55 | the record after rapid_wind does not depend on the record before |
| `Telemetry.ObservationSetsOnlyTemperature` | app.py:60-66 | obs_st sets the temperature to `obs[0][7]` in °F to two decimals and keeps every other key and value |
| `Telemetry.ApplyIdempotent` | app.py:50-66 | applying the same message twice gives the same record as once |
| `Telemetry.InitialRecordCoherent` | app.py:14-18 | the initial record is coherent and has no cardinal name |
| `Telemetry.ApplyPreservesCoherent` | app.py:42-66 | every decoded message keeps the record coherent: known keys only, two-decimal gust and temperature (or null), cardinal name equal to the compass name of the stored direction |
| `Listener.Run` | app.py:37-74 | at most one emit per datagram, and the last record emitted is the record the loop holds (stop at the first raise: `RunStopsAtRaise`; coherence: `RunKeepsCoherent`) |
| `Listener.RunStopsAtRaise` | app.py:37-74 | once a datagram raises, later datagrams change nothing |
| `Listener.RunKeepsCoherent` | app.py:38-69 | every record held or emitted is coherent |
| `Listener.RunFromInitialCoherent` | app.py:14-69 | from the initial record, every record held or emitted is coherent |
| `Listener.ScenarioWindThenObservation` | app.py:42-69 | a 10 m/s gust from 180° then a 20 °C observation give gust 22.37, S, 180 and 68.0, with two emits |
| `Listener.ScenarioObservationThenWind` | app.py:50-66 | the same messages the other way round end with a null temperature |
| `Listener.WeatherStation.constructor` | app.py:14-18 | the record starts as the dict of lines 14-18 (`InitialRecord`, which `InitialRecordCoherent` describes) and nothing has been emitted |
| `Listener.WeatherStation.Step` | app.py:40-69 | an exception leaves the record and the log unchanged; a recognised message sets the record to `Apply` of the decoded message and emits it once; an unrecognised one changes nothing; a coherent record stays coherent |
| `Listener.WeatherStation.Listen` | app.py:37-74 | the loop ends with the record, emitted log and raised exception that `Run` gives; a coherent record stays coherent |

## Left out

- Socket creation, address reuse, the multicast join and `recvfrom` (app.py:28-39, 74) are network I/O. The datagrams are a parameter of `Listen`.
- `data.decode('utf-8')` and `json.loads` (app.py:40) are foreign library code. A payload either arrives decoded (`Payload`) or fails to decode (`Garbled`, raising ValueError).
- `socketio.emit` (app.py:58, 69) is modelled only as an append to the ghost log `Emitted`.
- The Flask route, template rendering, `socketio.run`, the listener thread and the `KeyboardInterrupt` shutdown (app.py:71-95) are web plumbing, concurrency and process control.
- The loop runs forever. `Listen` processes a finite sequence of datagrams and returns `None` when it is still listening after the last one.
- Numbers are exact reals. IEEE-754 rounding is not modelled, so binary effects such as `round(2.675, 2) == 2.67` are absent. The int/float distinction is not kept.
- JSON `NaN` and `Infinity` (which `json.loads` accepts) are not modelled. `round(_, 2)` returns them unchanged (app.py:51, 66), so Python would store and emit a NaN or infinite gust or temperature. The one-argument `round` in the compass (app.py:80) would raise ValueError for NaN and OverflowError for an infinity.
- Float overflow is not modelled. In Python an integer `ob[1]` or `obs[0][7]` too large for a float (such as `10**400`) raises OverflowError at `* 2.23694` or `/5`. A finite float such as `ob[1] = 1e308` gives an infinite gust. The model stores a finite two-decimal value in all these cases.
- Dict key order and duplicate JSON keys are not modelled.
- `Units.DisplayedValuesMonotone`, `Rounding.RoundTo2Monotone`: these are proved for exact reals, not for floats.
