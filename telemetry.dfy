/**
 * The per-datagram logic of the receive loop: which messages are recognised,
 * what each one reads from its positional arrays (and which exception a
 * message that is too short or mistyped raises), and how a recognised
 * message changes the `weather_data` record.
 */
module Telemetry {
  import opened Wrappers
  import opened Json
  import opened Rounding
  import opened Units
  import opened Compass

  /** The `weather_data` dict: string keys, JSON-like values. */
  type Record = map<string, Value>

  const GustKey: string := "wind_gust_mph"
  const CardinalKey: string := "cardinal_direction"
  const DirectionKey: string := "wind_direction"
  const TemperatureKey: string := "temperature_fahrenheit"

  /** The record before any message arrives (note that `wind_direction` starts as the string "N"). */
  const InitialRecord: Record :=
    map[GustKey := Number(0.0), DirectionKey := Str("N"), TemperatureKey := Number(0.0)]

  /** What a datagram asks of the record, once its fields have been read. */
  datatype Message =
    | RapidWind(gustMps: real, direction: Value, bearing: real)  // direction is `ob[2]` as received
    | Observation(celsius: real)                                 // `obs[0][7]`
    | Unhandled                                                  // any other `type`, or none

  /** Whether the loop emits a `weather_update` after a message. */
  datatype Outcome = Published | Ignored

  function OutcomeOf(m: Message): Outcome {
    if m.Unhandled? then Ignored else Published
  }

  /** Reads `ob[1]` and `ob[2]` of a `rapid_wind` message, in the order the source does. */
  function DecodeRapidWind(fields: map<string, Value>): Result<Message, PyError> {
    var ob :- Lookup(fields, "ob");
    var gust :- Subscript(ob, 1);
    var gustMps :- Numeric(gust);
    var direction :- Subscript(ob, 2);
    var bearing :- Numeric(direction);
    Success(RapidWind(gustMps, direction, bearing))
  }

  /** Reads `obs[0][7]`, the air temperature, of an `obs_st` message. */
  function DecodeObservation(fields: map<string, Value>): Result<Message, PyError> {
    var obs :- Lookup(fields, "obs");
    var sample :- Subscript(obs, 0);
    var reading :- Subscript(sample, 7);
    var celsius :- Numeric(reading);
    Success(Observation(celsius))
  }

  /** Dispatch on `json_data.get("type")`. */
  function Decode(doc: Value): (r: Result<Message, PyError>)
    ensures !doc.Object? ==> r == Failure(AttributeError)
    ensures r == Success(Unhandled) <==> IsOtherDocument(doc)
    ensures r.Success? && r.value.RapidWind? ==>
      IsNumber(r.value.direction) && r.value.bearing == AsReal(r.value.direction)
  {
    if !doc.Object? then Failure(AttributeError)
    else if Get(doc.fields, "type") == Str("rapid_wind") then DecodeRapidWind(doc.fields)
    else if Get(doc.fields, "type") == Str("obs_st") then DecodeObservation(doc.fields)
    else Success(Unhandled)
  }

  /** The record after a message: rapid_wind replaces it, obs_st sets one key. */
  function Apply(state: Record, m: Message): (r: Record)
    ensures m.RapidWind? ==> r.Keys == {GustKey, CardinalKey, DirectionKey, TemperatureKey}
    ensures m.Observation? ==> r.Keys == state.Keys + {TemperatureKey}
    ensures m.Unhandled? ==> r == state
  {
    match m
    case RapidWind(gustMps, direction, bearing) =>
      map[GustKey := Number(RoundTo2(MpsToMph(gustMps))),
          CardinalKey := Str(CardinalDirection(bearing)),
          DirectionKey := direction,
          TemperatureKey := Null]
    case Observation(celsius) =>
      state[TemperatureKey := Number(RoundTo2(CelsiusToFahrenheit(celsius)))]
    case Unhandled => state
  }

  /** A well-formed `rapid_wind` document: an `ob` list of at least three entries, numbers at 1 and 2. */
  predicate IsRapidWindReport(doc: Value) {
    && doc.Object?
    && Get(doc.fields, "type") == Str("rapid_wind")
    && "ob" in doc.fields
    && doc.fields["ob"].Array?
    && |doc.fields["ob"].items| >= 3
    && IsNumber(doc.fields["ob"].items[1])
    && IsNumber(doc.fields["ob"].items[2])
  }

  /** A well-formed `obs_st` document: a non-empty `obs` list whose first sample is a list with a number at 7. */
  predicate IsObservationReport(doc: Value) {
    && doc.Object?
    && Get(doc.fields, "type") == Str("obs_st")
    && "obs" in doc.fields
    && doc.fields["obs"].Array?
    && |doc.fields["obs"].items| >= 1
    && doc.fields["obs"].items[0].Array?
    && |doc.fields["obs"].items[0].items| >= 8
    && IsNumber(doc.fields["obs"].items[0].items[7])
  }

  /** A dict whose `type` is neither recognised tag (or is missing). */
  predicate IsOtherDocument(doc: Value) {
    && doc.Object?
    && Get(doc.fields, "type") != Str("rapid_wind")
    && Get(doc.fields, "type") != Str("obs_st")
  }

  /**
   * Decoding classifies every document: it is read as rapid_wind exactly when
   * well-formed as one, as obs_st exactly when well-formed as one, ignored
   * exactly when it is a dict with another tag, and raises otherwise.
   */
  lemma DecodeClassifies(doc: Value)
    ensures Decode(doc).Success? && Decode(doc).value.RapidWind? <==> IsRapidWindReport(doc)
    ensures Decode(doc).Success? && Decode(doc).value.Observation? <==> IsObservationReport(doc)
    ensures Decode(doc) == Success(Unhandled) <==> IsOtherDocument(doc)
    ensures Decode(doc).Failure? <==>
      !IsRapidWindReport(doc) && !IsObservationReport(doc) && !IsOtherDocument(doc)
  {
    if doc.Object? && Get(doc.fields, "type") == Str("obs_st") && "obs" in doc.fields {
      var obs := doc.fields["obs"];
      if Subscript(obs, 0).Success? {
        assert obs.Array? ==> Subscript(obs, 0).value == obs.items[0];
      }
    }
  }

  /** A `rapid_wind` whose `ob` list stops before index 2 raises IndexError (unless `ob[1]` is not a number). */
  lemma ShortWindArrayRaises(fields: map<string, Value>, ob: seq<Value>)
    requires Get(fields, "type") == Str("rapid_wind") && Get(fields, "ob") == Array(ob)
    requires |ob| < 2 || (|ob| == 2 && IsNumber(ob[1]))
    ensures Decode(Object(fields)) == Failure(IndexError)
  {
  }

  /** An `obs_st` whose `obs` list is empty, or whose first sample stops before index 7, raises IndexError. */
  lemma ShortObservationRaises(fields: map<string, Value>, obs: seq<Value>)
    requires Get(fields, "type") == Str("obs_st") && Get(fields, "obs") == Array(obs)
    requires obs == [] || (obs[0].Array? && |obs[0].items| < 8)
    ensures Decode(Object(fields)) == Failure(IndexError)
  {
  }

  /**
   * A well-formed rapid_wind message replaces the record with exactly four
   * keys: the gust in mph to two decimals, the compass name of `ob[2]`,
   * `ob[2]` itself, and a null temperature. Nothing of the old record survives.
   */
  lemma RapidWindReplacesRecord(state: Record, doc: Value)
    requires IsRapidWindReport(doc)
    ensures Decode(doc).Success? && Decode(doc).value.RapidWind?
    ensures var r := Apply(state, Decode(doc).value);
            var ob := doc.fields["ob"].items;
            && r.Keys == {GustKey, CardinalKey, DirectionKey, TemperatureKey}
            && r[GustKey] == Number(RoundTo2(AsReal(ob[1]) * 2.23694))
            && r[CardinalKey] == Str(CardinalDirection(AsReal(ob[2])))
            && r[DirectionKey] == ob[2]
            && r[TemperatureKey] == Null
  {
    DecodeClassifies(doc);
  }

  /** The record after a rapid_wind message does not depend on the record before it. */
  lemma RapidWindForgetsState(s1: Record, s2: Record, m: Message)
    requires m.RapidWind?
    ensures Apply(s1, m) == Apply(s2, m)
  {
  }

  /**
   * A well-formed obs_st message sets `temperature_fahrenheit` to `obs[0][7]`
   * converted to Fahrenheit with two decimals, and leaves every other key and
   * its value as they were.
   */
  lemma ObservationSetsOnlyTemperature(state: Record, doc: Value)
    requires IsObservationReport(doc)
    ensures Decode(doc).Success? && Decode(doc).value.Observation?
    ensures var r := Apply(state, Decode(doc).value);
            var sample := doc.fields["obs"].items[0].items;
            && r.Keys == state.Keys + {TemperatureKey}
            && r[TemperatureKey] == Number(RoundTo2(AsReal(sample[7]) * 9.0 / 5.0 + 32.0))
            && forall k :: k in state && k != TemperatureKey ==> r[k] == state[k]
  {
    DecodeClassifies(doc);
  }

  /** Applying the same message twice gives the same record as applying it once. */
  lemma ApplyIdempotent(state: Record, m: Message)
    ensures Apply(Apply(state, m), m) == Apply(state, m)
  {
  }

  /**
   * What every record the loop can reach looks like: at most the four known
   * keys, always a two-decimal gust, a wind direction and a temperature (null
   * or two decimals), and a cardinal name, when present, that is the compass
   * name of the stored wind direction.
   */
  predicate Coherent(r: Record) {
    && r.Keys <= {GustKey, CardinalKey, DirectionKey, TemperatureKey}
    && GustKey in r && DirectionKey in r && TemperatureKey in r
    && r[GustKey].Number? && IsHundredths(r[GustKey].n)
    && (r[TemperatureKey].Null? || (r[TemperatureKey].Number? && IsHundredths(r[TemperatureKey].n)))
    && (CardinalKey in r ==>
          IsNumber(r[DirectionKey]) && r[CardinalKey] == Str(CardinalDirection(AsReal(r[DirectionKey]))))
  }

  lemma InitialRecordCoherent()
    ensures Coherent(InitialRecord)
    ensures CardinalKey !in InitialRecord
  {
    assert IsHundredths(0.0);
  }

  /** Every decoded message keeps the record coherent. */
  lemma ApplyPreservesCoherent(state: Record, doc: Value)
    requires Coherent(state) && Decode(doc).Success?
    ensures Coherent(Apply(state, Decode(doc).value))
  {
  }
}
