/**
 * The receive loop of `listen_for_data` and the global `weather_data` it
 * updates. Each datagram is decoded and applied in turn; a recognised
 * message is followed by one `weather_update` emit of the new record; and,
 * since the loop catches only KeyboardInterrupt, the first exception a
 * datagram raises ends the loop for good.
 */
module Listener {
  import opened Wrappers
  import opened Json
  import opened Rounding
  import opened Units
  import opened Compass
  import opened Telemetry

  /** A received payload: JSON text, or bytes that `decode('utf-8')` or `json.loads` reject. */
  datatype Datagram = Payload(doc: Value) | Garbled

  function Receive(d: Datagram): Result<Message, PyError> {
    match d
    case Payload(doc) => Decode(doc)
    case Garbled => Failure(ValueError)
  }

  /** The record after a run, the records emitted during it, and the exception that ended it, if any. */
  datatype Trace = Trace(state: Record, emitted: seq<Record>, raised: Option<PyError>)

  /** One pass of the loop body: nothing happens once an exception has ended the loop. */
  function Next(t: Trace, d: Datagram): Trace {
    if t.raised.Some? then t
    else match Receive(d)
      case Failure(e) => Trace(t.state, t.emitted, Some(e))
      case Success(m) =>
        if m.Unhandled? then t
        else
          var next := Apply(t.state, m);
          Trace(next, t.emitted + [next], None)
  }

  /** The loop over `ds`, starting from record `start`, read from the last datagram back. */
  function Run(start: Record, ds: seq<Datagram>): (t: Trace)
    ensures |t.emitted| <= |ds|
    ensures t.emitted != [] ==> t.emitted[|t.emitted| - 1] == t.state
    decreases |ds|
  {
    if ds == [] then Trace(start, [], None)
    else Next(Run(start, ds[..|ds| - 1]), ds[|ds| - 1])
  }

  /** Running one more datagram is one more pass of the loop body. */
  lemma RunExtend(start: Record, ds: seq<Datagram>, i: nat)
    requires i < |ds|
    ensures Run(start, ds[..i + 1]) == Next(Run(start, ds[..i]), ds[i])
  {
    assert ds[..i + 1][..i] == ds[..i];
  }

  /** Once a datagram has raised, later datagrams are never looked at. */
  lemma {:induction false} RunStopsAtRaise(start: Record, ds: seq<Datagram>, k: nat)
    requires k <= |ds| && Run(start, ds[..k]).raised.Some?
    ensures Run(start, ds) == Run(start, ds[..k])
    decreases |ds|
  {
    if k < |ds| {
      var prefix := ds[..|ds| - 1];
      assert prefix[..k] == ds[..k];
      RunStopsAtRaise(start, prefix, k);
    } else {
      assert ds[..k] == ds;
    }
  }

  /** Every record the loop holds or emits is coherent. */
  lemma {:induction false} RunKeepsCoherent(start: Record, ds: seq<Datagram>)
    requires Coherent(start)
    ensures Coherent(Run(start, ds).state)
    ensures forall i :: 0 <= i < |Run(start, ds).emitted| ==> Coherent(Run(start, ds).emitted[i])
    decreases |ds|
  {
    if ds != [] {
      var prefix := ds[..|ds| - 1];
      RunKeepsCoherent(start, prefix);
      var before := Run(start, prefix);
      if before.raised.None? {
        match ds[|ds| - 1]
        case Payload(doc) =>
          if Decode(doc).Success? {
            ApplyPreservesCoherent(before.state, doc);
          }
        case Garbled =>
      }
    }
  }

  /** The record a run ends with is coherent if the one it started with is. */
  lemma KeepsCoherent(start: Record, ds: seq<Datagram>)
    ensures Coherent(start) ==> Coherent(Run(start, ds).state)
  {
    if Coherent(start) {
      RunKeepsCoherent(start, ds);
    }
  }

  /** Starting from the initial record, every record the loop holds or emits is coherent. */
  lemma RunFromInitialCoherent(ds: seq<Datagram>)
    ensures Coherent(Run(InitialRecord, ds).state)
    ensures forall i :: 0 <= i < |Run(InitialRecord, ds).emitted| ==> Coherent(Run(InitialRecord, ds).emitted[i])
  {
    InitialRecordCoherent();
    RunKeepsCoherent(InitialRecord, ds);
  }

  const WindReport: Value :=
    Object(map["type" := Str("rapid_wind"), "ob" := Array([Number(1700000000.0), Number(10.0), Number(180.0)])])

  const ObservationReport: Value :=
    Object(map["type" := Str("obs_st"), "obs" := Array([Array(
      [Number(1700000000.0), Number(1.0), Number(2.0), Number(3.0), Number(180.0), Number(0.0),
       Number(1013.0), Number(20.0), Number(55.0), Number(0.0), Number(5.0)])])])

  lemma DecodeWindReport()
    ensures Decode(WindReport) == Success(RapidWind(10.0, Number(180.0), 180.0))
  {
    var fields := WindReport.fields;
    assert Lookup(fields, "ob") == Success(fields["ob"]);
  }

  lemma DecodeObservationReport()
    ensures Decode(ObservationReport) == Success(Observation(20.0))
  {
    var obs := ObservationReport.fields["obs"];
    assert Subscript(obs, 0) == Success(obs.items[0]);
    assert Subscript(obs.items[0], 7) == Success(Number(20.0));
  }

  /** Running two datagrams is two passes of the loop body. */
  lemma RunTwo(start: Record, d1: Datagram, d2: Datagram)
    ensures Run(start, [d1, d2]) == Next(Next(Trace(start, [], None), d1), d2)
  {
    assert Run(start, [d1]) == Next(Trace(start, [], None), d1) by {
      assert [d1][..0] == [];
    }
    assert Run(start, [d1, d2]) == Next(Run(start, [d1]), d2) by {
      assert [d1, d2][..1] == [d1];
    }
  }

  const WindyRecord: Record :=
    map[GustKey := Number(22.37), CardinalKey := Str("S"), DirectionKey := Number(180.0), TemperatureKey := Null]

  lemma WindReportRecord()
    ensures Next(Trace(InitialRecord, [], None), Payload(WindReport)) == Trace(WindyRecord, [WindyRecord], None)
  {
    DecodeWindReport();
    assert Apply(InitialRecord, RapidWind(10.0, Number(180.0), 180.0)) == WindyRecord by {
      DisplayedReferenceValues();
      NamedBearings();
    }
  }

  lemma ObservationReportRecord(t: Trace)
    requires t.raised.None?
    ensures var next := t.state[TemperatureKey := Number(68.0)];
      Next(t, Payload(ObservationReport)) == Trace(next, t.emitted + [next], None)
  {
    DecodeObservationReport();
    DisplayedReferenceValues();
  }

  /** A 10 m/s gust from 180 degrees, then a 20 degree C observation: both readings end up in the record. */
  lemma ScenarioWindThenObservation()
    ensures var t := Run(InitialRecord, [Payload(WindReport), Payload(ObservationReport)]);
      && t.raised == None
      && |t.emitted| == 2
      && t.state == map[GustKey := Number(22.37), CardinalKey := Str("S"),
                        DirectionKey := Number(180.0), TemperatureKey := Number(68.0)]
  {
    var final := WindyRecord[TemperatureKey := Number(68.0)];
    assert final == map[GustKey := Number(22.37), CardinalKey := Str("S"),
                        DirectionKey := Number(180.0), TemperatureKey := Number(68.0)];
    WindReportRecord();
    ObservationReportRecord(Trace(WindyRecord, [WindyRecord], None));
    RunTwo(InitialRecord, Payload(WindReport), Payload(ObservationReport));
  }

  /** The same two messages the other way round: the rapid_wind update discards the temperature. */
  lemma ScenarioObservationThenWind()
    ensures var t := Run(InitialRecord, [Payload(ObservationReport), Payload(WindReport)]);
      && t.raised == None
      && |t.emitted| == 2
      && t.emitted[0] == InitialRecord[TemperatureKey := Number(68.0)]
      && t.state[TemperatureKey] == Null
  {
    ObservationReportRecord(Trace(InitialRecord, [], None));
    DecodeWindReport();
    RunTwo(InitialRecord, Payload(ObservationReport), Payload(WindReport));
  }

  /** The process-wide listener: the `weather_data` global and the log of emitted updates. */
  class WeatherStation {
    var data: Record
    ghost var Emitted: seq<Record>

    constructor ()
      ensures data == InitialRecord && Emitted == []
    {
      data := InitialRecord;
      Emitted := [];
    }

    /**
     * The loop body for one decoded document. A raised exception leaves the
     * record and the log as they were; an unrecognised tag changes nothing;
     * a recognised message changes the record as `Apply` says and emits it once.
     */
    method Step(doc: Value) returns (r: Result<Outcome, PyError>)
      modifies this
      ensures Decode(doc).Failure? ==>
        r == Failure(Decode(doc).error) && data == old(data) && Emitted == old(Emitted)
      ensures Decode(doc).Success? ==>
        && r == Success(OutcomeOf(Decode(doc).value))
        && data == Apply(old(data), Decode(doc).value)
        && Emitted == old(Emitted) + (if r.value == Published then [data] else [])
      ensures Coherent(old(data)) ==> Coherent(data)
    {
      if !doc.Object? {
        return Failure(AttributeError);
      }
      var tag := Get(doc.fields, "type");
      if tag == Str("rapid_wind") {
        var ob :- Lookup(doc.fields, "ob");
        var gust :- Subscript(ob, 1);
        var gustMps :- Numeric(gust);
        var direction :- Subscript(ob, 2);
        var bearing :- Numeric(direction);
        data := map[GustKey := Number(RoundTo2(MpsToMph(gustMps))),
                    CardinalKey := Str(CardinalDirection(bearing)),
                    DirectionKey := direction,
                    TemperatureKey := Null];
        Emitted := Emitted + [data];
        r := Success(Published);
        if Coherent(old(data)) {
          ApplyPreservesCoherent(old(data), doc);
        }
      } else if tag == Str("obs_st") {
        var obs :- Lookup(doc.fields, "obs");
        var sample :- Subscript(obs, 0);
        var reading :- Subscript(sample, 7);
        var celsius :- Numeric(reading);
        data := data[TemperatureKey := Number(RoundTo2(CelsiusToFahrenheit(celsius)))];
        Emitted := Emitted + [data];
        r := Success(Published);
        if Coherent(old(data)) {
          ApplyPreservesCoherent(old(data), doc);
        }
      } else {
        r := Success(Ignored);
      }
    }

    /**
     * The receive loop over the datagrams that arrive. It returns the
     * exception that ended it, or None if it is still listening after the
     * last one.
     */
    method Listen(datagrams: seq<Datagram>) returns (raised: Option<PyError>)
      modifies this
      ensures data == Run(old(data), datagrams).state
      ensures Emitted == old(Emitted) + Run(old(data), datagrams).emitted
      ensures raised == Run(old(data), datagrams).raised
      ensures Coherent(old(data)) ==> Coherent(data)
    {
      ghost var start, log := data, Emitted;
      ghost var produced: seq<Record> := [];
      var i := 0;
      while i < |datagrams|
        invariant 0 <= i <= |datagrams|
        invariant Emitted == log + produced
        invariant Run(start, datagrams[..i]) == Trace(data, produced, None)
      {
        ghost var before := Trace(data, produced, None);
        RunExtend(start, datagrams, i);
        var r: Result<Outcome, PyError>;
        match datagrams[i] {
          case Payload(doc) => r := Step(doc);
          case Garbled => r := Failure(ValueError);
        }
        if r.Failure? {
          assert Run(start, datagrams[..i + 1]) == Trace(data, produced, Some(r.error));
          RunStopsAtRaise(start, datagrams, i + 1);
          KeepsCoherent(start, datagrams);
          return Some(r.error);
        }
        if r.value == Published {
          produced := produced + [data];
        }
        assert Next(before, datagrams[i]) == Trace(data, produced, None);
        i := i + 1;
      }
      assert datagrams[..i] == datagrams;
      KeepsCoherent(start, datagrams);
      return None;
    }
  }
}
