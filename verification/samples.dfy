/** History entries as the display components receive them. The props are
    declared as arrays of records with numeric fields, but nothing enforces
    that: an entry may be missing (`null`), a field may be NaN or not a
    number at all, and a time label may be empty, which JavaScript treats as
    false. */
module Samples {
  import opened Base
  import opened Plant

  datatype RawTemperature =
    | TemperatureHole
    | RawTemperature(time: string, temperature: JsNumber, target: JsNumber)

  datatype RawProduction =
    | ProductionHole
    | RawProduction(time: string, syngas: JsNumber, oil: JsNumber, solidChar: JsNumber)

  /** A simulator temperature sample handed to a component as a prop. */
  function TemperatureProp(t: TemperatureSample): RawTemperature {
    RawTemperature(t.time, Num(t.temperature as real), Num(t.target as real))
  }

  /** A simulator production sample handed to a component as a prop. */
  function ProductionProp(q: ProductionSample): RawProduction {
    RawProduction(q.time, Num(q.syngas as real), Num(q.oil), Num(q.solidChar as real))
  }

  function TemperatureProps(buf: seq<TemperatureSample>): (r: seq<RawTemperature>)
    ensures |r| == |buf|
    ensures forall i :: 0 <= i < |r| ==> r[i] == TemperatureProp(buf[i])
  {
    seq(|buf|, i requires 0 <= i < |buf| => TemperatureProp(buf[i]))
  }

  function ProductionProps(buf: seq<ProductionSample>): (r: seq<RawProduction>)
    ensures |r| == |buf|
    ensures forall i :: 0 <= i < |r| ==> r[i] == ProductionProp(buf[i])
  {
    seq(|buf|, i requires 0 <= i < |buf| => ProductionProp(buf[i]))
  }

  /** Every sample carries a non-empty time label. */
  predicate Labelled(times: seq<string>) {
    forall i :: 0 <= i < |times| ==> times[i] != ""
  }

  function TemperatureTimes(buf: seq<TemperatureSample>): seq<string> {
    seq(|buf|, i requires 0 <= i < |buf| => buf[i].time)
  }

  function ProductionTimes(buf: seq<ProductionSample>): seq<string> {
    seq(|buf|, i requires 0 <= i < |buf| => buf[i].time)
  }
}
