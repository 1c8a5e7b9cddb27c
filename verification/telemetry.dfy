/** The simulator's timer step (src/App.tsx, the `setInterval` callback):
    a clamped random walk of temperature, pressure and flow, and one new
    sample appended to each history window. The five `Math.random()` draws
    and the clock reading are parameters. */
module Telemetry {
  import opened Base
  import opened Seqs
  import opened Plant

  /** The five `Math.random()` values one tick consumes. */
  datatype Draws = Draws(temperature: Random, pressure: Random, flow: Random, syngas: Random, solidChar: Random)

  /** `Math.max(lo, Math.min(hi, x + (r - 0.5) * span))`: a step of at most
      `span / 2` either way, kept inside [lo, hi]. */
  function Walk(x: real, r: Random, span: real, lo: real, hi: real): (v: real)
    requires lo <= hi
    ensures lo <= v <= hi
    ensures lo <= x <= hi && span >= 0.0 ==> x - span / 2.0 <= v <= x + span / 2.0
  {
    assert span >= 0.0 ==> -span / 2.0 <= (r - 0.5) * span <= span / 2.0 by {
      if span >= 0.0 {
        assert (1.0 - r) * span >= 0.0 && r * span >= 0.0;
      }
    }
    Clamp(lo, hi, x + (r - 0.5) * span)
  }

  /** `a || fallback` for a number: zero is falsy. */
  function OrElse(a: real, fallback: real): real { if a != 0.0 then a else fallback }

  /** The production sample of a tick: syngas and char walk from the last
      sample's values (25 and 8 when there is none or the value is 0), oil is
      the condensation pathway's output (12 when it is 0) to one decimal. */
  function NextProductionSample(data: seq<ProductionSample>, oilOutput: real, now: string, d: Draws): (q: ProductionSample)
    ensures q.time == now
    ensures 20 <= q.syngas <= 35 && 5 <= q.solidChar <= 10
    ensures OnTenthGrid(q.oil)
    ensures oilOutput != 0.0 ==> oilOutput - 0.05 < q.oil <= oilOutput + 0.05
    ensures oilOutput == 0.0 ==> q.oil == 12.0
    ensures |data| == 0 || data[|data| - 1].syngas == 0 ==> 24 <= q.syngas <= 26
    ensures |data| == 0 || data[|data| - 1].solidChar == 0 ==> q.solidChar == 8
    ensures |data| > 0 && 20 <= data[|data| - 1].syngas <= 35 ==>
      -1 <= q.syngas - data[|data| - 1].syngas <= 1
    ensures |data| > 0 && 5 <= data[|data| - 1].solidChar <= 10 ==>
      q.solidChar == data[|data| - 1].solidChar
  {
    RoundOfInteger(120);
    var prevSyngas := if |data| > 0 then OrElse(data[|data| - 1].syngas as real, 25.0) else 25.0;
    var prevChar := if |data| > 0 then OrElse(data[|data| - 1].solidChar as real, 8.0) else 8.0;
    var syngas := Walk(prevSyngas, d.syngas, 3.0, 20.0, 35.0);
    var solidChar := Walk(prevChar, d.solidChar, 1.0, 5.0, 10.0);
    RoundWithin(syngas, 20, 35);
    RoundWithin(solidChar, 5, 10);
    ProductionSample(now, Round(syngas), Round10(OrElse(oilOutput, 12.0)), Round(solidChar))
  }

  /** The telemetry part of a tick: temperature to a whole degree, pressure
      and flow to a tenth, each inside its band whatever the draws; the
      heater settings and the status are untouched. */
  function NextProcess(p: ProcessData, d: Draws): (q: ProcessData)
    ensures 200 <= q.temperature <= 700
    ensures 85.0 <= q.pressure <= 105.0 && OnTenthGrid(q.pressure)
    ensures 20.0 <= q.flowRate <= 35.0 && OnTenthGrid(q.flowRate)
    ensures 85.0 <= p.pressure <= 105.0 ==> -2.55 <= q.pressure - p.pressure <= 2.55
    ensures 20.0 <= p.flowRate <= 35.0 ==> -1.55 <= q.flowRate - p.flowRate <= 1.55
    ensures q.(temperature := p.temperature, pressure := p.pressure, flowRate := p.flowRate) == p
  {
    var newTemp := Walk(p.temperature as real, d.temperature, 10.0, 200.0, 700.0);
    var newPressure := Walk(p.pressure, d.pressure, 5.0, 85.0, 105.0);
    var newFlow := Walk(p.flowRate, d.flow, 3.0, 20.0, 35.0);
    RoundWithin(newTemp, 200, 700);
    Round10Within(newPressure, 85, 105);
    Round10Within(newFlow, 20, 35);
    p.(temperature := Round(newTemp), pressure := Round10(newPressure), flowRate := Round10(newFlow))
  }

  /** One timer tick, whatever the draws: readings inside their bands and
      the heater settings and status untouched; each window gains one sample
      at the end and keeps the most recent ones from before, at most
      `Capacity` in all; the temperature sample records the new temperature
      against the target in force, with 500 standing in for 0; the
      production sample is the one `NextProductionSample` describes; the
      pathways and the safety panel are untouched. */
  function Tick(s: AppState, now: string, d: Draws): (r: AppState)
    ensures r.process == NextProcess(s.process, d)
    ensures 200 <= r.process.temperature <= 700
    ensures 85.0 <= r.process.pressure <= 105.0 && OnTenthGrid(r.process.pressure)
    ensures 20.0 <= r.process.flowRate <= 35.0 && OnTenthGrid(r.process.flowRate)
    ensures r.process.(temperature := s.process.temperature, pressure := s.process.pressure,
                       flowRate := s.process.flowRate) == s.process
    ensures r.pathway == s.pathway && r.safety == s.safety
    ensures 1 <= |r.temperatureData| <= Capacity && 1 <= |r.productionData| <= Capacity
    ensures r.temperatureData[..|r.temperatureData| - 1] == Last(s.temperatureData, Capacity - 1)
    ensures r.productionData[..|r.productionData| - 1] == Last(s.productionData, Capacity - 1)
    ensures var t := r.temperatureData[|r.temperatureData| - 1];
      && t.time == now && t.temperature == r.process.temperature
      && t.target == (if s.process.targetTemperature == 0 then 500 else s.process.targetTemperature)
    ensures r.productionData[|r.productionData| - 1] ==
      NextProductionSample(s.productionData, s.pathway.condensationStatus.oilOutput, now, d)
  {
    var q := NextProcess(s.process, d);
    var tempSample := TemperatureSample(now, q.temperature,
      if s.process.targetTemperature != 0 then s.process.targetTemperature else 500);
    var prodSample := NextProductionSample(s.productionData, s.pathway.condensationStatus.oilOutput, now, d);
    s.(process := q,
       temperatureData := Push(s.temperatureData, tempSample),
       productionData := Push(s.productionData, prodSample))
  }

  /** From an in-range whole temperature, one tick moves it by at most 5
      degrees. */
  lemma TickStepBounded(p: ProcessData, d: Draws)
    requires 200 <= p.temperature <= 700
    ensures -5 <= NextProcess(p, d).temperature - p.temperature <= 5
  {
  }
}
