/** The analytics page (src/components/Analytics.tsx): its own, more lenient
    sanitisers, the derived efficiency and energy series, the production
    distribution, the temperature-stability figure and the trend flags.
    The `Math.random()` draws of the two derived series are parameters. */
module Analytics {
  import opened Base
  import opened Seqs
  import opened Samples
  import ProcessMonitoring
  import Telemetry

  /** `Number(x) || 0` on a value `typeof` calls a number: NaN and 0 both
      become 0. */
  function NumberOrZero(x: JsNumber): (v: real)
    requires x.IsNumberTyped()
    ensures x.NaN? ==> v == 0.0
    ensures x.Num? ==> v == x.value
  {
    if x.Num? then x.value else 0.0
  }

  function Abs(x: real): (r: real)
    ensures r >= 0.0 && (r == x || r == -x)
  {
    if x < 0.0 then -x else x
  }

  /** An entry the analytics page keeps: present, with readings `typeof`
      calls numbers (NaN included) and a non-empty time label. */
  predicate SafeTemperature(e: RawTemperature) {
    e.RawTemperature? && e.temperature.IsNumberTyped() && e.target.IsNumberTyped() && e.time != ""
  }

  predicate SafeProduction(e: RawProduction) {
    e.RawProduction? && e.syngas.IsNumberTyped() && e.oil.IsNumberTyped() && e.solidChar.IsNumberTyped() && e.time != ""
  }

  datatype TemperatureRow = TemperatureRow(time: string, temperature: real, target: real, variance: real)

  datatype ProductionRow = ProductionRow(time: string, syngas: real, oil: real, solidChar: real, total: real)

  /** A kept temperature entry: NaN read as 0, and the distance between
      reading and target as its variance. */
  function TemperatureRowOf(e: RawTemperature): (row: TemperatureRow)
    requires SafeTemperature(e)
    ensures row.time == e.time
    ensures row.temperature == NumberOrZero(e.temperature) && row.target == NumberOrZero(e.target)
    ensures row.variance >= 0.0
    ensures row.temperature == row.target + row.variance || row.target == row.temperature + row.variance
  {
    var t := NumberOrZero(e.temperature);
    var g := NumberOrZero(e.target);
    TemperatureRow(e.time, t, g, Abs(t - g))
  }

  /** A kept production entry: NaN read as 0, and the three outputs summed. */
  function ProductionRowOf(e: RawProduction): (row: ProductionRow)
    requires SafeProduction(e)
    ensures row.time == e.time
    ensures row.syngas == NumberOrZero(e.syngas) && row.oil == NumberOrZero(e.oil)
      && row.solidChar == NumberOrZero(e.solidChar)
    ensures row.total == row.syngas + row.oil + row.solidChar
  {
    var s := NumberOrZero(e.syngas);
    var o := NumberOrZero(e.oil);
    var c := NumberOrZero(e.solidChar);
    ProductionRow(e.time, s, o, c, s + o + c)
  }

  /** `safeTemperatureData`. */
  function SafeTemperatures(data: seq<RawTemperature>): (r: seq<TemperatureRow>)
    ensures |r| <= |data|
    ensures forall i :: 0 <= i < |r| ==> r[i].variance >= 0.0 && r[i].time != ""
  {
    var v := Filter(data, SafeTemperature);
    seq(|v|, i requires 0 <= i < |v| => TemperatureRowOf(v[i]))
  }

  /** `safeProductionData`. */
  function SafeProductions(data: seq<RawProduction>): (r: seq<ProductionRow>)
    ensures |r| <= |data|
    ensures forall i :: 0 <= i < |r| ==> r[i].total == r[i].syngas + r[i].oil + r[i].solidChar
  {
    var v := Filter(data, SafeProduction);
    seq(|v|, i requires 0 <= i < |v| => ProductionRowOf(v[i]))
  }

  /** Entry by entry: one entry is kept exactly when it is safe; and the
      rows of a concatenation are the rows of each part, in order. */
  lemma SafeTemperaturesCompose(e: RawTemperature, a: seq<RawTemperature>, b: seq<RawTemperature>)
    ensures SafeTemperatures([e]) == if SafeTemperature(e) then [TemperatureRowOf(e)] else []
    ensures SafeTemperatures(a + b) == SafeTemperatures(a) + SafeTemperatures(b)
  {
    assert Filter([e], SafeTemperature) == (if SafeTemperature(e) then [e] else []) + Filter([e][1..], SafeTemperature);
    FilterConcat(a, b, SafeTemperature);
  }

  lemma SafeProductionsCompose(e: RawProduction, a: seq<RawProduction>, b: seq<RawProduction>)
    ensures SafeProductions([e]) == if SafeProduction(e) then [ProductionRowOf(e)] else []
    ensures SafeProductions(a + b) == SafeProductions(a) + SafeProductions(b)
  {
    assert Filter([e], SafeProduction) == (if SafeProduction(e) then [e] else []) + Filter([e][1..], SafeProduction);
    FilterConcat(a, b, SafeProduction);
  }

  /** Unlike the monitoring cards, a NaN reading is kept here (as 0): an
      entry the analytics page keeps is dropped by the monitoring card. */
  lemma NaNKeptHere(time: string)
    requires time != ""
    ensures var e := RawTemperature(time, NaN, Num(500.0));
      SafeTemperatures([e]) == [TemperatureRow(time, 0.0, 500.0, 500.0)]
      && ProcessMonitoring.ValidTemperatures([e]) == []
  {
    var e := RawTemperature(time, NaN, Num(500.0));
    SafeTemperaturesCompose(e, [], []);
    ProcessMonitoring.ValidTemperaturesSingle(e);
  }

  /** The analytics page is the more lenient one: it keeps at least as many
      temperature entries as the monitoring card. */
  lemma SafeKeepsMore(data: seq<RawTemperature>)
    ensures |ProcessMonitoring.ValidTemperatures(data)| <= |SafeTemperatures(data)|
  {
    FilterWeaker(data, ProcessMonitoring.ValidTemperature, SafeTemperature);
  }

  /** One point of the efficiency chart. */
  datatype EfficiencyPoint = EfficiencyPoint(time: string, efficiency: real, target: real)

  /** One point of the energy chart. */
  datatype EnergyPoint = EnergyPoint(time: string, consumption: real, efficiency: real)

  /** `efficiencyData`: one point per kept temperature row, the efficiency
      jittered by up to 5 around the reported one and kept in [60, 95],
      against a target of 85. */
  function EfficiencySeries(rows: seq<TemperatureRow>, efficiency: real, draws: seq<Random>): (r: seq<EfficiencyPoint>)
    requires |draws| == |rows|
    ensures |r| == |rows|
    ensures forall i :: 0 <= i < |r| ==> r[i].time == rows[i].time
    ensures forall i :: 0 <= i < |r| ==> 60.0 <= r[i].efficiency <= 95.0 && r[i].target == 85.0
    ensures 60.0 <= efficiency <= 95.0 ==>
      forall i :: 0 <= i < |r| ==> efficiency - 5.0 <= r[i].efficiency <= efficiency + 5.0
  {
    seq(|rows|, i requires 0 <= i < |rows| =>
      EfficiencyPoint(rows[i].time, Telemetry.Walk(efficiency, draws[i], 10.0, 60.0, 95.0), 85.0))
  }

  /** `energyData`: one point per kept temperature row, consumption
      jittered by up to 10 around 75 and kept in [60, 90], with the matching
      efficiency point's value (80 when there is none or it is 0). */
  function EnergySeries(rows: seq<TemperatureRow>, eff: seq<EfficiencyPoint>, draws: seq<Random>): (r: seq<EnergyPoint>)
    requires |draws| == |rows|
    ensures |r| == |rows|
    ensures forall i :: 0 <= i < |r| ==> r[i].time == rows[i].time
    ensures forall i :: 0 <= i < |r| ==> 65.0 <= r[i].consumption <= 85.0
  {
    seq(|rows|, i requires 0 <= i < |rows| =>
      EnergyPoint(rows[i].time,
        Telemetry.Walk(75.0, draws[i], 20.0, 60.0, 90.0),
        if i < |eff| then Telemetry.OrElse(eff[i].efficiency, 80.0) else 80.0))
  }

  /** The 80 fallback never applies: every efficiency point is at least 60,
      so the energy chart repeats the efficiency chart's values. */
  lemma EnergyRepeatsEfficiency(rows: seq<TemperatureRow>, efficiency: real, d1: seq<Random>, d2: seq<Random>)
    requires |d1| == |rows| && |d2| == |rows|
    ensures var eff := EfficiencySeries(rows, efficiency, d1);
      var energy := EnergySeries(rows, eff, d2);
      forall i :: 0 <= i < |rows| ==> energy[i].efficiency == eff[i].efficiency
  {
  }

  /** One slice of the production pie. */
  datatype Slice = Slice(name: string, value: real)

  /** `productionDistribution`: the latest row's three outputs, or nothing
      when there is no row. */
  function Distribution(rows: seq<ProductionRow>): (r: seq<Slice>)
    ensures |r| == 0 <==> |rows| == 0
    ensures |r| == 0 || |r| == 3
    ensures |rows| > 0 ==>
      && r[0] == Slice("Syngas", rows[|rows| - 1].syngas)
      && r[1] == Slice("Pyrolysis Oil", rows[|rows| - 1].oil)
      && r[2] == Slice("Solid Char", rows[|rows| - 1].solidChar)
  {
    if |rows| == 0 then []
    else
      var last := rows[|rows| - 1];
      [Slice("Syngas", last.syngas), Slice("Pyrolysis Oil", last.oil), Slice("Solid Char", last.solidChar)]
  }

  /** The pie adds up to the latest row's total. */
  lemma DistributionSumsToTotal(data: seq<RawProduction>)
    requires |SafeProductions(data)| > 0
    ensures var rows := SafeProductions(data);
      var d := Distribution(rows);
      d[0].value + d[1].value + d[2].value == rows[|rows| - 1].total
  {
  }

  /** Sum of `100 - variance` over the rows. */
  function Closeness(rows: seq<TemperatureRow>): real {
    if |rows| == 0 then 0.0 else Closeness(rows[..|rows| - 1]) + (100.0 - rows[|rows| - 1].variance)
  }

  /** The temperature-stability figure: the mean of `100 - variance`, or 0
      when there is no row. */
  function Stability(rows: seq<TemperatureRow>): (r: real)
    ensures |rows| == 0 ==> r == 0.0
  {
    if |rows| == 0 then 0.0 else Closeness(rows) / (|rows| as real)
  }

  /** Each row contributes between `100 - bound` and 100. */
  lemma {:induction false} ClosenessBounds(rows: seq<TemperatureRow>, bound: real)
    requires forall i :: 0 <= i < |rows| ==> 0.0 <= rows[i].variance <= bound
    ensures (100.0 - bound) * (|rows| as real) <= Closeness(rows) <= 100.0 * (|rows| as real)
  {
    if |rows| > 0 {
      ClosenessBounds(rows[..|rows| - 1], bound);
    }
  }

  /** Stability is at most 100, reached when every reading is on target, and
      at least `100 - bound` when no reading is further than `bound` from
      its target. */
  lemma StabilityBounds(data: seq<RawTemperature>, bound: real)
    requires forall i :: 0 <= i < |SafeTemperatures(data)| ==> SafeTemperatures(data)[i].variance <= bound
    requires |SafeTemperatures(data)| > 0
    ensures 100.0 - bound <= Stability(SafeTemperatures(data)) <= 100.0
  {
    var rows := SafeTemperatures(data);
    ClosenessBounds(rows, bound);
    var n := |rows| as real;
    DivideBounds(Closeness(rows), 100.0 - bound, 100.0, n);
  }

  lemma DivideBounds(x: real, lo: real, hi: real, n: real)
    requires n > 0.0 && lo * n <= x <= hi * n
    ensures lo <= x / n <= hi
  {
    assert x / n * n == x;
  }

  datatype Direction = Up | Down | Stable

  /** The efficiency tile's trend: up above 80, down otherwise. */
  function EfficiencyTrend(efficiency: real): (d: Direction)
    ensures d == Up <==> efficiency > 80.0
    ensures d == Down <==> efficiency <= 80.0
  {
    if efficiency > 80.0 then Up else Down
  }

  /** The uptime tile's trend: up above 95, down otherwise. */
  function UptimeTrend(uptime: real): (d: Direction)
    ensures d == Up <==> uptime > 95.0
    ensures d == Down <==> uptime <= 95.0
  {
    if uptime > 95.0 then Up else Down
  }

  /** An efficiency tile that trends up is also rated at least Good by the
      monitoring card's badge. */
  lemma TrendAgreesWithBadge(efficiency: real)
    requires EfficiencyTrend(efficiency) == Up
    ensures ProcessMonitoring.EfficiencyBadge(efficiency).0 != ProcessMonitoring.NeedsAttention
  {
  }
}
