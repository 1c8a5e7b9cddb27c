/** The monitoring cards (src/.figma_internal/deleted/components/ProcessMonitoring.tsx):
    the two history sanitisers, the latest-sample summaries, the history and
    trend windows, and the efficiency badge. */
module ProcessMonitoring {
  import opened Base
  import opened Seqs
  import opened Plant
  import opened Samples

  /** An entry the temperature card accepts: present, both readings numbers
      and not NaN, and a non-empty time label. */
  predicate ValidTemperature(e: RawTemperature) {
    e.RawTemperature? && e.temperature.Num? && e.target.Num? && e.time != ""
  }

  /** An entry the production card accepts, by the same rule. */
  predicate ValidProduction(e: RawProduction) {
    e.RawProduction? && e.syngas.Num? && e.oil.Num? && e.solidChar.Num? && e.time != ""
  }

  /** An accepted temperature entry with both readings rounded to whole
      degrees and its time label kept. */
  function CleanTemperature(e: RawTemperature): (t: TemperatureSample)
    requires ValidTemperature(e)
    ensures t.time == e.time
    ensures e.temperature.value - 0.5 < t.temperature as real <= e.temperature.value + 0.5
    ensures e.target.value - 0.5 < t.target as real <= e.target.value + 0.5
  {
    TemperatureSample(e.time, Round(e.temperature.value), Round(e.target.value))
  }

  /** An accepted production entry: syngas and char rounded to whole units,
      oil to a tenth. */
  function CleanProduction(e: RawProduction): (q: ProductionSample)
    requires ValidProduction(e)
    ensures q.time == e.time
    ensures e.syngas.value - 0.5 < q.syngas as real <= e.syngas.value + 0.5
    ensures e.solidChar.value - 0.5 < q.solidChar as real <= e.solidChar.value + 0.5
    ensures e.oil.value - 0.05 < q.oil <= e.oil.value + 0.05 && OnTenthGrid(q.oil)
  {
    ProductionSample(e.time, Round(e.syngas.value), Round10(e.oil.value), Round(e.solidChar.value))
  }

  /** `validTemperatureData`: the accepted entries, cleaned, in order. */
  function ValidTemperatures(data: seq<RawTemperature>): (r: seq<TemperatureSample>)
    ensures |r| <= |data|
    ensures forall i :: 0 <= i < |r| ==> r[i].time != ""
  {
    var v := Filter(data, ValidTemperature);
    seq(|v|, i requires 0 <= i < |v| => CleanTemperature(v[i]))
  }

  /** `validProductionData`: the accepted entries, cleaned, in order. */
  function ValidProductions(data: seq<RawProduction>): (r: seq<ProductionSample>)
    ensures |r| <= |data|
    ensures forall i :: 0 <= i < |r| ==> r[i].time != "" && OnTenthGrid(r[i].oil)
  {
    var v := Filter(data, ValidProduction);
    seq(|v|, i requires 0 <= i < |v| => CleanProduction(v[i]))
  }

  /** The sanitiser decides entry by entry: one entry is kept (cleaned)
      exactly when it is valid... */
  lemma ValidTemperaturesSingle(e: RawTemperature)
    ensures ValidTemperatures([e]) == if ValidTemperature(e) then [CleanTemperature(e)] else []
  {
    assert Filter([e], ValidTemperature) == (if ValidTemperature(e) then [e] else []) + Filter([e][1..], ValidTemperature);
  }

  /** ...and the entries kept from a concatenation are those kept from each
      part, in order. */
  lemma ValidTemperaturesConcat(a: seq<RawTemperature>, b: seq<RawTemperature>)
    ensures ValidTemperatures(a + b) == ValidTemperatures(a) + ValidTemperatures(b)
  {
    FilterConcat(a, b, ValidTemperature);
  }

  lemma ValidProductionsSingle(e: RawProduction)
    ensures ValidProductions([e]) == if ValidProduction(e) then [CleanProduction(e)] else []
  {
    assert Filter([e], ValidProduction) == (if ValidProduction(e) then [e] else []) + Filter([e][1..], ValidProduction);
  }

  lemma ValidProductionsConcat(a: seq<RawProduction>, b: seq<RawProduction>)
    ensures ValidProductions(a + b) == ValidProductions(a) + ValidProductions(b)
  {
    FilterConcat(a, b, ValidProduction);
  }

  /** The simulator's own temperature window passes the sanitiser unchanged
      when every sample has a time label: readings are already whole. */
  lemma SimulatorTemperaturesClean(buf: seq<TemperatureSample>)
    requires Labelled(TemperatureTimes(buf))
    ensures ValidTemperatures(TemperatureProps(buf)) == buf
  {
    var raw := TemperatureProps(buf);
    assert forall i :: 0 <= i < |raw| ==> buf[i].time == TemperatureTimes(buf)[i];
    FilterKeepsAll(raw, ValidTemperature);
    var r := ValidTemperatures(raw);
    forall i | 0 <= i < |r| ensures r[i] == buf[i] {
      RoundOfInteger(buf[i].temperature);
      RoundOfInteger(buf[i].target);
    }
  }

  /** The same for the production window: whole syngas and char, oil
      already on the tenth grid. */
  lemma SimulatorProductionsClean(buf: seq<ProductionSample>)
    requires Labelled(ProductionTimes(buf))
    requires forall i :: 0 <= i < |buf| ==> OnTenthGrid(buf[i].oil)
    ensures ValidProductions(ProductionProps(buf)) == buf
  {
    var raw := ProductionProps(buf);
    assert forall i :: 0 <= i < |raw| ==> buf[i].time == ProductionTimes(buf)[i];
    FilterKeepsAll(raw, ValidProduction);
    var r := ValidProductions(raw);
    forall i | 0 <= i < |r| ensures r[i] == buf[i] {
      RoundOfInteger(buf[i].syngas);
      RoundOfInteger(buf[i].solidChar);
      Round10OfGrid(buf[i].oil);
    }
  }

  /** `totalProduction`: syngas, oil and char of the latest accepted sample,
      or 0 when there is none. */
  function TotalProduction(v: seq<ProductionSample>): (total: real)
    ensures |v| == 0 ==> total == 0.0
  {
    if |v| == 0 then 0.0
    else v[|v| - 1].syngas as real + v[|v| - 1].oil + v[|v| - 1].solidChar as real
  }

  /** Appending a sample makes it the one the total is taken from. */
  lemma TotalOfAppended(v: seq<ProductionSample>, q: ProductionSample)
    ensures TotalProduction(v + [q]) == q.syngas as real + q.oil + q.solidChar as real
  {
  }

  /** The history table: the latest six accepted temperature samples. */
  function TemperatureHistory(v: seq<TemperatureSample>): (r: seq<TemperatureSample>)
    ensures |r| <= 6 && (|v| <= 6 ==> r == v)
    ensures |r| == 6 || r == v
    ensures r == v[|v| - |r|..]
  {
    Last(v, 6)
  }

  /** The production trend: the latest three accepted production samples. */
  function ProductionTrend(v: seq<ProductionSample>): (r: seq<ProductionSample>)
    ensures |r| <= 3 && (|v| <= 3 ==> r == v)
    ensures |r| == 3 || r == v
    ensures r == v[|v| - |r|..]
  {
    Last(v, 3)
  }

  /** A card body: the "No ... data available" message or the latest
      sample. */
  datatype Card<T> = NoData | Latest(sample: T)

  /** The card shows a sample exactly when the accepted list is non-empty,
      and then the latest one. */
  function Summary<T>(v: seq<T>): (c: Card<T>)
    ensures c.NoData? <==> |v| == 0
    ensures c.Latest? ==> c.sample == v[|v| - 1]
  {
    if |v| == 0 then NoData else Latest(v[|v| - 1])
  }

  datatype EfficiencyBand = Excellent | Good | NeedsAttention

  /** The efficiency badge: text and colour. */
  function EfficiencyBadge(e: real): (b: (EfficiencyBand, Tone))
    ensures b.0 == Excellent <==> e > 85.0
    ensures b.0 == Good <==> 70.0 < e <= 85.0
    ensures b.0 == NeedsAttention <==> e <= 70.0
    ensures b.1 == (match b.0 case Excellent => Green case Good => Yellow case NeedsAttention => Red)
  {
    if e > 85.0 then (Excellent, Green) else if e > 70.0 then (Good, Yellow) else (NeedsAttention, Red)
  }

  function EfficiencyRank(b: EfficiencyBand): nat {
    match b
    case NeedsAttention => 0
    case Good => 1
    case Excellent => 2
  }

  /** A higher efficiency never earns a worse badge; the plant starts out
      Good. */
  lemma EfficiencyBadgeMonotone(a: real, b: real)
    requires a <= b
    ensures EfficiencyRank(EfficiencyBadge(a).0) <= EfficiencyRank(EfficiencyBadge(b).0)
    ensures EfficiencyBadge(Initial().process.efficiency as real).0 == Good
  {
  }
}
