/** The four overview cards (src/components/Code-component-3-90.tsx):
    temperature bar, pressure band, flow bar, and the status dot and label. */
module ProcessOverview {
  import opened Base
  import opened Text
  import opened Plant
  import opened Telemetry
  import TemperatureControl

  /** The name a status carries in the source (`'running'`, ...). */
  function StatusName(st: ProcessStatus): string {
    match st
    case Running => "running"
    case Idle => "idle"
    case Shutdown => "shutdown"
    case Maintenance => "maintenance"
  }

  /** `getStatusColor`: defined for every string, grey for an unknown one. */
  function StatusColor(status: string): (tone: Tone)
    ensures status == "running" ==> tone == Green
    ensures status == "idle" ==> tone == Yellow
    ensures status == "shutdown" ==> tone == Red
    ensures status == "maintenance" ==> tone == Blue
    ensures tone == Gray <==> status !in ["running", "idle", "shutdown", "maintenance"]
  {
    if status == "running" then Green
    else if status == "idle" then Yellow
    else if status == "shutdown" then Red
    else if status == "maintenance" then Blue
    else Gray
  }

  /** Every status gets a colour of its own, none of them the default
      grey: running green, idle yellow, shutdown red, maintenance blue. */
  lemma StatusColorsDistinct(a: ProcessStatus, b: ProcessStatus)
    ensures StatusColor(StatusName(a)) != Gray
    ensures StatusColor(StatusName(a)) == StatusColor(StatusName(b)) <==> a == b
    ensures StatusColor(StatusName(Running)) == Green && StatusColor(StatusName(Shutdown)) == Red
  {
  }

  /** `processStatus.toUpperCase()`. */
  function StatusLabel(st: ProcessStatus): (text: string)
    ensures |text| == |StatusName(st)|
    ensures forall i :: 0 <= i < |text| ==> !('a' <= text[i] <= 'z') && text[i] == UpperChar(StatusName(st)[i])
  {
    ToUpper(StatusName(st))
  }

  /** Different statuses read differently on the badge. */
  lemma StatusLabelsDistinct(a: ProcessStatus, b: ProcessStatus)
    ensures StatusLabel(a) == StatusLabel(b) <==> a == b
  {
    if a != b {
      assert |StatusLabel(a)| != |StatusLabel(b)|;
    }
  }

  /** The running process reads RUNNING. */
  lemma RunningLabel()
    ensures StatusLabel(Running) == "RUNNING"
  {
    var t := StatusLabel(Running);
    var name := StatusName(Running);
    assert forall i :: 0 <= i < |t| ==> t[i] == UpperChar(name[i]);
  }

  datatype PressureBand = High | Normal | Low

  /** The pressure badge: its text and its colour. */
  function PressureBadge(p: real): (b: (PressureBand, Tone))
    ensures b.0 == High <==> p > 110.0
    ensures b.0 == Normal <==> 90.0 < p <= 110.0
    ensures b.0 == Low <==> p <= 90.0
  {
    if p > 110.0 then (High, Red) else if p > 90.0 then (Normal, Yellow) else (Low, Green)
  }

  /** The colour always agrees with the text: red with High, yellow with
      Normal, green with Low. */
  lemma PressureColourAgrees(p: real)
    ensures PressureBadge(p).1 == Red <==> PressureBadge(p).0 == High
    ensures PressureBadge(p).1 == Yellow <==> PressureBadge(p).0 == Normal
    ensures PressureBadge(p).1 == Green <==> PressureBadge(p).0 == Low
  {
  }

  function BandRank(b: PressureBand): nat {
    match b
    case Low => 0
    case Normal => 1
    case High => 2
  }

  /** A higher pressure never shows a lower band. */
  lemma PressureBandMonotone(p: real, q: real)
    requires p <= q
    ensures BandRank(PressureBadge(p).0) <= BandRank(PressureBadge(q).0)
  {
  }

  /** `(flowRate / 50) * 100`: the flow bar, full at 50 L/min and not capped
      beyond. */
  function FlowBar(f: real): (w: real)
    ensures w == 2.0 * f
    ensures f <= 50.0 ==> w <= 100.0
    ensures f > 50.0 ==> w > 100.0
  {
    (f / 50.0) * 100.0
  }

  /** The overview cards of a state the simulator has just produced: the
      temperature bar between 25 and 87.5 percent, the flow bar between 40
      and 70 percent, and the pressure never in the High band. */
  lemma OverviewAfterTick(s: AppState, now: string, d: Draws)
    ensures var p := Tick(s, now, d).process;
      && 25.0 <= TemperatureControl.TemperatureBar(p.temperature as real) <= 87.5
      && 40.0 <= FlowBar(p.flowRate) <= 70.0
      && PressureBadge(p.pressure).0 != High
  {
    var p := Tick(s, now, d).process;
    assert 200.0 <= p.temperature as real <= 700.0;
  }
}
