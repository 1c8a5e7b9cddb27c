/** The dashboard as a whole (src/App.tsx): the state the root component
    owns, driven by a sequence of events, each an operator command or a
    timer tick with its clock reading and random draws. */
module Session {
  import opened Base
  import opened Seqs
  import opened Plant
  import opened Commands
  import opened Telemetry
  import TemperatureControl

  /** The operator actions the child components hand back to the root. */
  datatype Command =
    | ChangeTarget(temp: int)
    | ChangePower(power: int)
    | ToggleHeater(active: bool)
    | ChangePathway(pathway: Pathway)
    | Stop
    | AcknowledgeAlert(id: string)

  datatype Event = Operator(cmd: Command) | Timer(now: string, d: Draws)

  /** The root component's handler for one command. Commands never touch
      the history windows. */
  function Apply(s: AppState, cmd: Command): (r: AppState)
    ensures r.temperatureData == s.temperatureData && r.productionData == s.productionData
    ensures r.pathway.condensationStatus.oilOutput == s.pathway.condensationStatus.oilOutput
    ensures s.safety.systemStatus.emergencyStop ==> r.safety.systemStatus.emergencyStop
  {
    match cmd
    case ChangeTarget(temp) => s.(process := SetTarget(s.process, temp))
    case ChangePower(power) => s.(process := SetPower(s.process, power))
    case ToggleHeater(active) => s.(process := ToggleHeating(s.process, active))
    case ChangePathway(p) => s.(pathway := SetPathway(s.pathway, p))
    case Stop => EmergencyStop(s)
    case AcknowledgeAlert(id) => s.(safety := s.safety.(alerts := Acknowledge(s.safety.alerts, id)))
  }

  function Step(s: AppState, e: Event): AppState {
    match e
    case Operator(cmd) => Apply(s, cmd)
    case Timer(now, d) => Tick(s, now, d)
  }

  function Run(s: AppState, es: seq<Event>): AppState
    decreases |es|
  {
    if |es| == 0 then s else Run(Step(s, es[0]), es[1..])
  }

  /** What holds of every state the dashboard reaches: the pathway flags
      follow the selection, the readings stay in their bands, the windows
      hold at most `Capacity` samples with oil to a tenth, and the oil
      output the timer reads is the one it started with. */
  predicate Inv(s: AppState) {
    && PathwayConsistent(s.pathway)
    && 200 <= s.process.temperature <= 700
    && 85.0 <= s.process.pressure <= 105.0
    && 20.0 <= s.process.flowRate <= 35.0
    && |s.temperatureData| <= Capacity
    && |s.productionData| <= Capacity
    && (forall i :: 0 <= i < |s.productionData| ==> OnTenthGrid(s.productionData[i].oil))
    && s.pathway.condensationStatus.oilOutput == InitialPathway().condensationStatus.oilOutput
  }

  lemma InitialInv()
    ensures Inv(Initial())
  {
    RoundOfInteger(80);
    RoundOfInteger(100);
    RoundOfInteger(120);
    assert 8.0 == 80 as real / 10.0 && 10.0 == 100 as real / 10.0 && 12.0 == 120 as real / 10.0;
  }

  /** Every command keeps the invariant. */
  lemma ApplyKeepsInv(s: AppState, cmd: Command)
    requires Inv(s)
    ensures Inv(Apply(s, cmd))
  {
  }

  /** A push keeps "every oil reading is on the tenth grid" when the new
      sample's reading is. */
  lemma PushKeepsGrid(buf: seq<ProductionSample>, q: ProductionSample)
    requires forall i :: 0 <= i < |buf| ==> OnTenthGrid(buf[i].oil)
    requires OnTenthGrid(q.oil)
    ensures forall i :: 0 <= i < |Push(buf, q)| ==> OnTenthGrid(Push(buf, q)[i].oil)
  {
    var w := Push(buf, q);
    forall i | 0 <= i < |w| ensures OnTenthGrid(w[i].oil) {
      if i < |w| - 1 {
        assert w[i] == buf[|buf| - (|w| - 1) + i];
      }
    }
  }

  /** Every tick keeps the invariant, whatever the draws and the clock. */
  lemma TickKeepsInv(s: AppState, now: string, d: Draws)
    requires Inv(s)
    ensures Inv(Tick(s, now, d))
  {
    var q := NextProductionSample(s.productionData, s.pathway.condensationStatus.oilOutput, now, d);
    PushKeepsGrid(s.productionData, q);
  }

  lemma StepKeepsInv(s: AppState, e: Event)
    requires Inv(s)
    ensures Inv(Step(s, e))
  {
    match e
    case Operator(cmd) => ApplyKeepsInv(s, cmd);
    case Timer(now, d) => TickKeepsInv(s, now, d);
  }

  /** Any run of events from a state satisfying the invariant keeps it, and
      an emergency stop, once latched, stays latched. */
  lemma {:induction false} RunKeepsInv(s: AppState, es: seq<Event>)
    requires Inv(s)
    ensures Inv(Run(s, es))
    ensures s.safety.systemStatus.emergencyStop ==> Run(s, es).safety.systemStatus.emergencyStop
    decreases |es|
  {
    if |es| > 0 {
      StepKeepsInv(s, es[0]);
      RunKeepsInv(Step(s, es[0]), es[1..]);
    }
  }

  /** Every state the dashboard can reach satisfies the invariant. */
  lemma Reachable(es: seq<Event>)
    ensures Inv(Run(Initial(), es))
  {
    InitialInv();
    RunKeepsInv(Initial(), es);
  }

  /** After an emergency stop, switching the heater back on resumes the
      process: it runs and heats again, while the E-Stop flag stays set. */
  lemma StopThenHeat(s: AppState)
    ensures var r := Run(s, [Operator(Stop), Operator(ToggleHeater(true))]);
      && r.process.processStatus == Running
      && r.process.isHeatingActive
      && r.safety.systemStatus.emergencyStop
  {
    assert [Operator(Stop), Operator(ToggleHeater(true))][1..] == [Operator(ToggleHeater(true))];
  }

  /** A command the panels can send in state `s`: the target, power and
      preset controls are disabled while the heater is off; the switches,
      pathway buttons, stop and ACK buttons are always live. */
  predicate Allowed(s: AppState, cmd: Command) {
    match cmd
    case ChangeTarget(_) => !TemperatureControl.ControlsDisabled(s.process.isHeatingActive)
    case ChangePower(_) => !TemperatureControl.ControlsDisabled(s.process.isHeatingActive)
    case _ => true
  }

  /** While the heater is off, nothing the panels can send moves the target
      or the power setting. */
  lemma HeaterOffFreezesSettings(s: AppState, cmd: Command)
    requires !s.process.isHeatingActive && Allowed(s, cmd)
    ensures Apply(s, cmd).process.targetTemperature == s.process.targetTemperature
    ensures Apply(s, cmd).process.heatingPower == s.process.heatingPower
  {
  }

  /** The oil output never changes, so the tick that reads it from an older
      render sees the same value as the current state holds. */
  lemma {:induction false} OilOutputConstant(s: AppState, es: seq<Event>)
    ensures Run(s, es).pathway.condensationStatus.oilOutput == s.pathway.condensationStatus.oilOutput
    decreases |es|
  {
    if |es| > 0 {
      OilOutputConstant(Step(s, es[0]), es[1..]);
    }
  }
}
