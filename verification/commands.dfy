/** The operator actions of the root component, each a pure update of the
    state it touches (src/App.tsx, the `handle...` callbacks). */
module Commands {
  import opened Plant
  import opened Seqs

  /** Set the heater's target temperature; nothing else changes. */
  function SetTarget(p: ProcessData, temp: int): (r: ProcessData)
    ensures r.targetTemperature == temp
    ensures r.(targetTemperature := p.targetTemperature) == p
  {
    p.(targetTemperature := temp)
  }

  /** Set the heating power; nothing else changes. */
  function SetPower(p: ProcessData, power: int): (r: ProcessData)
    ensures r.heatingPower == power
    ensures r.(heatingPower := p.heatingPower) == p
  {
    p.(heatingPower := power)
  }

  /** Switch the heater on or off: the process runs exactly when it heats,
      and otherwise idles, whatever the status was before (a shut-down
      process that is switched back on runs again). */
  function ToggleHeating(p: ProcessData, active: bool): (r: ProcessData)
    ensures r.isHeatingActive == active
    ensures r.processStatus == Running <==> active
    ensures r.processStatus == Idle <==> !active
    ensures r.(isHeatingActive := p.isHeatingActive, processStatus := p.processStatus) == p
  {
    p.(isHeatingActive := active, processStatus := if active then Running else Idle)
  }

  /** Select a pathway: the two `isActive` flags follow the selection and
      every other field of the two subsystems is kept. */
  function SetPathway(s: PathwayState, p: Pathway): (r: PathwayState)
    ensures r.activePathway == p
    ensures PathwayConsistent(r)
    ensures r.condensationStatus.(isActive := s.condensationStatus.isActive) == s.condensationStatus
    ensures r.hydrogenStatus.(isActive := s.hydrogenStatus.isActive) == s.hydrogenStatus
  {
    PathwayState(p,
      s.condensationStatus.(isActive := CondensationSelected(p)),
      s.hydrogenStatus.(isActive := HydrogenSelected(p)))
  }

  /** Emergency stop: the heater goes off, the process shuts down and the
      stop is latched in the safety panel. Alerts and every other reading
      are kept. */
  function EmergencyStop(s: AppState): (r: AppState)
    ensures r.process.processStatus == Shutdown
    ensures !r.process.isHeatingActive
    ensures r.safety.systemStatus.emergencyStop
    ensures r.process.(isHeatingActive := s.process.isHeatingActive, processStatus := s.process.processStatus) == s.process
    ensures r.safety.systemStatus.(emergencyStop := s.safety.systemStatus.emergencyStop) == s.safety.systemStatus
    ensures r.safety.alerts == s.safety.alerts
    ensures r.pathway == s.pathway
    ensures r.temperatureData == s.temperatureData && r.productionData == s.productionData
  {
    s.(process := s.process.(isHeatingActive := false, processStatus := Shutdown),
       safety := s.safety.(systemStatus := s.safety.systemStatus.(emergencyStop := true)))
  }

  /** Acknowledge an alert: every alert carrying that id is removed, the
      others are kept in their order. */
  function Acknowledge(alerts: seq<Alert>, id: string): (r: seq<Alert>)
    ensures |r| <= |alerts|
    ensures forall i :: 0 <= i < |r| ==> r[i].id != id && r[i] in alerts
    ensures forall i :: 0 <= i < |alerts| && alerts[i].id != id ==> alerts[i] in r
  {
    FilterMembers(alerts, OtherThan(id));
    Filter(alerts, OtherThan(id))
  }

  /** The test `alert => alert.id !== id`. */
  function OtherThan(id: string): Alert -> bool {
    (a: Alert) => a.id != id
  }

  /** Stopping twice is stopping once. */
  lemma EmergencyStopIdempotent(s: AppState)
    ensures EmergencyStop(EmergencyStop(s)) == EmergencyStop(s)
  {
  }

  /** Acknowledging an id that no alert carries changes nothing. */
  lemma AcknowledgeAbsent(alerts: seq<Alert>, id: string)
    requires forall i :: 0 <= i < |alerts| ==> alerts[i].id != id
    ensures Acknowledge(alerts, id) == alerts
  {
    FilterKeepsAll(alerts, OtherThan(id));
  }

  /** Acknowledging the same id twice is acknowledging it once. */
  lemma AcknowledgeIdempotent(alerts: seq<Alert>, id: string)
    ensures Acknowledge(Acknowledge(alerts, id), id) == Acknowledge(alerts, id)
  {
    FilterIdempotent(alerts, OtherThan(id));
  }

  /** Acknowledging keeps the order of the surviving alerts: acknowledging
      a concatenation acknowledges each part. */
  lemma AcknowledgeKeepsOrder(a: seq<Alert>, b: seq<Alert>, id: string)
    ensures Acknowledge(a + b, id) == Acknowledge(a, id) + Acknowledge(b, id)
  {
    FilterConcat(a, b, OtherThan(id));
  }

  /** When no other alert shares its id, acknowledging a listed alert
      removes exactly that one entry: what is left is the list with position
      `k` cut out. */
  lemma {:induction false} AcknowledgeUnique(alerts: seq<Alert>, k: nat)
    requires k < |alerts|
    requires forall i :: 0 <= i < |alerts| && i != k ==> alerts[i].id != alerts[k].id
    ensures Acknowledge(alerts, alerts[k].id) == alerts[..k] + alerts[k + 1..]
  {
    FilterCut(alerts, k, OtherThan(alerts[k].id));
  }
}
