/** The state the dashboard's root component owns: process telemetry, the
    two output pathways, the safety panel and the two history buffers, with
    the values it starts from. */
module Plant {
  import opened Seqs

  datatype ProcessStatus = Running | Idle | Shutdown | Maintenance

  /** Process telemetry and heater settings. `temperature` is whole after
      every tick, and every value ever given to `targetTemperature` or
      `heatingPower` is whole (a parsed integer, a preset or a slider step). */
  datatype ProcessData = ProcessData(
    temperature: int,
    targetTemperature: int,
    pressure: real,
    flowRate: real,
    powerConsumption: int,
    heatingPower: int,
    isHeatingActive: bool,
    processStatus: ProcessStatus,
    efficiency: int)

  /** Which output-processing route the pyrolysis gases take. */
  datatype Pathway = Condensation | Hydrogen | Both

  datatype CondensationStatus = CondensationStatus(
    isActive: bool, coolingTemp: int, oilOutput: real, gasRecycle: int)

  datatype HydrogenStatus = HydrogenStatus(
    isActive: bool, purity: real, output: real, separationEfficiency: int)

  datatype PathwayState = PathwayState(
    activePathway: Pathway,
    condensationStatus: CondensationStatus,
    hydrogenStatus: HydrogenStatus)

  /** The condensation route runs under `Condensation` and `Both`. */
  predicate CondensationSelected(p: Pathway) { p == Condensation || p == Both }

  /** The hydrogen route runs under `Hydrogen` and `Both`. */
  predicate HydrogenSelected(p: Pathway) { p == Hydrogen || p == Both }

  /** The `isActive` flags are derived from `activePathway`. */
  predicate PathwayConsistent(s: PathwayState) {
    && s.condensationStatus.isActive == CondensationSelected(s.activePathway)
    && s.hydrogenStatus.isActive == HydrogenSelected(s.activePathway)
  }

  datatype SystemStatus = SystemStatus(
    temperatureSafety: bool,
    pressureSafety: bool,
    electricalSafety: bool,
    gasLeakDetection: bool,
    emergencyStop: bool)

  datatype AlertKind = Critical | Warning | Info

  datatype Alert = Alert(id: string, kind: AlertKind, message: string, timestamp: string, system: string)

  datatype SafetyState = SafetyState(systemStatus: SystemStatus, alerts: seq<Alert>)

  /** One point of the temperature history. */
  datatype TemperatureSample = TemperatureSample(time: string, temperature: int, target: int)

  /** One point of the production history (`solidChar` is the source's `char`);
      `oil` is kept to one decimal. */
  datatype ProductionSample = ProductionSample(time: string, syngas: int, oil: real, solidChar: int)

  datatype AppState = AppState(
    process: ProcessData,
    pathway: PathwayState,
    safety: SafetyState,
    temperatureData: seq<TemperatureSample>,
    productionData: seq<ProductionSample>)

  function InitialProcess(): ProcessData {
    ProcessData(485, 500, 95.0, 28.0, 75, 85, true, Running, 82)
  }

  function InitialPathway(): PathwayState {
    PathwayState(Both,
      CondensationStatus(true, 45, 12.5, 78),
      HydrogenStatus(true, 96.8, 8.2, 89))
  }

  function InitialSafety(): SafetyState {
    SafetyState(
      SystemStatus(true, true, true, true, false),
      [ Alert("1", Warning, "Membrane separation efficiency below optimal (89%)", "14:23:15", "Hydrogen Separation"),
        Alert("2", Info, "Scheduled maintenance due in 48 hours", "12:45:30", "System Maintenance") ])
  }

  function InitialTemperatureData(): seq<TemperatureSample> {
    [ TemperatureSample("14:00", 450, 500), TemperatureSample("14:05", 465, 500),
      TemperatureSample("14:10", 475, 500), TemperatureSample("14:15", 485, 500),
      TemperatureSample("14:20", 488, 500), TemperatureSample("14:25", 485, 500) ]
  }

  function InitialProductionData(): seq<ProductionSample> {
    [ ProductionSample("14:00", 15, 8.0, 5), ProductionSample("14:05", 18, 10.0, 6),
      ProductionSample("14:10", 22, 12.0, 7), ProductionSample("14:15", 25, 12.0, 8),
      ProductionSample("14:20", 28, 12.0, 8), ProductionSample("14:25", 30, 12.0, 8) ]
  }

  /** The state the dashboard starts from. */
  function Initial(): (s: AppState)
    ensures PathwayConsistent(s.pathway)
    ensures |s.temperatureData| == Capacity && |s.productionData| == Capacity
    ensures 200 <= s.process.temperature <= 700
    ensures 85.0 <= s.process.pressure <= 105.0 && 20.0 <= s.process.flowRate <= 35.0
    ensures !s.safety.systemStatus.emergencyStop
  {
    AppState(InitialProcess(), InitialPathway(), InitialSafety(),
      InitialTemperatureData(), InitialProductionData())
  }
}
