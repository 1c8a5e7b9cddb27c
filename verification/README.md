# Pyrolysis control dashboard — a Dafny model

This project models the logic of a waste-to-energy pyrolysis control
dashboard, a React application that simulates a plant. The plant has a
resistive-coil reactor, two gas-processing pathways (condensation to oil and
hydrogen separation) and a safety panel. The model covers:

- the state the root component owns and its initial values (`Plant`);
- the operator commands: target temperature, heating power, heater switch,
  pathway selection, emergency stop and alert acknowledgement (`Commands`);
- the timer tick. It moves temperature, pressure and flow by a clamped
  random walk, then appends one sample to each of the two six-sample history
  windows (`Telemetry`, `Seqs`);
- the panels' pure logic:
  - how the pathway switches turn into a pathway request (`PathwayControl`);
  - the alert views, icons, badges and ACK wiring (`SafetyMonitoring`);
  - the target-field validator built on `parseInt`, the warning flags, the
    trend arrow and the disabled rules (`TemperatureControl`, `Text`);
  - the overview colours and bands (`ProcessOverview`);
- the history sanitisers of the monitoring cards and of the analytics page,
  with their derived figures (`Samples`, `ProcessMonitoring`, `Analytics`);
- the whole dashboard as a fold of operator and timer events, with an
  invariant every reachable state keeps (`Session`).

JavaScript numbers are Dafny `real`s. Fields that only ever hold whole
numbers are `int`s. `Math.round` is written out as `(x + 0.5).Floor`. A prop
value that may be NaN or not a number at all is a `JsNumber` datatype. The
`Math.random()` draws and the clock label are parameters of the operations
that use them.

Two behaviours of the code that a reader of the panels might not expect;
the model follows the code:

- Switching off the only active pathway requests `Both`, not "no change"
  (`PathwayControl.SwitchOffSoleActive`).
- The emergency stop does not lock the heater. Switching the heater back on
  after a stop sets the process to running again, while the E-Stop flag
  stays set (`Session.StopThenHeat`).

One more quirk of the code, also modelled as written: switching the
condensation switch "on" while both pathways run would request condensation
alone. The switch already reads on in that state, so the UI never sends that
event (`PathwayControl.SwitchOnTakesEffect` states the case the UI can send).

The tick reads the condensation oil output from an older render. No command
ever changes that value, so the model reads the current one
(`Session.OilOutputConstant`).

## Model

| member | source | states |
|---|---|---|
| Base.Clamp | src/App.tsx:98-100 | `Math.max(lo, Math.min(hi, x))` lies in [lo, hi], is x inside the band, and is lo or hi beyond it |
| Base.Round | src/App.tsx:107 | `Math.round` lands within half a unit of its argument |
| Base.Round10 | src/App.tsx:129-130 | rounding to tenths lands within 0.05 of its argument and on the tenth grid |
| Base.RoundWithin | src/App.tsx:119-121 | rounding a value between two whole bounds stays between them |
| Base.Round10Within | src/App.tsx:129-130 | rounding to tenths a value between two whole bounds stays between them |
| Base.Round10OfGrid | src/.figma_internal/deleted/components/ProcessMonitoring.tsx:37 | rounding a value already on the tenth grid to tenths leaves it unchanged |
| Base.RoundOfInteger | src/App.tsx:128 | rounding a whole number returns it, and a whole number of tenths is on the tenth grid |
| Seqs.Filter | src/App.tsx:188 | `filter` never lengthens the list, and everything it returns passes the test |
| Seqs.FilterMembers | src/App.tsx:188 | the filtered list holds exactly the elements that pass: each comes from the input, each passing input element is present |
| Seqs.FilterConcat | src/App.tsx:188 | filtering commutes with concatenation, so relative order is kept |
| Seqs.FilterKeepsAll | src/App.tsx:188 | a list whose every element passes is returned unchanged |
| Seqs.FilterDropsAll | src/App.tsx:188 | a list with no passing element filters to the empty list |
| Seqs.FilterIdempotent | src/App.tsx:188 | filtering twice with one test is filtering once |
| Seqs.FilterShrinks | src/App.tsx:188 | a list holding a failing element gets strictly shorter |
| Seqs.FilterWeaker | src/components/Analytics.tsx:26 | a more lenient test keeps at least as many elements |
| Seqs.FilterCut | src/App.tsx:188 | when only position k fails, filtering cuts exactly position k |
| Seqs.Last | src/.figma_internal/deleted/components/ProcessMonitoring.tsx:70 | `slice(-n)` for a positive n has length min(length, n) and is the tail of its input |
| Seqs.Push | src/App.tsx:110 | `[...buf.slice(-5), x]` has length min(length, 5) + 1, at most 6; x is last; the rest is the tail of buf in order |
| Seqs.PushFull | src/App.tsx:123 | pushing into a full window drops exactly the oldest sample |
| Seqs.PushNotFull | src/App.tsx:123 | pushing into a window with room drops nothing |
| Seqs.PushTracksHistory | src/App.tsx:110 | a window holding the last 6 samples of a history holds the last 6 of the extended history after a push |
| Seqs.PushAllTracksHistory | src/App.tsx:110 | any run of pushes leaves the last 6 samples ever appended |
| Text.ParseInt | src/components/Code-component-3-70.tsx:37 | `parseInt` gives a number exactly when a digit follows the leading white space and optional sign, and a negative one only after a minus sign |
| Text.Show | src/.figma_internal/deleted/components/SafetyMonitoring.tsx:132 | the decimal text of a whole number is a digit string with that value, after a minus sign for a negative number |
| Text.ParseIntOfShow | src/components/Code-component-3-70.tsx:37 | `parseInt` reads back any whole number's decimal text, with or without trailing non-digits |
| Text.ParseIntWithoutDigits | src/components/Code-component-3-70.tsx:37-38 | text without a digit parses to NaN |
| Text.DigitsValueOfShowNat | src/components/Code-component-3-70.tsx:29 | the decimal rendering of a natural number has that number as its digit value |
| Text.LeadingNumberOfDigits | src/components/Code-component-3-70.tsx:37 | a digit run followed by a non-digit parses to the run's value; the rest is ignored |
| Text.DigitRunOfDigits | src/components/Code-component-3-70.tsx:37 | the digit run `parseInt` reads ends exactly where the digits end |
| Text.ParseIntUnsigned | src/components/Code-component-3-70.tsx:37 | text starting with a digit has no white space or sign to skip, so `parseInt` reads its leading digits |
| Text.ParseIntNegated | src/components/Code-component-3-70.tsx:37 | a leading minus sign negates the number that follows |
| Text.ToUpper | src/components/Code-component-3-90.tsx:98 | upper-casing ASCII letters keeps the length and leaves no lower-case ASCII letter, character by character; this is `toUpperCase` on the four status names the program passes |
| Text.ToUpperIdempotent | src/components/Code-component-3-90.tsx:98 | upper-casing twice is upper-casing once |
| Plant.Initial | src/App.tsx:12-85 | the initial state has consistent pathway flags, full six-sample windows, readings in their bands and no emergency stop |
| Commands.SetTarget | src/App.tsx:139-141 | the target changes to the given value and nothing else changes |
| Commands.SetPower | src/App.tsx:151-153 | the heating power changes to the given value and nothing else changes |
| Commands.ToggleHeating | src/App.tsx:143-149 | the heater flag is set; the process runs iff heating and idles otherwise, whatever it was before; nothing else changes |
| Commands.SetPathway | src/App.tsx:155-168 | the selected pathway is recorded, the flags follow it, and every other subsystem field is kept |
| Commands.EmergencyStop | src/App.tsx:170-183 | shutdown, heater off, stop latched; alerts, pathways, histories and other readings kept |
| Commands.Acknowledge | src/App.tsx:185-190 | no alert with the id survives, every survivor was listed, every alert with another id survives |
| Commands.EmergencyStopIdempotent | src/App.tsx:170-183 | stopping twice is stopping once |
| Commands.AcknowledgeAbsent | src/App.tsx:185-190 | acknowledging an id nobody carries changes nothing |
| Commands.AcknowledgeIdempotent | src/App.tsx:185-190 | acknowledging the same id twice is acknowledging it once |
| Commands.AcknowledgeKeepsOrder | src/App.tsx:188 | acknowledging a concatenation acknowledges each part, so survivors keep their order |
| Commands.AcknowledgeUnique | src/App.tsx:188 | with unique ids, acknowledging a listed alert removes exactly that entry |
| Telemetry.Walk | src/App.tsx:98-100 | a clamped random step always stays inside its band, and from inside the band it moves by at most half the span either way |
| Telemetry.NextProductionSample | src/App.tsx:113-124 | the new production sample has the tick's time; syngas in [20,35], within 1 of the last in-band value and in [24,26] when there is none or it is 0; char in [5,10], equal to the last in-band value and 8 when there is none or it is 0; oil on the tenth grid, within 0.05 of the pathway output, and 12 when that output is 0 |
| Telemetry.NextProcess | src/App.tsx:97-100 | after a tick, temperature is in [200,700], pressure in [85,105] and flow in [20,35] (both to a tenth); from in-band values pressure moves by at most 2.55 and flow by at most 1.55 (the walk plus rounding to a tenth); heater settings and status untouched |
| Telemetry.Tick | src/App.tsx:97-132 | after any tick: the process is the tick's new telemetry, with readings in band, pressure and flow to a tenth, heater settings, status, pathways and safety untouched; windows of 1..6 samples whose older part is the previous tail; the newest temperature sample carries the tick's time, the new reading and the target (500 for 0); the newest production sample is the tick's production sample |
| Telemetry.TickStepBounded | src/App.tsx:98 | one tick moves an in-band temperature by at most 5 degrees |
| PathwayControl.CondensationSwitchOn | src/.figma_internal/deleted/components/PathwayControl.tsx:47 | the condensation switch reads on iff the pathway is not hydrogen alone |
| PathwayControl.HydrogenSwitchOn | src/.figma_internal/deleted/components/PathwayControl.tsx:129 | the hydrogen switch reads on iff the pathway is not condensation alone |
| PathwayControl.CondensationToggle | src/.figma_internal/deleted/components/PathwayControl.tsx:48-54 | switching on requests both from hydrogen, otherwise condensation; switching off requests hydrogen from both, otherwise both |
| PathwayControl.HydrogenToggle | src/.figma_internal/deleted/components/PathwayControl.tsx:130-136 | the mirror image for the hydrogen switch |
| PathwayControl.TogglesMirror | src/.figma_internal/deleted/components/PathwayControl.tsx:47-54 | the hydrogen switch is the condensation switch with the pathways' roles swapped |
| PathwayControl.SwitchOnTakesEffect | src/.figma_internal/deleted/components/PathwayControl.tsx:49-50 | after switching on, a switch reads on; switched on from off, the other switch keeps its reading |
| PathwayControl.SwitchOffFromBoth | src/.figma_internal/deleted/components/PathwayControl.tsx:52 | switching one side off while both run requests the other side alone |
| PathwayControl.SwitchOffSoleActive | src/.figma_internal/deleted/components/PathwayControl.tsx:134 | switching off the only active pathway requests both, so that switch still reads on |
| PathwayControl.ToggleRoundTrip | src/.figma_internal/deleted/components/PathwayControl.tsx:48-54 | from one pathway, switching the other on and then off returns the original pathway |
| PathwayControl.Request | src/.figma_internal/deleted/components/PathwayControl.tsx:219-245 | each selection button requests exactly its own pathway |
| PathwayControl.SelectHighlights | src/.figma_internal/deleted/components/PathwayControl.tsx:212-245 | after pressing a button, that button and no other is highlighted |
| PathwayControl.CardsAgreeWithSwitches | src/.figma_internal/deleted/components/PathwayControl.tsx:102-109 | on a consistent state a card's ACTIVE badge and enabled actions agree with its switch |
| PathwayControl.Grade | src/.figma_internal/deleted/components/PathwayControl.tsx:162-172 | the grade is fuel-cell grade iff purity exceeds 95, otherwise industrial |
| PathwayControl.GradeMonotone | src/.figma_internal/deleted/components/PathwayControl.tsx:162 | a purer stream never gets a worse grade |
| PathwayControl.CondensationOffFromBoth | src/.figma_internal/deleted/components/PathwayControl.tsx:52 | switching condensation off from both, through the pathway handler, leaves hydrogen alone with both flags following |
| SafetyMonitoring.View | src/.figma_internal/deleted/components/SafetyMonitoring.tsx:34-35 | a severity view is no longer than the list and holds only alerts of that severity |
| SafetyMonitoring.ViewExact | src/.figma_internal/deleted/components/SafetyMonitoring.tsx:34-35 | a view holds exactly the listed alerts of its severity |
| SafetyMonitoring.ViewKeepsOrder | src/.figma_internal/deleted/components/SafetyMonitoring.tsx:34-35 | the view of a concatenation is the concatenation of the views |
| SafetyMonitoring.ViewsPartition | src/.figma_internal/deleted/components/SafetyMonitoring.tsx:34-35 | critical count plus warning count plus info count is the list length |
| SafetyMonitoring.ViewsDisjoint | src/.figma_internal/deleted/components/SafetyMonitoring.tsx:34-35 | the two views share no alert, and info alerts are in neither |
| SafetyMonitoring.AlertIcon | src/.figma_internal/deleted/components/SafetyMonitoring.tsx:37-44 | critical gets a red XCircle, warning a yellow AlertTriangle, info a blue CheckCircle, and any other string a grey triangle |
| SafetyMonitoring.AlertFrame | src/.figma_internal/deleted/components/SafetyMonitoring.tsx:46-53 | critical frames are red, warning yellow, info blue, and grey exactly for an unknown type |
| SafetyMonitoring.IconMatchesFrame | src/.figma_internal/deleted/components/SafetyMonitoring.tsx:37-53 | icon and frame colours agree; the three severities get three distinct non-default colours |
| SafetyMonitoring.StatusBadge | src/.figma_internal/deleted/components/SafetyMonitoring.tsx:79-80 | a badge is green with the good caption iff its check passes, and red with the bad caption otherwise |
| SafetyMonitoring.StatusBadges | src/.figma_internal/deleted/components/SafetyMonitoring.tsx:79-121 | each of the five badges is green OK/CLEAR/READY when its check passes and red ALERT/DETECTED/ACTIVE otherwise, with the E-Stop badge inverted |
| SafetyMonitoring.EmergencyStopBadges | src/.figma_internal/deleted/components/SafetyMonitoring.tsx:119-120 | after an emergency stop the E-Stop badge is red ACTIVE and the other four are unchanged |
| SafetyMonitoring.Row | src/.figma_internal/deleted/components/SafetyMonitoring.tsx:141-161 | a row shows its alert's message and `system • timestamp`, sends its alert's id, and draws a red XCircle for critical, a yellow triangle for warning and a blue CheckCircle for info, in a frame of the icon's colour |
| SafetyMonitoring.AlertPanel | src/.figma_internal/deleted/components/SafetyMonitoring.tsx:129-166 | the placeholder appears iff the view is empty; otherwise one row per alert in order, each the alert's own row (message, origin, frame and icon for its kind) sending that alert's id |
| SafetyMonitoring.HeadingCount | src/.figma_internal/deleted/components/SafetyMonitoring.tsx:132 | the count in a panel heading reads back as the view's length |
| SafetyMonitoring.AckRemovesShown | src/.figma_internal/deleted/components/SafetyMonitoring.tsx:157 | pressing ACK on a shown alert removes it from the list, which gets strictly shorter |
| TemperatureControl.TempInputChange | src/components/Code-component-3-70.tsx:35-41 | the field always shows the typed text; a target is passed on iff the text parses to a number in [0,800], and it is that number |
| TemperatureControl.TypedNumber | src/components/Code-component-3-70.tsx:37-40 | typing a whole number passes it on iff it lies in [0,800] |
| TemperatureControl.TypedNoDigits | src/components/Code-component-3-70.tsx:37-38 | text without digits never changes the target |
| TemperatureControl.TypedOutOfRange | src/components/Code-component-3-70.tsx:38 | "900" is refused |
| TemperatureControl.TypedInRange | src/components/Code-component-3-70.tsx:38-39 | "550" is accepted as 550 |
| TemperatureControl.TypedTrailingText | src/components/Code-component-3-70.tsx:37 | "550abc" is read as 550 |
| TemperatureControl.EditTarget | src/components/Code-component-3-70.tsx:35-41 | an accepted edit sets the target to the parsed value, a refused one changes nothing, and nothing but the target ever changes |
| TemperatureControl.PresetsAccepted | src/components/Code-component-3-70.tsx:137-145 | both presets, 450 and 550, are targets the text field also accepts |
| TemperatureControl.WarningBanner | src/components/Code-component-3-70.tsx:91-96 | the banner shows iff overheating (>650) or underpowered (< target-50), with overheating taking precedence |
| TemperatureControl.BannerPrecedence | src/components/Code-component-3-70.tsx:95 | both flags can hold at once, and then the overheating message is shown |
| TemperatureControl.TrendArrow | src/components/Code-component-3-70.tsx:62-66 | up iff the reading exceeds target by more than 5, down iff it falls more than 5 below, none otherwise |
| TemperatureControl.TrendAntisymmetric | src/components/Code-component-3-70.tsx:31 | swapping reading and target reverses the arrow |
| TemperatureControl.TemperatureBar | src/components/Code-component-3-70.tsx:79 | the bar width never exceeds 100, is t/8 up to 800 degrees and full beyond |
| TemperatureControl.TemperatureBarMonotone | src/components/Code-component-3-70.tsx:79 | a hotter reading never draws a shorter bar |
| TemperatureControl.ControlsAfterStop | src/components/Code-component-3-70.tsx:112-146 | after an emergency stop the controls are disabled; switching the heater on enables them again |
| ProcessOverview.StatusColor | src/components/Code-component-3-90.tsx:20-28 | running is green, idle yellow, shutdown red, maintenance blue, and grey is exactly the unknown strings |
| ProcessOverview.StatusColorsDistinct | src/components/Code-component-3-90.tsx:20-28 | the four statuses get four distinct non-grey colours: running green, shutdown red |
| ProcessOverview.StatusLabel | src/components/Code-component-3-90.tsx:98 | the label is the status name in capitals, letter for letter |
| ProcessOverview.StatusLabelsDistinct | src/components/Code-component-3-90.tsx:98 | different statuses show different labels |
| ProcessOverview.RunningLabel | src/components/Code-component-3-90.tsx:98 | a running process reads RUNNING |
| ProcessOverview.PressureBadge | src/components/Code-component-3-90.tsx:61-63 | High iff p > 110, Normal iff 90 < p <= 110, Low iff p <= 90 |
| ProcessOverview.PressureColourAgrees | src/components/Code-component-3-90.tsx:61-63 | red with High, yellow with Normal, green with Low |
| ProcessOverview.PressureBandMonotone | src/components/Code-component-3-90.tsx:61-63 | a higher pressure never shows a lower band |
| ProcessOverview.FlowBar | src/components/Code-component-3-90.tsx:80 | the flow bar's width is twice the flow, so at most full up to 50 L/min and overflowing beyond, uncapped |
| ProcessOverview.OverviewAfterTick | src/components/Code-component-3-90.tsx:44-80 | after a tick the temperature bar is in [25,87.5], the flow bar in [40,70] and pressure never High |
| ProcessMonitoring.CleanTemperature | src/.figma_internal/deleted/components/ProcessMonitoring.tsx:19-23 | a kept entry keeps its time, with readings within half a degree of the raw ones |
| ProcessMonitoring.CleanProduction | src/.figma_internal/deleted/components/ProcessMonitoring.tsx:34-39 | syngas and char within half a unit, oil within 0.05 and to a tenth, time kept |
| ProcessMonitoring.ValidTemperatures | src/.figma_internal/deleted/components/ProcessMonitoring.tsx:12-23 | the accepted list is never longer than the input, and every entry is labelled |
| ProcessMonitoring.ValidProductions | src/.figma_internal/deleted/components/ProcessMonitoring.tsx:25-39 | the accepted list is never longer than the input; every entry is labelled, oil to a tenth |
| ProcessMonitoring.ValidTemperaturesSingle | src/.figma_internal/deleted/components/ProcessMonitoring.tsx:12-18 | one entry is kept, cleaned, iff it is present with numeric non-NaN readings and a time |
| ProcessMonitoring.ValidTemperaturesConcat | src/.figma_internal/deleted/components/ProcessMonitoring.tsx:12-23 | the entries kept from a concatenation are those kept from each part, in order |
| ProcessMonitoring.ValidProductionsSingle | src/.figma_internal/deleted/components/ProcessMonitoring.tsx:25-33 | one production entry is kept iff it is valid by the same rule |
| ProcessMonitoring.ValidProductionsConcat | src/.figma_internal/deleted/components/ProcessMonitoring.tsx:25-39 | order is preserved for production entries |
| ProcessMonitoring.SimulatorTemperaturesClean | src/.figma_internal/deleted/components/ProcessMonitoring.tsx:12-23 | the simulator's labelled temperature window passes the sanitiser unchanged |
| ProcessMonitoring.SimulatorProductionsClean | src/.figma_internal/deleted/components/ProcessMonitoring.tsx:25-39 | the simulator's labelled production window, oil to a tenth, passes unchanged |
| ProcessMonitoring.TotalProduction | src/.figma_internal/deleted/components/ProcessMonitoring.tsx:41-42 | the total is 0 when no sample is accepted |
| ProcessMonitoring.TotalOfAppended | src/.figma_internal/deleted/components/ProcessMonitoring.tsx:41-42 | the total is syngas + oil + char of the latest accepted sample |
| ProcessMonitoring.TemperatureHistory | src/.figma_internal/deleted/components/ProcessMonitoring.tsx:70 | the history shows the last 6 accepted samples, or all when fewer |
| ProcessMonitoring.ProductionTrend | src/.figma_internal/deleted/components/ProcessMonitoring.tsx:120 | the trend shows the last 3 accepted samples, or all when fewer |
| ProcessMonitoring.Summary | src/.figma_internal/deleted/components/ProcessMonitoring.tsx:50-62 | the "no data" message shows iff nothing is accepted, else the latest sample |
| ProcessMonitoring.EfficiencyBadge | src/.figma_internal/deleted/components/ProcessMonitoring.tsx:172-173 | Excellent iff > 85, Good iff in (70, 85], Needs Attention otherwise, coloured green, yellow, red |
| ProcessMonitoring.EfficiencyBadgeMonotone | src/.figma_internal/deleted/components/ProcessMonitoring.tsx:172-173 | a higher efficiency never earns a worse badge; the initial 82 is Good |
| Analytics.NumberOrZero | src/components/Analytics.tsx:29-30 | `Number(x) or 0` keeps a number and turns NaN into 0 |
| Analytics.TemperatureRowOf | src/components/Analytics.tsx:27-32 | a kept row keeps its time, reads temperature and target through `Number(x) || 0`, and its variance is the non-negative distance between them |
| Analytics.ProductionRowOf | src/components/Analytics.tsx:36-42 | a kept row keeps its time, reads syngas, oil and char through `Number(x) || 0`, and its total is their sum |
| Analytics.SafeTemperatures | src/components/Analytics.tsx:25-32 | never longer than the input; every row labelled with a non-negative variance |
| Analytics.SafeProductions | src/components/Analytics.tsx:34-42 | never longer than the input; every row's total is the sum of its outputs |
| Analytics.SafeTemperaturesCompose | src/components/Analytics.tsx:25-32 | an entry is kept iff present, number-typed and labelled; concatenation and order are preserved |
| Analytics.SafeProductionsCompose | src/components/Analytics.tsx:34-42 | the same for production entries |
| Analytics.NaNKeptHere | src/components/Analytics.tsx:26-29 | a NaN reading is kept here as 0 but dropped by the monitoring card |
| Analytics.SafeKeepsMore | src/components/Analytics.tsx:26 | the analytics page keeps at least as many temperature entries as the monitoring card |
| Analytics.EfficiencySeries | src/components/Analytics.tsx:45-49 | one point per row with the same time, efficiency in [60,95] and, for a reported efficiency in that band, within 5 of it; target 85 |
| Analytics.EnergySeries | src/components/Analytics.tsx:60-64 | one point per row with the same time, consumption within 10 of 75, so in [65,85] and never clamped by the [60,90] band |
| Analytics.EnergyRepeatsEfficiency | src/components/Analytics.tsx:63 | the 80 fallback never applies: the energy chart repeats the efficiency values |
| Analytics.Distribution | src/components/Analytics.tsx:52-57 | the pie is empty iff there is no row, otherwise its three slices are the latest row's syngas, oil and char, named and in that order |
| Analytics.DistributionSumsToTotal | src/components/Analytics.tsx:52-57 | the three slices add up to the latest row's total |
| Analytics.Stability | src/components/Analytics.tsx:424-427 | stability is 0 when there is no row |
| Analytics.ClosenessBounds | src/components/Analytics.tsx:425 | with variances in [0, b], the sum of 100 - variance lies between (100 - b)·n and 100·n |
| Analytics.StabilityBounds | src/components/Analytics.tsx:424-426 | stability is at most 100, and at least 100 - b when no variance exceeds b |
| Analytics.DivideBounds | src/components/Analytics.tsx:424-426 | dividing the summed closeness by the row count keeps the per-row bounds |
| Analytics.EfficiencyTrend | src/components/Analytics.tsx:71 | the efficiency trend is up iff efficiency > 80 |
| Analytics.UptimeTrend | src/components/Analytics.tsx:89 | the uptime trend is up iff uptime > 95 |
| Analytics.TrendAgreesWithBadge | src/components/Analytics.tsx:71-72 | an upward efficiency trend never coincides with a Needs Attention badge |
| Session.Apply | src/App.tsx:139-190 | commands never touch the histories or the oil output, and never clear the stop latch |
| Session.InitialInv | src/App.tsx:12-85 | the initial state satisfies the dashboard invariant |
| Session.ApplyKeepsInv | src/App.tsx:139-190 | every command keeps the invariant |
| Session.PushKeepsGrid | src/App.tsx:120-123 | pushing a sample with oil to a tenth keeps every window entry on the tenth grid |
| Session.TickKeepsInv | src/App.tsx:97-132 | every tick keeps the invariant, whatever the draws and clock |
| Session.StepKeepsInv | src/App.tsx:97-190 | every event keeps the invariant |
| Session.RunKeepsInv | src/App.tsx:97-190 | any run of events keeps the invariant, and a latched stop stays latched |
| Session.Reachable | src/App.tsx:12-190 | every reachable state has consistent pathway flags, in-band readings, windows of at most 6, oil to a tenth |
| Session.StopThenHeat | src/App.tsx:143-183 | after a stop, switching the heater on makes the process run and heat again, with the stop flag still set |
| Session.HeaterOffFreezesSettings | src/components/Code-component-3-70.tsx:112-146 | while the heater is off, nothing the panels can send moves target or power |
| Session.OilOutputConstant | src/App.tsx:120 | no event changes the oil output the tick reads |

## Left out

- Rendering: JSX, Tailwind classes, recharts charts, lucide icons and the
  `ui/*` primitives are presentation or library code that is not part of
  this model.
- Scheduling: the `setInterval` / `clearInterval` lifecycle, the effect's
  dependency list and the `setState` calls nested inside an updater are
  React semantics, not logic. A tick is one atomic step.
- Randomness and time: `Math.random()` values and the
  `toLocaleTimeString` label are parameters (`Draws`, `now`, `draws`).
- Floating point: numbers are exact reals. IEEE rounding error and
  `toFixed(1)` display formatting are not modelled. Neither is `Infinity`:
  it passes both sanitisers' `typeof` and `isNaN` tests, but `JsNumber`
  has no case for it.
- Text.ToUpper: upper-cases the ASCII letters only; `toUpperCase` also
  maps letters such as 'é' and expands 'ß' to "SS". The program applies it
  only to the four ASCII status names, where the two agree.
- Text.ParseInt: does not model the `0x` hexadecimal prefix that `parseInt`
  honours without a radix, Unicode white space beyond ASCII, or
  `Infinity`; only an optional sign and decimal digits after ASCII white
  space.
- `Array.isArray` guards in the tick: the windows are always arrays here.
- Time labels: `time` is a string in the model, and a missing one is the
  empty string, which both filters drop. A truthy non-string `time` such as
  a number, which both filters keep, cannot be represented.
- ProcessMonitoring: the `|| 0` fallbacks on the latest sample's fields
  change nothing: a 0 falls back to 0.
- Analytics: the column totals of syngas, oil and char (lines 394-414) are
  display-only sums and are not modelled. The performance tiles' value
  strings and the fixed "stable" and "up" trends are constants.
- The power slider component is not part of this model. A power command
  carries any whole number.
- Analytics.Stability: its own contract states only the empty case; the
  bounds are in `Analytics.StabilityBounds`.
- ProcessMonitoring.TotalProduction: its own contract states only the empty
  case; the non-empty case is in `ProcessMonitoring.TotalOfAppended`.
