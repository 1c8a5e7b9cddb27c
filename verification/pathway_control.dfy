/** The pathway panel: two on/off switches and three selection buttons that
    request one of the three pathways, plus what each subsystem card shows
    (src/.figma_internal/deleted/components/PathwayControl.tsx). */
module PathwayControl {
  import opened Plant
  import Commands

  /** The condensation switch reads "on" under `Condensation` and `Both`. */
  function CondensationSwitchOn(active: Pathway): (on: bool)
    ensures on <==> active != Hydrogen
  {
    CondensationSelected(active)
  }

  /** The hydrogen switch reads "on" under `Hydrogen` and `Both`. */
  function HydrogenSwitchOn(active: Pathway): (on: bool)
    ensures on <==> active != Condensation
  {
    HydrogenSelected(active)
  }

  /** The pathway requested when the condensation switch is flipped to
      `checked`. Switching it on adds condensation to hydrogen, or selects
      condensation alone; switching it off from `Both` leaves hydrogen, and
      from anything else requests `Both`. */
  function CondensationToggle(active: Pathway, checked: bool): (p: Pathway)
    ensures checked ==> (p == Both <==> active == Hydrogen)
    ensures checked ==> (p == Condensation <==> active != Hydrogen)
    ensures !checked ==> (p == Hydrogen <==> active == Both)
    ensures !checked ==> (p == Both <==> active != Both)
  {
    if checked then (if active == Hydrogen then Both else Condensation)
    else (if active == Both then Hydrogen else Both)
  }

  /** The mirror image for the hydrogen switch. */
  function HydrogenToggle(active: Pathway, checked: bool): (p: Pathway)
    ensures checked ==> (p == Both <==> active == Condensation)
    ensures checked ==> (p == Hydrogen <==> active != Condensation)
    ensures !checked ==> (p == Condensation <==> active == Both)
    ensures !checked ==> (p == Both <==> active != Both)
  {
    if checked then (if active == Condensation then Both else Hydrogen)
    else (if active == Both then Condensation else Both)
  }

  /** Swapping the roles of the two pathways. */
  function Mirror(p: Pathway): Pathway {
    match p
    case Condensation => Hydrogen
    case Hydrogen => Condensation
    case Both => Both
  }

  /** The two switches are mirror images of each other. */
  lemma TogglesMirror(active: Pathway, checked: bool)
    ensures HydrogenToggle(active, checked) == Mirror(CondensationToggle(Mirror(active), checked))
    ensures HydrogenSwitchOn(active) == CondensationSwitchOn(Mirror(active))
  {
  }

  /** Switching a switch on always leaves it reading on; when it was off
      before (the only time the UI fires the event), the other switch keeps
      its reading. */
  lemma SwitchOnTakesEffect(active: Pathway)
    ensures CondensationSwitchOn(CondensationToggle(active, true))
    ensures !CondensationSwitchOn(active) ==>
      HydrogenSwitchOn(CondensationToggle(active, true)) == HydrogenSwitchOn(active)
    ensures HydrogenSwitchOn(HydrogenToggle(active, true))
    ensures !HydrogenSwitchOn(active) ==>
      CondensationSwitchOn(HydrogenToggle(active, true)) == CondensationSwitchOn(active)
  {
  }

  /** Switching one side off while both run leaves the other side alone. */
  lemma SwitchOffFromBoth()
    ensures CondensationToggle(Both, false) == Hydrogen
    ensures !CondensationSwitchOn(CondensationToggle(Both, false))
    ensures HydrogenToggle(Both, false) == Condensation
    ensures !HydrogenSwitchOn(HydrogenToggle(Both, false))
  {
  }

  /** Switching off the only active pathway requests `Both`: the switch that
      was turned off still reads on afterwards, and the other one comes on. */
  lemma SwitchOffSoleActive()
    ensures CondensationToggle(Condensation, false) == Both
    ensures CondensationSwitchOn(CondensationToggle(Condensation, false))
    ensures HydrogenToggle(Hydrogen, false) == Both
    ensures HydrogenSwitchOn(HydrogenToggle(Hydrogen, false))
  {
  }

  /** Starting from one pathway, switching the other on and then off again
      returns to where it started. */
  lemma ToggleRoundTrip()
    ensures CondensationToggle(HydrogenToggle(Condensation, true), false) == Hydrogen
    ensures HydrogenToggle(HydrogenToggle(Condensation, true), false) == Condensation
    ensures HydrogenToggle(CondensationToggle(Hydrogen, true), false) == Condensation
    ensures CondensationToggle(CondensationToggle(Hydrogen, true), false) == Hydrogen
  {
  }

  /** The three selection buttons. */
  datatype SelectButton = CondensationOnly | HydrogenSeparation | BothPathways

  /** The pathway a selection button requests, regardless of the current one. */
  function Request(b: SelectButton): (p: Pathway)
    ensures p == Condensation <==> b == CondensationOnly
    ensures p == Hydrogen <==> b == HydrogenSeparation
    ensures p == Both <==> b == BothPathways
  {
    match b
    case CondensationOnly => Condensation
    case HydrogenSeparation => Hydrogen
    case BothPathways => Both
  }

  /** A selection button is highlighted exactly when its pathway is the
      active one; pressing it makes it so. */
  lemma SelectHighlights(s: PathwayState, b: SelectButton)
    ensures Commands.SetPathway(s, Request(b)).activePathway == Request(b)
    ensures forall c: SelectButton :: Request(c) == Commands.SetPathway(s, Request(b)).activePathway <==> c == b
  {
  }

  /** A subsystem's action buttons ("Optimize Cooling", "Drain Oil Tank",
      "Clean Membrane", "Collect H2") are disabled when it is inactive. */
  function ActionsDisabled(isActive: bool): bool { !isActive }

  /** The subsystem badge text. */
  function ActivityBadge(isActive: bool): string { if isActive then "ACTIVE" else "INACTIVE" }

  /** On a consistent pathway state every card agrees with its switch: the
      badge reads ACTIVE and the actions are enabled exactly when the switch
      reads on. */
  lemma CardsAgreeWithSwitches(s: PathwayState)
    requires PathwayConsistent(s)
    ensures ActivityBadge(s.condensationStatus.isActive) == "ACTIVE" <==> CondensationSwitchOn(s.activePathway)
    ensures !ActionsDisabled(s.condensationStatus.isActive) <==> CondensationSwitchOn(s.activePathway)
    ensures ActivityBadge(s.hydrogenStatus.isActive) == "ACTIVE" <==> HydrogenSwitchOn(s.activePathway)
    ensures !ActionsDisabled(s.hydrogenStatus.isActive) <==> HydrogenSwitchOn(s.activePathway)
  {
  }

  datatype HydrogenGrade = FuelCellGrade | IndustrialGrade

  /** The purity grade shown under the hydrogen output. */
  function Grade(purity: real): (g: HydrogenGrade)
    ensures g == FuelCellGrade <==> purity > 95.0
  {
    if purity > 95.0 then FuelCellGrade else IndustrialGrade
  }

  /** A purer stream never gets a worse grade. */
  lemma GradeMonotone(a: real, b: real)
    requires a <= b
    ensures Grade(a) == FuelCellGrade ==> Grade(b) == FuelCellGrade
  {
  }

  /** Flipping the condensation switch from a consistent state, through the
      pathway reducer, with both flags following: the scenario "start with
      both, switch condensation off" ends with hydrogen alone. */
  lemma CondensationOffFromBoth(s: PathwayState)
    requires s.activePathway == Both
    ensures var r := Commands.SetPathway(s, CondensationToggle(s.activePathway, false));
      r.activePathway == Hydrogen && !r.condensationStatus.isActive && r.hydrogenStatus.isActive
  {
  }
}
