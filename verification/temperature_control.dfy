/** The heater panel (src/components/Code-component-3-70.tsx): the target
    field with its `parseInt` validator, the two warning flags and their
    banner, the trend arrow, the temperature bar and the disabled rules. */
module TemperatureControl {
  import opened Base
  import opened Text
  import opened Plant
  import Commands

  /** Highest target the text field passes on. */
  const MaxTarget: int := 800

  /** What one edit of the target field does: the text it now shows and the
      target it hands to `onTargetTempChange`, if any. */
  datatype InputEffect = InputEffect(shown: string, emitted: Option<int>)

  /** `handleTempInputChange`: the field always shows what was typed; the
      target is passed on exactly when the text parses to a whole number in
      [0, 800], and it is that number. */
  function TempInputChange(value: string): (e: InputEffect)
    ensures e.shown == value
    ensures e.emitted.Some? <==> ParseInt(value).Some? && 0 <= ParseInt(value).value <= MaxTarget
    ensures e.emitted.Some? ==> e.emitted == ParseInt(value) && 0 <= e.emitted.value <= MaxTarget
  {
    match ParseInt(value)
    case Some(n) => InputEffect(value, if 0 <= n <= MaxTarget then Some(n) else None)
    case None => InputEffect(value, None)
  }

  /** Typing a number (possibly followed by non-digits, which `parseInt`
      ignores) passes it on exactly when it lies in [0, 800]. */
  lemma TypedNumber(n: int, rest: string)
    requires |rest| == 0 || !IsDigit(rest[0])
    ensures TempInputChange(Show(n) + rest).emitted == if 0 <= n <= MaxTarget then Some(n) else None
  {
    ParseIntOfShow(n, rest);
  }

  /** Text without a digit never changes the target. */
  lemma TypedNoDigits(value: string)
    requires forall i :: 0 <= i < |value| ==> !IsDigit(value[i])
    ensures TempInputChange(value).emitted == None
  {
    ParseIntWithoutDigits(value);
  }

  /** The rendering of a three-digit number, digit by digit. */
  lemma ShowThreeDigits(a: nat, b: nat, c: nat)
    requires 1 <= a < 10 && b < 10 && c < 10
    ensures Show(a * 100 + b * 10 + c) == [DigitChar(a), DigitChar(b), DigitChar(c)]
  {
    assert ShowNat(a) == [DigitChar(a)];
    assert ShowNat(a * 10 + b) == ShowNat(a) + [DigitChar(b)];
    assert ShowNat(a * 100 + b * 10 + c) == ShowNat(a * 10 + b) + [DigitChar(c)];
  }

  /** "900" is refused. */
  lemma TypedOutOfRange()
    ensures TempInputChange("900").emitted == None
  {
    ShowThreeDigits(9, 0, 0);
    var s := Show(900);
    assert s == "900";
    TypedNumber(900, "");
    assert s + "" == s;
  }

  /** "550" is accepted. */
  lemma TypedInRange()
    ensures TempInputChange("550").emitted == Some(550)
  {
    ShowThreeDigits(5, 5, 0);
    var s := Show(550);
    assert s == "550";
    TypedNumber(550, "");
    assert s + "" == s;
  }

  /** "550abc" is read as 550. */
  lemma TypedTrailingText()
    ensures TempInputChange("550abc").emitted == Some(550)
  {
    ShowThreeDigits(5, 5, 0);
    var s := Show(550);
    assert s == "550";
    var t := "550abc";
    assert t[..3] == s && t[3..] == "abc";
    assert t == t[..3] + t[3..];
    TypedNumber(550, "abc");
  }

  /** The target after an edit of the field: the new one when it is passed
      on, the old one otherwise; always in [0, 800] when it changes. */
  function EditTarget(p: ProcessData, value: string): (r: ProcessData)
    ensures r.targetTemperature == p.targetTemperature || 0 <= r.targetTemperature <= MaxTarget
    ensures r.(targetTemperature := p.targetTemperature) == p
    ensures TempInputChange(value).emitted.None? ==> r == p
    ensures TempInputChange(value).emitted.Some? ==> r.targetTemperature == TempInputChange(value).emitted.value
  {
    match TempInputChange(value).emitted
    case Some(n) => Commands.SetTarget(p, n)
    case None => p
  }

  /** The two preset buttons. */
  const Presets: seq<int> := [450, 550]

  /** Each preset is a target the text field would also accept. */
  lemma PresetsAccepted(i: nat)
    requires i < |Presets|
    ensures TempInputChange(Show(Presets[i])).emitted == Some(Presets[i])
  {
    TypedNumber(Presets[i], "");
    assert Show(Presets[i]) + "" == Show(Presets[i]);
  }

  /** `isOverheating`. */
  predicate IsOverheating(current: int) { current > 650 }

  /** `isUnderpowered`. */
  predicate IsUnderpowered(current: int, target: int) { current < target - 50 }

  datatype Banner = NoBanner | ExceedsLimits | BelowTarget

  /** The warning banner: shown when either flag holds, with the overheating
      message taking precedence. */
  function WarningBanner(current: int, target: int): (b: Banner)
    ensures b == NoBanner <==> !IsOverheating(current) && !IsUnderpowered(current, target)
    ensures b == ExceedsLimits <==> IsOverheating(current)
    ensures b == BelowTarget <==> !IsOverheating(current) && IsUnderpowered(current, target)
  {
    if IsOverheating(current) then ExceedsLimits
    else if IsUnderpowered(current, target) then BelowTarget
    else NoBanner
  }

  /** Both flags can hold at once (a very high target), and then only the
      overheating message is shown. */
  lemma BannerPrecedence()
    ensures IsOverheating(660) && IsUnderpowered(660, 800)
    ensures WarningBanner(660, 800) == ExceedsLimits
  {
  }

  datatype Trend = Rising | Falling | Steady

  /** The arrow next to the current temperature: up more than 5 degrees
      above target, down more than 5 below, none in between. */
  function TrendArrow(current: int, target: int): (t: Trend)
    ensures t == Rising <==> current - target > 5
    ensures t == Falling <==> current - target < -5
    ensures t == Steady <==> -5 <= current - target <= 5
  {
    var diff := current - target;
    if diff > 5 then Rising else if diff < -5 then Falling else Steady
  }

  /** Swapping current and target reverses the arrow. */
  lemma TrendAntisymmetric(a: int, b: int)
    ensures TrendArrow(a, b) == Rising <==> TrendArrow(b, a) == Falling
    ensures TrendArrow(a, b) == Steady <==> TrendArrow(b, a) == Steady
  {
  }

  /** `Math.min((t / 800) * 100, 100)`: the width of the temperature bar, in
      percent, full at 800 degrees and never more. */
  function TemperatureBar(t: real): (w: real)
    ensures w <= 100.0
    ensures t <= 800.0 ==> w == t / 8.0
    ensures t >= 800.0 ==> w == 100.0
  {
    Min((t / 800.0) * 100.0, 100.0)
  }

  /** A hotter reading never draws a shorter bar. */
  lemma TemperatureBarMonotone(a: real, b: real)
    requires a <= b
    ensures TemperatureBar(a) <= TemperatureBar(b)
  {
  }

  /** The target field, the power slider and both presets share one rule:
      disabled exactly when the heater is off. */
  function ControlsDisabled(isHeatingActive: bool): bool { !isHeatingActive }

  /** After an emergency stop every control of the panel is disabled; the
      heater switch, which is never disabled, is the way back, and switching
      it on enables them again. */
  lemma ControlsAfterStop(s: AppState)
    ensures ControlsDisabled(Commands.EmergencyStop(s).process.isHeatingActive)
    ensures !ControlsDisabled(Commands.ToggleHeating(Commands.EmergencyStop(s).process, true).isHeatingActive)
  {
  }
}
