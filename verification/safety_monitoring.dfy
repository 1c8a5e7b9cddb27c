/** The safety panel (src/.figma_internal/deleted/components/SafetyMonitoring.tsx):
    the five status badges, the critical and warning alert views with their
    counts and placeholders, the icon and frame colour of an alert, and the
    ACK button of each displayed alert. */
module SafetyMonitoring {
  import opened Base
  import opened Seqs
  import opened Text
  import opened Plant
  import Commands

  /** The test `alert => alert.type === kind`. */
  function IsKind(kind: AlertKind): Alert -> bool {
    (a: Alert) => a.kind == kind
  }

  /** The alerts of one severity, in the order they were raised. */
  function View(alerts: seq<Alert>, kind: AlertKind): (r: seq<Alert>)
    ensures |r| <= |alerts|
    ensures forall i :: 0 <= i < |r| ==> r[i].kind == kind
  {
    Filter(alerts, IsKind(kind))
  }

  /** `criticalAlerts`. */
  function CriticalAlerts(alerts: seq<Alert>): seq<Alert> { View(alerts, Critical) }

  /** `warningAlerts`. */
  function WarningAlerts(alerts: seq<Alert>): seq<Alert> { View(alerts, Warning) }

  /** A view holds exactly the alerts of its severity: every entry comes from
      the list, and every alert of that severity is shown. */
  lemma ViewExact(alerts: seq<Alert>, kind: AlertKind)
    ensures forall i :: 0 <= i < |View(alerts, kind)| ==> View(alerts, kind)[i] in alerts
    ensures forall i :: 0 <= i < |alerts| && alerts[i].kind == kind ==> alerts[i] in View(alerts, kind)
  {
    FilterMembers(alerts, IsKind(kind));
  }

  /** A view keeps the order of the alert list: the view of a concatenation
      is the concatenation of the views. */
  lemma ViewKeepsOrder(a: seq<Alert>, b: seq<Alert>, kind: AlertKind)
    ensures View(a + b, kind) == View(a, kind) + View(b, kind)
  {
    FilterConcat(a, b, IsKind(kind));
  }

  /** Every alert is counted in exactly one severity: the critical view, the
      warning view and the (never displayed) info alerts add up to the list. */
  lemma {:induction false} ViewsPartition(alerts: seq<Alert>)
    ensures |CriticalAlerts(alerts)| + |WarningAlerts(alerts)| + |View(alerts, Info)| == |alerts|
  {
    if |alerts| > 0 {
      ViewsPartition(alerts[1..]);
    }
  }

  /** The two displayed views share no alert, and an info alert is in
      neither of them. */
  lemma ViewsDisjoint(alerts: seq<Alert>)
    ensures forall i, j :: 0 <= i < |CriticalAlerts(alerts)| && 0 <= j < |WarningAlerts(alerts)| ==>
      CriticalAlerts(alerts)[i] != WarningAlerts(alerts)[j]
    ensures forall i :: 0 <= i < |alerts| && alerts[i].kind == Info ==>
      alerts[i] !in CriticalAlerts(alerts) && alerts[i] !in WarningAlerts(alerts)
  {
  }

  /** The `type` string an alert carries. */
  function KindName(kind: AlertKind): string {
    match kind
    case Critical => "critical"
    case Warning => "warning"
    case Info => "info"
  }

  /** The `type` strings the panel knows. */
  predicate KnownType(t: string) { t == "critical" || t == "warning" || t == "info" }

  datatype Icon = XCircle | AlertTriangle | CheckCircle

  /** The icon drawn in front of an alert, with its colour. */
  datatype Glyph = Glyph(icon: Icon, tone: Tone)

  /** `getAlertIcon`: defined for every string, with a grey triangle for a
      type it does not know. */
  function AlertIcon(t: string): (g: Glyph)
    ensures t == "critical" ==> g == Glyph(XCircle, Red)
    ensures t == "warning" ==> g == Glyph(AlertTriangle, Yellow)
    ensures t == "info" ==> g == Glyph(CheckCircle, Blue)
    ensures g.tone == Gray <==> !KnownType(t)
    ensures g.icon == AlertTriangle <==> t != "critical" && t != "info"
  {
    if t == "critical" then Glyph(XCircle, Red)
    else if t == "warning" then Glyph(AlertTriangle, Yellow)
    else if t == "info" then Glyph(CheckCircle, Blue)
    else Glyph(AlertTriangle, Gray)
  }

  /** `getAlertColor`: the frame colour, grey for an unknown type. */
  function AlertFrame(t: string): (tone: Tone)
    ensures t == "critical" ==> tone == Red
    ensures t == "warning" ==> tone == Yellow
    ensures t == "info" ==> tone == Blue
    ensures tone == Gray <==> !KnownType(t)
  {
    if t == "critical" then Red
    else if t == "warning" then Yellow
    else if t == "info" then Blue
    else Gray
  }

  /** The icon always has the colour of the frame around it, and the three
      severities get three different colours, none of them the default. */
  lemma IconMatchesFrame(t: string, a: AlertKind, b: AlertKind)
    ensures AlertIcon(t).tone == AlertFrame(t)
    ensures KnownType(KindName(a)) && AlertFrame(KindName(a)) != Gray
    ensures AlertFrame(KindName(a)) == AlertFrame(KindName(b)) <==> a == b
  {
  }

  /** A status badge: its label and its colour. */
  datatype Badge = Badge(caption: string, tone: Tone)

  /** A green badge with `good` text when the check passes, otherwise a red
      one with `bad` text. */
  function StatusBadge(pass: bool, good: string, bad: string): (b: Badge)
    ensures b.tone == Green <==> pass
    ensures b.tone == Red <==> !pass
    ensures b.caption == good <==> pass || good == bad
    ensures !pass ==> b.caption == bad
  {
    if pass then Badge(good, Green) else Badge(bad, Red)
  }

  /** The five badges: temperature, pressure, electrical, gas leak and
      emergency stop. */
  function StatusBadges(ss: SystemStatus): (bs: seq<Badge>)
    ensures |bs| == 5
    ensures forall i :: 0 <= i < 5 ==> (bs[i].tone == Green <==> bs[i].caption in ["OK", "CLEAR", "READY"])
    ensures bs[0].caption == "OK" <==> ss.temperatureSafety
    ensures bs[1].caption == "OK" <==> ss.pressureSafety
    ensures bs[2].caption == "OK" <==> ss.electricalSafety
    ensures bs[3].caption == "CLEAR" <==> ss.gasLeakDetection
    ensures bs[4].caption == "READY" <==> !ss.emergencyStop
    ensures bs[0] == (if ss.temperatureSafety then Badge("OK", Green) else Badge("ALERT", Red))
    ensures bs[1] == (if ss.pressureSafety then Badge("OK", Green) else Badge("ALERT", Red))
    ensures bs[2] == (if ss.electricalSafety then Badge("OK", Green) else Badge("ALERT", Red))
    ensures bs[3] == (if ss.gasLeakDetection then Badge("CLEAR", Green) else Badge("DETECTED", Red))
    ensures bs[4] == (if ss.emergencyStop then Badge("ACTIVE", Red) else Badge("READY", Green))
  {
    [ StatusBadge(ss.temperatureSafety, "OK", "ALERT"),
      StatusBadge(ss.pressureSafety, "OK", "ALERT"),
      StatusBadge(ss.electricalSafety, "OK", "ALERT"),
      StatusBadge(ss.gasLeakDetection, "CLEAR", "DETECTED"),
      StatusBadge(!ss.emergencyStop, "READY", "ACTIVE") ]
  }

  /** Pressing EMERGENCY STOP turns the E-Stop badge red and ACTIVE and
      leaves the other four badges as they were. */
  lemma EmergencyStopBadges(s: AppState)
    ensures var after := StatusBadges(Commands.EmergencyStop(s).safety.systemStatus);
      after[4] == Badge("ACTIVE", Red) && after[..4] == StatusBadges(s.safety.systemStatus)[..4]
  {
  }

  /** One displayed alert: frame, icon, message, the "system • timestamp"
      line, and the id its ACK button sends. */
  datatype AlertRow = AlertRow(frame: Tone, glyph: Glyph, message: string, origin: string, ackId: string)

  /** A panel body: the "No ..." placeholder or the list of alerts. */
  datatype AlertList = Placeholder(text: string) | Rows(rows: seq<AlertRow>)

  datatype Panel = Panel(heading: string, body: AlertList)

  function Row(a: Alert): (row: AlertRow)
    ensures row.ackId == a.id && row.message == a.message
    ensures row.origin == a.system + " • " + a.timestamp
    ensures row.glyph.tone == row.frame
    ensures a.kind == Critical ==> row.frame == Red && row.glyph == Glyph(XCircle, Red)
    ensures a.kind == Warning ==> row.frame == Yellow && row.glyph == Glyph(AlertTriangle, Yellow)
    ensures a.kind == Info ==> row.frame == Blue && row.glyph == Glyph(CheckCircle, Blue)
  {
    var t := KindName(a.kind);
    AlertRow(AlertFrame(t), AlertIcon(t), a.message, a.system + " • " + a.timestamp, a.id)
  }

  /** A panel over one view: the heading carries the view's length, the
      placeholder appears exactly when the view is empty, and otherwise one
      row per alert, in view order, whose ACK sends that alert's id. */
  function AlertPanel(title: string, emptyText: string, view: seq<Alert>): (p: Panel)
    ensures p.body.Placeholder? <==> |view| == 0
    ensures p.body.Placeholder? ==> p.body.text == emptyText
    ensures p.body.Rows? ==> |p.body.rows| == |view|
    ensures p.body.Rows? ==> forall i :: 0 <= i < |view| ==> p.body.rows[i] == Row(view[i])
    ensures p.body.Rows? ==> forall i :: 0 <= i < |view| ==> p.body.rows[i].ackId == view[i].id
    ensures p.body.Rows? ==> forall i :: 0 <= i < |view| ==> p.body.rows[i].message == view[i].message
  {
    var body := if |view| == 0 then Placeholder(emptyText)
      else Rows(seq(|view|, i requires 0 <= i < |view| => Row(view[i])));
    Panel(title + " (" + Show(|view|) + ")", body)
  }

  function CriticalPanel(alerts: seq<Alert>): Panel {
    AlertPanel("Critical Alerts", "No critical alerts", CriticalAlerts(alerts))
  }

  function WarningPanel(alerts: seq<Alert>): Panel {
    AlertPanel("Warnings", "No warnings", WarningAlerts(alerts))
  }

  /** The count in a heading reads back as the number of alerts in the view. */
  lemma HeadingCount(title: string, emptyText: string, view: seq<Alert>)
    ensures var h := AlertPanel(title, emptyText, view).heading;
      |h| > |title| + 2 && ParseInt(h[|title| + 2..]) == Some(|view|)
  {
    var h := AlertPanel(title, emptyText, view).heading;
    assert h[|title| + 2..] == Show(|view|) + ")";
    ParseIntOfShow(|view|, ")");
  }

  /** Pressing ACK on the `i`-th row of a view removes the alert shown there
      from the alert list: the list gets shorter and no alert with that id is
      left. */
  lemma AckRemovesShown(alerts: seq<Alert>, kind: AlertKind, title: string, emptyText: string, i: nat)
    requires i < |View(alerts, kind)|
    ensures var p := AlertPanel(title, emptyText, View(alerts, kind));
      p.body.Rows? && i < |p.body.rows|
    ensures var id := AlertPanel(title, emptyText, View(alerts, kind)).body.rows[i].ackId;
      var r := Commands.Acknowledge(alerts, id);
      && |r| < |alerts|
      && View(alerts, kind)[i] !in r
      && forall j :: 0 <= j < |r| ==> r[j].id != View(alerts, kind)[i].id
  {
    var view := View(alerts, kind);
    var a := view[i];
    ViewExact(alerts, kind);
    assert a in alerts;
    var k :| 0 <= k < |alerts| && alerts[k] == a;
    FilterShrinks(alerts, k, Commands.OtherThan(a.id));
  }
}
