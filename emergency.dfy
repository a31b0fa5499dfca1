/**
 * The emergency screen: a list of alerts, the status banner that names the
 * most severe one, and the colour coding of the banner and of the list rows.
 */
module Emergency {
  import opened Wrappers
  import opened Graphics
  import Text

  /** EmergencyAlert: an immutable record; only its priority takes part in ranking. */
  datatype Alert = Alert(title: string, description: string, priority: string, timeAgo: string)

  /** getPriorityLevel: the three known priorities rank 1..3, anything else ranks 0. */
  function PriorityLevel(priority: string): (level: int)
    ensures 0 <= level <= 3
    ensures level == 1 <==> priority == "Low"
    ensures level == 2 <==> priority == "Medium"
    ensures level == 3 <==> priority == "High"
  {
    if priority == "Low" then 1
    else if priority == "Medium" then 2
    else if priority == "High" then 3
    else 0
  }

  function Level(a: Alert): int
  {
    PriorityLevel(a.priority)
  }

  /**
   * The position of the alert the scan in getHighestPriorityAlert settles on:
   * a left-to-right fold that replaces the candidate only on a strictly
   * higher level. The result is a maximum, and no earlier alert reaches it.
   */
  function HighestIndex(alerts: seq<Alert>): (k: nat)
    requires |alerts| > 0
    ensures k < |alerts|
    ensures forall j :: 0 <= j < |alerts| ==> Level(alerts[j]) <= Level(alerts[k])
    ensures forall j :: 0 <= j < k ==> Level(alerts[j]) < Level(alerts[k])
  {
    if |alerts| == 1 then 0
    else
      var h := HighestIndex(alerts[..|alerts| - 1]);
      if Level(alerts[|alerts| - 1]) > Level(alerts[h]) then |alerts| - 1 else h
  }

  /** The two properties of HighestIndex single it out: it is THE first maximum. */
  lemma FirstMaximumIsUnique(alerts: seq<Alert>, k: nat)
    requires k < |alerts|
    requires forall j :: 0 <= j < |alerts| ==> Level(alerts[j]) <= Level(alerts[k])
    requires forall j :: 0 <= j < k ==> Level(alerts[j]) < Level(alerts[k])
    ensures k == HighestIndex(alerts)
  {
    var h := HighestIndex(alerts);
    assert Level(alerts[h]) == Level(alerts[k]);
  }

  /**
   * getHighestPriorityAlert: scans the list once, keeping the first alert
   * of the highest level seen so far.
   */
  method GetHighestPriorityAlert(alerts: seq<Alert>) returns (highest: Alert)
    requires |alerts| > 0
    ensures highest == alerts[HighestIndex(alerts)]
  {
    highest := alerts[0];
    for i := 0 to |alerts|
      invariant i == 0 ==> highest == alerts[0]
      invariant i > 0 ==> highest == alerts[HighestIndex(alerts[..i])]
    {
      if Level(alerts[i]) > Level(highest) {
        highest := alerts[i];
      }
      assert alerts[..i + 1][..i] == alerts[..i];
    }
    assert alerts[..|alerts|] == alerts;
  }

  /** The banner text updateEmergencyStatus shows for a list of alerts. */
  function StatusText(alerts: seq<Alert>): (t: string)
    ensures t == "No Active Emergencies" <==> |alerts| == 0
    ensures |alerts| > 0 ==>
      exists k :: 0 <= k < |alerts| && t == "Active Emergency: " + alerts[k].title
        && forall j :: 0 <= j < |alerts| ==> Level(alerts[j]) <= Level(alerts[k])
  {
    if |alerts| == 0 then "No Active Emergencies"
    else
      var k := HighestIndex(alerts);
      var t := "Active Emergency: " + alerts[k].title;
      assert t[0] != "No Active Emergencies"[0];
      t
  }

  /**
   * The banner background for the winning alert's priority; an unknown
   * priority leaves the background as it was.
   */
  function BannerColor(priority: string, current: Option<Color>): (c: Option<Color>)
    ensures PriorityLevel(priority) == 0 ==> c == current
    ensures PriorityLevel(priority) > 0 ==> c.Some? && c != Some(GREEN)
  {
    if priority == "Low" then Some(YELLOW)
    else if priority == "Medium" then Some(ORANGE)
    else if priority == "High" then Some(RED)
    else current
  }

  /** The banner background updateEmergencyStatus leaves behind. */
  function StatusColor(alerts: seq<Alert>, current: Option<Color>): (c: Option<Color>)
    ensures |alerts| == 0 ==> c == Some(GREEN)
    ensures |alerts| > 0 && Level(alerts[HighestIndex(alerts)]) == 0 ==> c == current
    ensures |alerts| > 0 && Level(alerts[HighestIndex(alerts)]) > 0 ==> c.Some? && c != Some(GREEN)
  {
    if |alerts| == 0 then Some(GREEN)
    else BannerColor(alerts[HighestIndex(alerts)].priority, current)
  }

  /**
   * The text colour of a list row (EmergencyAlertAdapter.getView); an
   * unknown priority leaves the row's colour as it was.
   */
  function RowTextColor(priority: string, current: Option<Color>): (c: Option<Color>)
    ensures PriorityLevel(priority) == 0 ==> c == current
    ensures PriorityLevel(priority) > 0 ==> c.Some?
  {
    if priority == "Low" then Some(GREEN)
    else if priority == "Medium" then Some(ORANGE)
    else if priority == "High" then Some(RED)
    else current
  }

  /**
   * The banner and the list rows colour an alert alike except for a Low
   * alert, which is yellow in the banner and green in the list.
   */
  lemma RowAndBannerDifferOnlyForLow(priority: string, current: Option<Color>)
    ensures RowTextColor(priority, current) == BannerColor(priority, current) <==> priority != "Low"
  {
    if priority == "Low" {
      assert YELLOW != GREEN;
    }
  }

  /**
   * The banner tells the three levels apart, and its colour is never the
   * green that means "no emergency" once some alert of a known priority is listed.
   */
  lemma BannerColorTracksLevel(alerts: seq<Alert>, current: Option<Color>, other: seq<Alert>)
    requires |alerts| > 0 && |other| > 0
    requires Level(alerts[HighestIndex(alerts)]) > 0 && Level(other[HighestIndex(other)]) > 0
    ensures StatusColor(alerts, current) != Some(GREEN)
    ensures StatusColor(alerts, current) == StatusColor(other, current)
        <==> Level(alerts[HighestIndex(alerts)]) == Level(other[HighestIndex(other)])
  {
  }

  /** EmergencyAlert.toString: "title (priority) - timeAgo". */
  function AlertLabel(a: Alert): (row: string)
    ensures |row| == |a.title| + |a.priority| + |a.timeAgo| + 6
  {
    a.title + " (" + a.priority + ") - " + a.timeAgo
  }

  /** The title is the text before the first '(' of a row, less its trailing space. */
  lemma LabelTitle(a: Alert, b: Alert)
    requires '(' !in a.title && '(' !in b.title
    requires AlertLabel(a) == AlertLabel(b)
    ensures a.title == b.title
  {
    var ta, tb := a.title + " ", b.title + " ";
    var ra, rb := a.priority + ") - " + a.timeAgo, b.priority + ") - " + b.timeAgo;
    assert AlertLabel(a) == "" + ta + ['('] + ra;
    assert AlertLabel(b) == "" + tb + ['('] + rb;
    Text.FieldBeforeDelimiter("", ta, tb, '(', ra, rb);
    assert a.title == ta[..|a.title|] && b.title == tb[..|b.title|];
  }

  /** After the title, the priority is the text up to the next ')'. */
  lemma LabelPriority(a: Alert, b: Alert)
    requires a.title == b.title && ')' !in a.priority && ')' !in b.priority
    requires AlertLabel(a) == AlertLabel(b)
    ensures a.priority == b.priority
  {
    var p := a.title + " (";
    var ra, rb := " - " + a.timeAgo, " - " + b.timeAgo;
    assert AlertLabel(a) == p + a.priority + [')'] + ra;
    assert AlertLabel(b) == p + b.priority + [')'] + rb;
    Text.FieldBeforeDelimiter(p, a.priority, b.priority, ')', ra, rb);
  }

  /**
   * A list row names its alert: when titles hold no '(' and priorities no ')',
   * equal rows come from alerts with the same title, priority and age.
   */
  lemma AlertLabelDeterminesAlert(a: Alert, b: Alert)
    requires '(' !in a.title && '(' !in b.title && ')' !in a.priority && ')' !in b.priority
    requires AlertLabel(a) == AlertLabel(b)
    ensures a.title == b.title && a.priority == b.priority && a.timeAgo == b.timeAgo
  {
    LabelTitle(a, b);
    LabelPriority(a, b);
    var p := a.title + " (" + a.priority + ") - ";
    assert AlertLabel(a) == p + a.timeAgo && AlertLabel(b) == p + b.timeAgo;
    assert a.timeAgo == AlertLabel(a)[|p|..] && b.timeAgo == AlertLabel(b)[|p|..];
  }

  /** The alerts loadEmergencyAlerts registers, in order. */
  const SEEDED_ALERTS: seq<Alert> := [
    Alert("Fire Drill", "Scheduled fire drill in Main Building", "Low", "10 minutes ago"),
    Alert("Medical Emergency", "Medical assistance needed in Library", "Medium", "5 minutes ago"),
    Alert("Weather Warning", "Severe weather approaching campus", "High", "2 minutes ago")
  ]

  /** The state of EmergencyActivity that is not UI: its alerts and its banner. */
  class EmergencyScreen {
    var alerts: seq<Alert>
    var statusText: string
    /** The banner background; None is whatever the layout gives it. */
    var statusColor: Option<Color>

    /** onCreate's loadEmergencyAlerts: three appends, then the banner update. */
    constructor ()
      ensures alerts == SEEDED_ALERTS
      ensures statusText == "Active Emergency: Weather Warning"
      ensures statusColor == Some(RED)
    {
      statusText := "";
      statusColor := None;
      alerts := [];
      alerts := alerts + [Alert("Fire Drill", "Scheduled fire drill in Main Building", "Low", "10 minutes ago")];
      alerts := alerts + [Alert("Medical Emergency", "Medical assistance needed in Library", "Medium", "5 minutes ago")];
      alerts := alerts + [Alert("Weather Warning", "Severe weather approaching campus", "High", "2 minutes ago")];
      new;
      UpdateEmergencyStatus();
      assert HighestIndex(alerts) == 2;
    }

    /**
     * updateEmergencyStatus: green "No Active Emergencies" for an empty list;
     * otherwise the first alert of the highest level names the banner and picks its colour.
     * The scan is only run on a non-empty list.
     */
    method UpdateEmergencyStatus()
      modifies this`statusText, this`statusColor
      ensures statusText == StatusText(alerts)
      ensures statusColor == StatusColor(alerts, old(statusColor))
    {
      if |alerts| == 0 {
        statusText := "No Active Emergencies";
        statusColor := Some(GREEN);
      } else {
        var highest := GetHighestPriorityAlert(alerts);
        statusText := "Active Emergency: " + highest.title;
        if highest.priority == "Low" {
          statusColor := Some(YELLOW);
        } else if highest.priority == "Medium" {
          statusColor := Some(ORANGE);
        } else if highest.priority == "High" {
          statusColor := Some(RED);
        }
      }
    }
  }
}
