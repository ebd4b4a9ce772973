/**
 * The ELD daily log sheet (frontend/src/Eldsheet.js): each log event becomes a
 * bar on the row of its duty status, placed on a 24-hour axis that spans 100%
 * of the timeline's width; a vertical line marks every status change, 25 ticks
 * mark the hours 0..24, and a remark card lists each event's times and place.
 */
module EldSheet {
  import opened Wrappers

  /** One entry of `logEvents`; a missing `location`/`remarks` is `None`. */
  datatype LogEvent = LogEvent(
    status: string,
    startHour: real,
    endHour: real,
    duration: real,
    location: Option<string>,
    remarks: Option<string>)

  /** A duty-segment bar: its row class, left offset and width (in %), and tooltip. */
  datatype Bar = Bar(rowClass: string, leftPercent: real, widthPercent: real, title: string)

  /** An hour tick: its label and left offset (in %). */
  datatype HourMarker = HourMarker(hour: nat, leftPercent: real)

  /** A remark card: the status badge, the "HH:MM - HH:MM" times and the place. */
  datatype Remark = Remark(status: string, time: string, location: string)

  /** Everything the sheet lays out. */
  datatype Sheet = Sheet(bars: seq<Bar>, statusChangeLines: seq<real>, hourMarkers: seq<HourMarker>, remarks: seq<Remark>)

  const TotalHours: real := 24.0
  const HourScale: real := 100.0 / TotalHours
  const HourMarkerCount: nat := 25

  /** The row labels, top to bottom. */
  const StatusLabels: seq<string> := ["Off Duty", "Sleeper Berth", "Driving", "On Duty"]

  /** `logEvents || []`. */
  function Events(logEvents: Option<seq<LogEvent>>): (events: seq<LogEvent>)
    ensures logEvents.None? ==> events == []
    ensures logEvents.Some? ==> events == logEvents.value
  {
    logEvents.GetOr([])
  }

  // ---------------------------------------------------------------------------
  // Status rows
  // ---------------------------------------------------------------------------

  /** The CSS class of row `n`. */
  function RowClass(n: nat): string
  {
    "row-" + NatToString(n)
  }

  /** `getStatusRowClass`: a known status goes on the row labelled with it; anything else on row 1. */
  function GetStatusRowClass(status: string): (rowClass: string)
    ensures forall i :: 0 <= i < |StatusLabels| && status == StatusLabels[i] ==> rowClass == RowClass(i + 1)
    ensures status !in StatusLabels ==> rowClass == RowClass(1)
    ensures rowClass in {RowClass(1), RowClass(2), RowClass(3), RowClass(4)}
  {
    match status
    case "Off Duty" => "row-1"
    case "Sleeper Berth" => "row-2"
    case "Driving" => "row-3"
    case "On Duty" => "row-4"
    case _ => "row-1"
  }

  // ---------------------------------------------------------------------------
  // Time formatting
  // ---------------------------------------------------------------------------

  /** The decimal digit character of `d`. */
  function DigitChar(d: nat): char
    requires d < 10
  {
    "0123456789"[d]
  }

  /** `n.toString()` for a non-negative integer. */
  function NatToString(n: nat): (s: string)
    ensures n < 10 ==> |s| == 1
    ensures 10 <= n < 100 ==> |s| == 2
    ensures |s| >= 1
    decreases n
  {
    if n < 10 then [DigitChar(n)] else NatToString(n / 10) + [DigitChar(n % 10)]
  }

  /** `n.toString()` for any integer. */
  function IntToString(n: int): string
  {
    if n < 0 then "-" + NatToString(-n) else NatToString(n)
  }

  /** `s.padStart(2, "0")`. */
  function PadStart2(s: string): (padded: string)
    ensures |padded| == if |s| >= 2 then |s| else 2
  {
    if |s| >= 2 then s else seq(2 - |s|, _ => '0') + s
  }

  /** `Math.round`: the nearest integer, halves rounded up. */
  function Round(v: real): int
  {
    (v + 0.5).Floor
  }

  /** The hour part `formatTime` shows: `Math.floor(decimalHour)`. */
  function HourPart(decimalHour: real): int
  {
    decimalHour.Floor
  }

  /** The minute part `formatTime` shows: the rounded fractional hour in minutes, not carried into the hour. */
  function MinutePart(decimalHour: real): (m: int)
    ensures 0 <= m <= 60
    ensures (m as real - 0.5) / 60.0 <= decimalHour - HourPart(decimalHour) as real < (m as real + 0.5) / 60.0
  {
    Round((decimalHour - HourPart(decimalHour) as real) * 60.0)
  }

  /** `formatTime`: "HH:MM" from decimal hours. The minutes are always two
      characters after the last-but-two ':'; the hours are two characters below 100. */
  function FormatTime(decimalHour: real): (s: string)
    ensures |s| >= 5
    ensures s[|s| - 3] == ':'
    ensures 0.0 <= decimalHour < 100.0 ==> |s| == 5
  {
    PadStart2(IntToString(HourPart(decimalHour))) + ":" + PadStart2(IntToString(MinutePart(decimalHour)))
  }

  /** The value of a string of decimal digits. */
  function DigitsValue(s: string): int
  {
    if s == [] then 0 else DigitsValue(s[..|s| - 1]) * 10 + DigitValue(s[|s| - 1])
  }

  function DigitValue(c: char): int
  {
    if '0' <= c <= '9' then c as int - '0' as int else 0
  }

  predicate IsDigit(c: char)
  {
    '0' <= c <= '9'
  }

  /** `NatToString` writes decimal digits, one for a single-digit number and
      two for a two-digit one, and reading them back gives the number. */
  lemma {:induction false} NatToStringDigits(n: nat)
    ensures forall i :: 0 <= i < |NatToString(n)| ==> IsDigit(NatToString(n)[i])
    ensures DigitsValue(NatToString(n)) == n
    ensures n < 10 ==> |NatToString(n)| == 1
    ensures 10 <= n < 100 ==> |NatToString(n)| == 2
    decreases n
  {
    var s := NatToString(n);
    if n >= 10 {
      NatToStringDigits(n / 10);
      assert s[..|s| - 1] == NatToString(n / 10);
      assert DigitValue(DigitChar(n % 10)) == n % 10;
    } else {
      assert DigitValue(DigitChar(n)) == n;
    }
  }

  /** A number below 100, padded: two digits that read back as the number. */
  lemma PaddedTwoDigits(n: nat)
    requires n < 100
    ensures |PadStart2(IntToString(n))| == 2
    ensures IsDigit(PadStart2(IntToString(n))[0]) && IsDigit(PadStart2(IntToString(n))[1])
    ensures DigitsValue(PadStart2(IntToString(n))) == n
  {
    NatToStringDigits(n);
    var s := NatToString(n);
    if n < 10 {
      assert PadStart2(s) == ['0'] + s;
      assert PadStart2(s)[..1] == ['0'];
    }
  }

  /** For `0 <= x < 100`, `formatTime(x)` is five characters "HH:MM" whose digits
      read back as the floored hour and the rounded minutes (the latter up to 60). */
  lemma FormatTimeShape(decimalHour: real)
    requires 0.0 <= decimalHour < 100.0
    ensures var s := FormatTime(decimalHour);
      |s| == 5 && s[2] == ':' &&
      IsDigit(s[0]) && IsDigit(s[1]) && IsDigit(s[3]) && IsDigit(s[4]) &&
      DigitsValue(s[..2]) == HourPart(decimalHour) &&
      DigitsValue(s[3..]) == MinutePart(decimalHour)
  {
    var h, m := HourPart(decimalHour), MinutePart(decimalHour);
    PaddedTwoDigits(h);
    PaddedTwoDigits(m);
    var s := FormatTime(decimalHour);
    assert s[..2] == PadStart2(IntToString(h));
    assert s[3..] == PadStart2(IntToString(m));
  }

  /** Half past seven, midnight, and a minute of 60 that is not carried into the hour. */
  lemma FormatTimeExamples()
    ensures FormatTime(7.5) == "07:30"
    ensures FormatTime(0.0) == "00:00"
    ensures FormatTime(23.999) == "23:60"
  {
    assert HourPart(7.5) == 7 && MinutePart(7.5) == 30;
    assert NatToString(30) == NatToString(3) + [DigitChar(0)];
    assert HourPart(23.999) == 23 && MinutePart(23.999) == 60;
    assert NatToString(23) == NatToString(2) + [DigitChar(3)];
    assert NatToString(60) == NatToString(6) + [DigitChar(0)];
  }

  // ---------------------------------------------------------------------------
  // Timeline layout
  // ---------------------------------------------------------------------------

  /** The horizontal position (in %) of hour `h` on the 24-hour axis. */
  function HourToPercent(h: real): (percent: real)
    ensures percent * 24.0 == h * 100.0
  {
    h * HourScale
  }

  /** The axis is linear: the position of an end hour is the position of the start
      plus the length of the span between them. */
  lemma HourToPercentAdditive(startHour: real, endHour: real)
    ensures HourToPercent(startHour) + HourToPercent(endHour - startHour) == HourToPercent(endHour)
  {
  }

  /** A bar's tooltip: the status, then the start and end times. */
  function BarTitle(event: LogEvent): (title: string)
    ensures |title| > |event.status| && title[..|event.status|] == event.status
    ensures title[|event.status|..] == " " + FormatTime(event.startHour) + "-" + FormatTime(event.endHour)
  {
    var times := " " + FormatTime(event.startHour) + "-" + FormatTime(event.endHour);
    var title := event.status + times;
    assert title[..|event.status|] == event.status;
    assert title[|event.status|..] == times;
    title
  }

  /** The bar of one event: on its status's row, left at its start hour, as wide
      as its `duration`, titled with the status and the two times. */
  function BarOf(event: LogEvent): (bar: Bar)
    ensures bar.rowClass == GetStatusRowClass(event.status)
    ensures bar.leftPercent == HourToPercent(event.startHour)
    ensures bar.widthPercent == HourToPercent(event.duration)
    ensures event.duration == event.endHour - event.startHour ==>
              bar.leftPercent + bar.widthPercent == HourToPercent(event.endHour)
    ensures bar.title == BarTitle(event)
  {
    HourToPercentAdditive(event.startHour, event.endHour);
    Bar(GetStatusRowClass(event.status), HourToPercent(event.startHour), HourToPercent(event.duration), BarTitle(event))
  }

  /** `events.map(...)`: one bar per event, in order. */
  function Bars(events: seq<LogEvent>): (bars: seq<Bar>)
    ensures |bars| == |events|
    ensures forall i :: 0 <= i < |events| ==> bars[i] == BarOf(events[i])
  {
    seq(|events|, i requires 0 <= i < |events| => BarOf(events[i]))
  }

  /** `events.slice(1).map((event, idx) => events[idx].endHour * HOUR_SCALE)`. */
  function StatusChangeLines(events: seq<LogEvent>): (lines: seq<real>)
    ensures |lines| == if |events| == 0 then 0 else |events| - 1
    ensures forall k :: 0 <= k < |lines| ==> lines[k] == HourToPercent(events[k].endHour)
  {
    var tail := events[if |events| == 0 then 0 else 1..];
    seq(|tail|, idx requires 0 <= idx < |tail| => HourToPercent(events[idx].endHour))
  }

  /** `[...Array(25).keys()].map(h => h * HOUR_SCALE)`. */
  function HourMarkers(): (markers: seq<HourMarker>)
    ensures |markers| == HourMarkerCount
    ensures forall h :: 0 <= h < HourMarkerCount ==> markers[h] == HourMarker(h, HourToPercent(h as real))
  {
    seq(HourMarkerCount, h requires 0 <= h < HourMarkerCount => HourMarker(h, HourToPercent(h as real)))
  }

  /** The remark card's place: `location || remarks || ""` (an empty string counts as missing). */
  function RemarkLocation(event: LogEvent): (place: string)
    ensures event.location.Some? && event.location.value != "" ==> place == event.location.value
    ensures (event.location.None? || event.location.value == "") && event.remarks.Some? ==> place == event.remarks.value
    ensures (event.location.None? || event.location.value == "") && event.remarks.None? ==> place == ""
  {
    if event.location.Some? && event.location.value != "" then event.location.value
    else if event.remarks.Some? && event.remarks.value != "" then event.remarks.value
    else ""
  }

  /** The remark cards, one per event. */
  function Remarks(events: seq<LogEvent>): (remarks: seq<Remark>)
    ensures |remarks| == |events|
  {
    seq(|events|, i requires 0 <= i < |events| =>
      Remark(events[i].status,
             FormatTime(events[i].startHour) + " - " + FormatTime(events[i].endHour),
             RemarkLocation(events[i])))
  }

  /** The whole sheet for the `logEvents` prop. */
  function Render(logEvents: Option<seq<LogEvent>>): (sheet: Sheet)
    ensures |sheet.bars| == |sheet.remarks| == |Events(logEvents)|
    ensures |sheet.statusChangeLines| == if |Events(logEvents)| == 0 then 0 else |Events(logEvents)| - 1
    ensures |sheet.hourMarkers| == HourMarkerCount
  {
    var events := Events(logEvents);
    Sheet(Bars(events), StatusChangeLines(events), HourMarkers(), Remarks(events))
  }

  // ---------------------------------------------------------------------------
  // Layout properties
  // ---------------------------------------------------------------------------

  /** Hour 0 is the left edge, hour 6 a quarter of the way, hour 24 the right edge;
      the mapping is strictly increasing and has an inverse. */
  lemma HourToPercentScale(h: real, g: real)
    ensures HourToPercent(0.0) == 0.0 && HourToPercent(6.0) == 25.0 && HourToPercent(24.0) == 100.0
    ensures h < g ==> HourToPercent(h) < HourToPercent(g)
    ensures HourToPercent(h) * 24.0 / 100.0 == h
    ensures 0.0 <= h <= TotalHours ==> 0.0 <= HourToPercent(h) <= 100.0
  {
  }

  /** When event `k` ends where event `k + 1` starts and its `duration` is its
      end minus its start, status-change line `k` sits at the right edge of bar `k`
      and at the left edge of bar `k + 1`. */
  lemma ChangeLinesJoinBars(events: seq<LogEvent>, k: nat)
    requires k + 1 < |events|
    requires events[k].duration == events[k].endHour - events[k].startHour
    requires events[k].endHour == events[k + 1].startHour
    ensures var bars, lines := Bars(events), StatusChangeLines(events);
      lines[k] == bars[k].leftPercent + bars[k].widthPercent && lines[k] == bars[k + 1].leftPercent
  {
  }

  /** The ticks start at 0%, end at 100% and are 100/24 % apart. */
  lemma HourMarkersSpan()
    ensures HourMarkers()[0].leftPercent == 0.0
    ensures HourMarkers()[HourMarkerCount - 1] == HourMarker(24, 100.0)
    ensures forall h :: 0 <= h < HourMarkerCount - 1 ==>
              HourMarkers()[h + 1].leftPercent - HourMarkers()[h].leftPercent == HourScale
  {
  }

  /** A missing log renders like an empty one: no bars, lines or remarks, but all 25 ticks. */
  lemma RenderMissingLog()
    ensures Render(None) == Render(Some([]))
    ensures Render(None).bars == [] && Render(None).statusChangeLines == [] && Render(None).remarks == []
    ensures |Render(None).hourMarkers| == HourMarkerCount
  {
  }
}
