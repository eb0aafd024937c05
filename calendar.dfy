/**
 * The per-locale calendar words: 1-indexed day and month tables with an
 * empty spacer in slot 0, and the meridian ("am"/"pm") lookup.
 */
module Calendar {
  import opened Wrappers
  import opened Locales

  /** A table of `slots` names, 1-indexed: slot 0 is the empty spacer, the others are non-empty. */
  predicate SpacerTable(t: seq<string>, slots: nat) {
    |t| == slots + 1 && t[0] == "" && forall i :: 1 <= i < |t| ==> t[i] != ""
  }

  datatype CalendarTables = CalendarTables(
    dayNames: seq<string>, dayAbbreviations: seq<string>,
    monthNames: seq<string>, monthAbbreviations: seq<string>)

  /** The shape every locale's tables must have: 7 days and 12 months after the spacer. */
  predicate WellFormed(c: CalendarTables) {
    && SpacerTable(c.dayNames, 7) && SpacerTable(c.dayAbbreviations, 7)
    && SpacerTable(c.monthNames, 12) && SpacerTable(c.monthAbbreviations, 12)
  }

  /** day_name(day) for an ISO weekday 1 (Monday) .. 7 (Sunday). */
  function DayName(c: CalendarTables, day: int): (name: string)
    requires WellFormed(c) && 1 <= day <= 7
    ensures name != "" && name in c.dayNames[1..]
    ensures name == c.dayNames[1..][day - 1]
  {
    assert c.dayNames[1..][day - 1] == c.dayNames[day];
    c.dayNames[day]
  }

  function DayAbbreviation(c: CalendarTables, day: int): (name: string)
    requires WellFormed(c) && 1 <= day <= 7
    ensures name != "" && name in c.dayAbbreviations[1..]
    ensures name == c.dayAbbreviations[1..][day - 1]
  {
    assert c.dayAbbreviations[1..][day - 1] == c.dayAbbreviations[day];
    c.dayAbbreviations[day]
  }

  /** month_name(month) for a month 1 (January) .. 12 (December). */
  function MonthName(c: CalendarTables, month: int): (name: string)
    requires WellFormed(c) && 1 <= month <= 12
    ensures name != "" && name in c.monthNames[1..]
    ensures name == c.monthNames[1..][month - 1]
  {
    assert c.monthNames[1..][month - 1] == c.monthNames[month];
    c.monthNames[month]
  }

  function MonthAbbreviation(c: CalendarTables, month: int): (name: string)
    requires WellFormed(c) && 1 <= month <= 12
    ensures name != "" && name in c.monthAbbreviations[1..]
    ensures name == c.monthAbbreviations[1..][month - 1]
  {
    assert c.monthAbbreviations[1..][month - 1] == c.monthAbbreviations[month];
    c.monthAbbreviations[month]
  }

  const EnglishCalendar: CalendarTables := CalendarTables(
    ["", "Monday", "Tuesday", "Wednesday", "Thursday", "Friday", "Saturday", "Sunday"],
    ["", "Mon", "Tue", "Wed", "Thu", "Fri", "Sat", "Sun"],
    ["", "January", "February", "March", "April", "May", "June", "July",
     "August", "September", "October", "November", "December"],
    ["", "Jan", "Feb", "Mar", "Apr", "May", "Jun", "Jul", "Aug", "Sep", "Oct", "Nov", "Dec"])

  /** The English tables pass the validation every locale is held to. */
  lemma EnglishCalendarWellFormed()
    ensures WellFormed(EnglishCalendar)
    ensures |EnglishCalendar.dayNames| == 8 && |EnglishCalendar.monthNames| == 13
  {
  }

  /** The tables are 1-indexed by ISO number: day 1 is Monday, day 7 Sunday, month 1 January. */
  lemma EnglishCalendarNumbering()
    ensures WellFormed(EnglishCalendar)
    ensures DayName(EnglishCalendar, 1) == "Monday" && DayName(EnglishCalendar, 7) == "Sunday"
    ensures DayAbbreviation(EnglishCalendar, 1) == "Mon" && DayAbbreviation(EnglishCalendar, 7) == "Sun"
    ensures MonthName(EnglishCalendar, 1) == "January" && MonthName(EnglishCalendar, 12) == "December"
    ensures MonthAbbreviation(EnglishCalendar, 1) == "Jan" && MonthAbbreviation(EnglishCalendar, 12) == "Dec"
  {
    EnglishCalendarWellFormed();
  }

  /** The meridian words: "a" selects the lower-case pair, "A" the upper-case pair. */
  datatype MeridianTable = MeridianTable(am: string, pm: string, upperAm: string, upperPm: string)

  function MeridianTableOf(lang: Lang): Option<MeridianTable> {
    match lang
    case English => Some(MeridianTable("am", "pm", "AM", "PM"))
    case Macedonian => Some(MeridianTable("дп", "пп", "претпладне", "попладне"))
    case Tagalog => Some(MeridianTable("nu", "nh", "ng umaga", "ng hapon"))
    case _ => None
  }

  /** meridian(hour, token): the morning word before noon, the afternoon word from 12 on; None for any other token. */
  function Meridian(t: MeridianTable, hour: int, token: Option<string>): Option<string> {
    if token == Some("a") then Some(if hour < 12 then t.am else t.pm)
    else if token == Some("A") then Some(if hour < 12 then t.upperAm else t.upperPm)
    else None
  }

  /**
   * Only the tokens "a" and "A" have a meridian (None, "B" and "NONSENSE" do
   * not), and in the modelled tables the word says whether the hour is before noon.
   */
  lemma MeridianShape(lang: Lang, hour: int, token: Option<string>)
    requires MeridianTableOf(lang).Some?
    ensures var t := MeridianTableOf(lang).value;
            var r := Meridian(t, hour, token);
            && (r.Some? <==> token == Some("a") || token == Some("A"))
            && (token == Some("a") ==> (r == Some(t.am) <==> hour < 12) && (r == Some(t.pm) <==> hour >= 12))
            && (token == Some("A") ==> (r == Some(t.upperAm) <==> hour < 12) && (r == Some(t.upperPm) <==> hour >= 12))
  {
  }
}
