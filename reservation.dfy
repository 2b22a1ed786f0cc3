/**
 * The booking calendar of Reservation.jsx: the cells of November 2025 in a Monday-first,
 * seven-column grid. `None` is an empty leading cell (`null`), `Some(d)` the day `d`.
 */
module Reservation {
  import opened Options

  /** The column headers, Monday first. */
  const WeekDays: seq<string> := ["lun.", "mar.", "mer.", "jeu.", "ven.", "sam.", "dim."]

  /** The empty cells before the 1st, and the days of the month. */
  const LeadingBlanks: nat := 5
  const DaysInMonth: nat := 30

  /** `generateCalendarDays()`: five empty cells, then the days 1 to 30 in order. */
  method GenerateCalendarDays() returns (days: seq<Option<nat>>)
    ensures |days| == LeadingBlanks + DaysInMonth
    ensures forall k :: 0 <= k < LeadingBlanks ==> days[k].None?
    ensures forall k :: LeadingBlanks <= k < |days| ==> days[k] == Some(k - LeadingBlanks + 1)
  {
    days := [];
    var i := 0;
    while i < 5
      invariant 0 <= i <= 5 && |days| == i
      invariant forall k :: 0 <= k < i ==> days[k].None?
    {
      days := days + [None];
      i := i + 1;
    }
    i := 1;
    while i <= 30
      invariant 1 <= i <= 31 && |days| == LeadingBlanks + i - 1
      invariant forall k :: 0 <= k < LeadingBlanks ==> days[k].None?
      invariant forall k :: LeadingBlanks <= k < |days| ==> days[k] == Some(k - LeadingBlanks + 1)
    {
      days := days + [Some(i)];
      i := i + 1;
    }
  }

  /** Every day of the month has exactly one cell. */
  lemma EachDayOnce(days: seq<Option<nat>>, d: nat)
    requires |days| == LeadingBlanks + DaysInMonth
    requires forall k :: 0 <= k < LeadingBlanks ==> days[k].None?
    requires forall k :: LeadingBlanks <= k < |days| ==> days[k] == Some(k - LeadingBlanks + 1)
    requires 1 <= d <= DaysInMonth
    ensures days[LeadingBlanks + d - 1] == Some(d)
    ensures forall k :: 0 <= k < |days| && days[k] == Some(d) ==> k == LeadingBlanks + d - 1
  {
  }

  /** The day of the week of a Gregorian date, 0 for Sunday (Sakamoto's method). */
  function DayOfWeek(year: nat, month: nat, day: nat): (r: nat)
    requires 1 <= month <= 12 && year >= 1
    ensures r < 7
  {
    var t := [0, 3, 2, 5, 0, 3, 5, 1, 4, 6, 2, 4];
    var y := if month < 3 then year - 1 else year;
    (y + y / 4 - y / 100 + y / 400 + t[month - 1] + day) % 7
  }

  /** The column of a date in a Monday-first week. */
  function MondayFirstColumn(year: nat, month: nat, day: nat): (c: nat)
    requires 1 <= month <= 12 && year >= 1
    ensures c < 7
  {
    (DayOfWeek(year, month, day) + 6) % 7
  }

  /**
   * The grid is aligned with the calendar: the cell of every day of November 2025 sits in the
   * column of its weekday, so the 1st, a Saturday, is under "sam.".
   */
  lemma GridMatchesCalendar(d: nat)
    requires 1 <= d <= DaysInMonth
    ensures (LeadingBlanks + d - 1) % 7 == MondayFirstColumn(2025, 11, d)
    ensures d == 1 ==> WeekDays[(LeadingBlanks + d - 1) % 7] == "sam." && DayOfWeek(2025, 11, 1) == 6
  {
    assert DayOfWeek(2025, 11, d) == (2518 + d) % 7;
    assert 2518 % 7 == 5;
  }
}
