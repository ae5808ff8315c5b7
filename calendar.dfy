/** Time as integers. Instants are milliseconds since 1970-01-01T00:00Z; calendar dates
    are day numbers (day 0 is Thursday, 1 January 1970). Time zones are not modelled. */
module Calendar {

  const MsPerDay: int := 86_400_000

  /** The day an instant falls on: `startOf("day")` / `setHours(0, 0, 0, 0)`. */
  function DayOf(ms: int): int {
    ms / MsPerDay
  }

  /** ISO weekday of a day number: 0 is Monday, 6 is Sunday. */
  function Weekday(d: int): (w: int)
    ensures 0 <= w < 7
  {
    (d + 3) % 7
  }

  /** `startOf("isoWeek")`: the Monday on or before day `d`. */
  function IsoWeekStart(d: int): (m: int)
    ensures m <= d < m + 7
    ensures Weekday(m) == 0
  {
    d - Weekday(d)
  }

  /** `endOf("isoWeek")`: the Sunday of the ISO week of day `d`. */
  function IsoWeekEnd(d: int): int {
    IsoWeekStart(d) + 6
  }

  const WeekdayNames: seq<string> :=
    ["Monday", "Tuesday", "Wednesday", "Thursday", "Friday", "Saturday", "Sunday"]

  /** `format("dddd")`: the English name of the weekday of day `d`. */
  function WeekdayName(d: int): string {
    WeekdayNames[Weekday(d)]
  }

  /** A Monday is the start of its own ISO week, and the week of any day is the one
      starting at the only Monday at most six days before it. */
  lemma IsoWeekStartUnique(m: int, d: int)
    requires Weekday(m) == 0 && m <= d < m + 7
    ensures IsoWeekStart(d) == m
  {
    var k := d - m;
    assert (m + 3) % 7 == 0;
    assert (d + 3) % 7 == ((m + 3) + k) % 7;
  }

  /** Every day between an ISO week's Monday and Sunday belongs to that week. */
  lemma SameIsoWeek(d: int, e: int)
    requires IsoWeekStart(d) <= e <= IsoWeekEnd(d)
    ensures IsoWeekStart(e) == IsoWeekStart(d) && IsoWeekEnd(e) == IsoWeekEnd(d)
  {
    IsoWeekStartUnique(IsoWeekStart(d), e);
  }
}
